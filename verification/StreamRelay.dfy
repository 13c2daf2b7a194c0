/** The relay between a subscriber's queue and the tunnel, which hands on one event at a time. */
module StreamRelay {
  import opened Wrappers
  import opened SseTunnel

  /** One round of the loop: the outcome of the first select and, for an event, whether the second
      one hands it on or sees the context done. */
  datatype RelayRound = ContextDone | QueueClosed | Received(event: StreamEvent, handedOn: bool)

  datatype RelayExit = StillRelaying | Disconnected | QueueDrained

  /** The events a sequence of rounds takes from the queue. */
  function TakenIn(rounds: seq<RelayRound>): seq<StreamEvent> {
    if rounds == [] then []
    else
      var r := rounds[|rounds| - 1];
      TakenIn(rounds[..|rounds| - 1]) + if r.Received? then [r.event] else []
  }

  /** What is handed on are the events taken, in order; only a disconnect can lose one, the last.
      The relay ends at the first round that says so, and then closes its channel. */
  method TrackStreamEvents(rounds: seq<RelayRound>)
    returns (tracked: seq<StreamEvent>, lost: Option<StreamEvent>, exit: RelayExit, done: nat)
    ensures done <= |rounds| && TakenIn(rounds[..done]) == tracked + if lost.Some? then [lost.value] else []
    ensures lost.Some? ==> exit == Disconnected
    ensures |tracked| == (if exit == StillRelaying then done else done - 1)
    ensures forall i :: 0 <= i < |tracked| ==> rounds[i].Received? && tracked[i] == rounds[i].event
    ensures lost.Some? ==> rounds[done - 1].Received? && lost.value == rounds[done - 1].event
    ensures exit == StillRelaying ==> done == |rounds|
    ensures exit == QueueDrained ==> done > 0 && rounds[done - 1].QueueClosed?
    ensures exit == Disconnected ==>
      done > 0 && (rounds[done - 1].ContextDone? || (rounds[done - 1].Received? && !rounds[done - 1].handedOn))
    ensures forall i :: 0 <= i < done && (i < done - 1 || exit == StillRelaying) ==>
      rounds[i].Received? && rounds[i].handedOn
  {
    tracked, lost, exit, done := [], None, StillRelaying, 0;
    while done < |rounds|
      invariant done <= |rounds| && TakenIn(rounds[..done]) == tracked && lost.None? && exit == StillRelaying
      invariant |tracked| == done && forall i :: 0 <= i < done ==> rounds[i].Received? && tracked[i] == rounds[i].event
      invariant forall i :: 0 <= i < done ==> rounds[i].Received? && rounds[i].handedOn
    {
      assert rounds[..done + 1][..done] == rounds[..done];
      var round := rounds[done];
      done := done + 1;
      match round {
        case ContextDone =>
          exit := Disconnected;
          return;
        case QueueClosed =>
          exit := QueueDrained;
          return;
        case Received(event, handedOn) =>
          if !handedOn {
            lost, exit := Some(event), Disconnected;
            return;
          }
          tracked := tracked + [event];
      }
    }
  }
}
