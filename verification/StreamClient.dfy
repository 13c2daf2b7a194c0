/** The client end of an event stream: read, decode and hand on, until an error or a cancel. */
module StreamClient {
  import opened Wrappers
  import opened Sse
  import opened SseTunnel

  /** What the client makes of the data of an event: unwrap the JSON-RPC response and decode its
      result.  None stands for a response that carries an error, or a result that does not decode. */
  type Decoder<!V> = Bytes -> Option<V>

  /** What one event adds to the caller's channel. */
  function DecodeFrame<V>(f: Frame, decode: Decoder<V>): seq<V> {
    if f.data == [] || f.eventType == EVENT_CLOSE || decode(f.data).None? then [] else [decode(f.data).value]
  }

  /** Everything an uncancelled client hands on: a close event ends the stream. */
  function Deliveries<V>(fs: seq<Frame>, decode: Decoder<V>): seq<V>
    decreases |fs|
  {
    if fs == [] || (fs[0].data != [] && fs[0].eventType == EVENT_CLOSE) then []
    else DecodeFrame(fs[0], decode) + Deliveries(fs[1..], decode)
  }

  ghost predicate Increasing(at: seq<nat>) { forall j, k :: 0 <= j < k < |at| ==> at[j] < at[k] }

  predicate Closing(f: Frame) { f.data != [] && f.eventType == "close" }

  /** The event at `i` has data that decodes, and no close event comes before it or is it. */
  predicate HandedOn<V>(fs: seq<Frame>, i: nat, decode: Decoder<V>) {
    && i < |fs| && fs[i].data != [] && decode(fs[i].data).Some?
    && forall k :: 0 <= k <= i ==> !Closing(fs[k])
  }

  lemma LaterHandedOn<V>(fs: seq<Frame>, i: nat, decode: Decoder<V>)
    requires fs != [] && !Closing(fs[0]) && i > 0
    ensures HandedOn(fs, i, decode) <==> HandedOn(fs[1..], i - 1, decode)
  {
    if HandedOn(fs[1..], i - 1, decode) {
      forall k | 0 <= k <= i ensures !Closing(fs[k]) {
        assert k > 0 ==> fs[k] == fs[1..][k - 1];
      }
    }
    if HandedOn(fs, i, decode) {
      assert forall k :: 0 <= k <= i - 1 ==> fs[1..][k] == fs[k + 1];
    }
  }

  /** The positions of the events handed on. */
  function PositionsFrom<V>(fs: seq<Frame>, decode: Decoder<V>, from: nat): seq<nat>
    decreases |fs|
  {
    if fs == [] || Closing(fs[0]) then []
    else
      (if fs[0].data != [] && decode(fs[0].data).Some? then [from] else []) + PositionsFrom(fs[1..], decode, from + 1)
  }

  lemma {:induction false} PositionsAscend<V>(fs: seq<Frame>, decode: Decoder<V>, from: nat)
    ensures var at := PositionsFrom(fs, decode, from);
      Increasing(at) && forall k :: 0 <= k < |at| ==> from <= at[k] < from + |fs|
    decreases |fs|
  {
    if fs != [] {
      PositionsAscend(fs[1..], decode, from + 1);
    }
  }

  lemma {:induction false} PositionsAreExact<V>(fs: seq<Frame>, decode: Decoder<V>, from: nat, i: nat)
    ensures i in PositionsFrom(fs, decode, from) <==> i >= from && HandedOn(fs, i - from, decode)
    decreases |fs|
  {
    if fs != [] && !Closing(fs[0]) {
      PositionsAscend(fs[1..], decode, from + 1);
      PositionsAreExact(fs[1..], decode, from + 1, i);
      if i > from {
        LaterHandedOn(fs, i - from, decode);
      }
    }
  }

  /** The result of the event at position `i` of a list that starts at `from`. */
  ghost predicate ResultOf<V>(fs: seq<Frame>, from: nat, i: nat, decode: Decoder<V>, v: V) {
    from <= i < from + |fs| && decode(fs[i - from].data) == Some(v)
  }

  lemma {:induction false} DeliveriesAreResults<V>(fs: seq<Frame>, decode: Decoder<V>, from: nat)
    ensures var at, all := PositionsFrom(fs, decode, from), Deliveries(fs, decode);
      |at| == |all| && forall k :: 0 <= k < |at| ==> ResultOf(fs, from, at[k], decode, all[k])
    decreases |fs|
  {
    if fs != [] && !Closing(fs[0]) {
      var at, all := PositionsFrom(fs[1..], decode, from + 1), Deliveries(fs[1..], decode);
      DeliveriesAreResults(fs[1..], decode, from + 1);
      forall k | 0 <= k < |at| ensures ResultOf(fs, from, at[k], decode, all[k]) {
        assert ResultOf(fs[1..], from + 1, at[k], decode, all[k]);
      }
    }
  }

  /** The results are those of exactly the events with data that decodes and that no close event
      precedes, in their order, whatever the events are called. */
  ghost predicate ResultsInOrder<V>(results: seq<V>, at: seq<nat>, fs: seq<Frame>, decode: Decoder<V>) {
    && Increasing(at) && (forall i: nat :: i in at <==> HandedOn(fs, i, decode))
    && |results| <= |at| && forall k :: 0 <= k < |results| ==> ResultOf(fs, 0, at[k], decode, results[k])
  }

  lemma DeliveriesInOrder<V>(fs: seq<Frame>, decode: Decoder<V>)
    ensures ResultsInOrder(Deliveries(fs, decode), PositionsFrom(fs, decode, 0), fs, decode)
    ensures |PositionsFrom(fs, decode, 0)| == |Deliveries(fs, decode)|
  {
    PositionsAscend(fs, decode, 0);
    DeliveriesAreResults(fs, decode, 0);
    forall i: nat ensures i in PositionsFrom(fs, decode, 0) <==> HandedOn(fs, i, decode) {
      PositionsAreExact(fs, decode, 0, i);
    }
  }

  lemma DeliverFirst<V>(f: Frame, fs: seq<Frame>, decode: Decoder<V>)
    ensures Deliveries([f] + fs, decode)
         == if f.data != [] && f.eventType == EVENT_CLOSE then [] else DecodeFrame(f, decode) + Deliveries(fs, decode)
  {
    assert ([f] + fs)[1..] == fs;
  }

  /** One call of the reader, in terms of the events left. */
  method NextFrame(reader: EventReader) returns (frame: Option<Frame>)
    modifies reader
    ensures frame.None? <==> Events(old(reader.unread), reader.limit) == []
    ensures frame.Some? ==>
      && |reader.unread| < |old(reader.unread)|
      && Events(old(reader.unread), reader.limit) == [frame.value] + Events(reader.unread, reader.limit)
  {
    var f, err := reader.ReadEvent();
    frame := if err.Some? then None else f;
  }

  /** What a round of the loop does with the event it has read. */
  datatype Round<+V> = Skip | Stop | HandOn(value: V)

  method Process<V>(frame: Frame, decode: Decoder<V>) returns (round: Round<V>)
    ensures round == Stop <==> frame.data != [] && frame.eventType == "close"
    ensures forall v :: round == HandOn(v) <==>
      frame.data != [] && frame.eventType != "close" && decode(frame.data) == Some(v)
    ensures DecodeFrame(frame, decode) == if round.HandOn? then [round.value] else []
  {
    if frame.data == [] {
      return Skip;
    }
    if frame.eventType == EVENT_CLOSE {
      return Stop;
    }
    var event := decode(frame.data);
    return if event.None? then Skip else HandOn(event.value);
  }

  /** The rest of a list after its beginning and one more element. */
  lemma RestAfter<V>(all: seq<V>, delivered: seq<V>, v: V, rest: seq<V>)
    requires delivered <= all && all[|delivered|..] == [v] + rest
    ensures delivered + [v] <= all && all[|delivered + [v]|..] == rest
  {
    assert all[|delivered|] == all[|delivered|..][0] == v;
    assert all[|delivered| + 1..] == all[|delivered|..][1..] == rest;
  }

  /** The processing loop.  `cancelled(i)` and `abandoned(i)` say whether the context is seen as
      done at the head of round i, and at its hand-over to the caller's channel. */
  method ProcessSSEStream<V>(body: Bytes, limit: nat, decode: Decoder<V>,
                             cancelled: nat -> bool, abandoned: nat -> bool)
    returns (delivered: seq<V>)
    ensures delivered <= Deliveries(Events(body, limit), decode)
    ensures (forall i :: !cancelled(i) && !abandoned(i)) ==> delivered == Deliveries(Events(body, limit), decode)
    ensures ResultsInOrder(delivered, PositionsFrom(Events(body, limit), decode, 0), Events(body, limit), decode)
    ensures (forall i :: !cancelled(i) && !abandoned(i)) ==>
      |delivered| == |PositionsFrom(Events(body, limit), decode, 0)|
  {
    DeliveriesInOrder(Events(body, limit), decode);
    var reader := new EventReader(body, limit);
    ghost var all := Deliveries(Events(body, limit), decode);
    delivered := [];
    var round := 0;
    while !cancelled(round)
      invariant reader.limit == limit && fresh(reader)
      invariant delivered <= all && Deliveries(Events(reader.unread, limit), decode) == all[|delivered|..]
      decreases |reader.unread|
    {
      var frame := NextFrame(reader);
      if frame.None? {
        return;
      }
      DeliverFirst(frame.value, Events(reader.unread, limit), decode);
      var next := Process(frame.value, decode);
      match next {
        case Stop => return;
        case Skip =>
        case HandOn(value) =>
          if abandoned(round) {
            return;
          }
          RestAfter(all, delivered, value, Deliveries(Events(reader.unread, limit), decode));
          delivered := delivered + [value];
      }
      round := round + 1;
    }
  }
}
