/** The server end of an event stream: events are collected in batches and written as one piece. */
module SseTunnel {
  import opened Wrappers
  import opened Protocol
  import opened Sse
  import opened SseRoundTrip

  const EVENT_STATUS_UPDATE: Bytes := "task_status_update"
  const EVENT_ARTIFACT_UPDATE: Bytes := "task_artifact_update"
  const EVENT_TASK: Bytes := "task"
  const EVENT_MESSAGE: Bytes := "message"
  const EVENT_CLOSE: Bytes := "close"

  const DEFAULT_BATCH_SIZE: nat := 5

  /** An event on its way to the client.  The envelope is the text of the JSON-RPC response that
      carries it, and None when marshalling fails.  No result stands for a type the tunnel does
      not know. */
  datatype StreamEvent = StreamEvent(result: Option<Event>, envelope: Option<Bytes>)

  function EventType(e: StreamEvent): Option<Bytes> {
    match e.result
    case Some(StatusEvent(_)) => Some(EVENT_STATUS_UPDATE)
    case Some(ArtifactEvent(_)) => Some(EVENT_ARTIFACT_UPDATE)
    case Some(MessageEvent(_)) => Some(EVENT_MESSAGE)
    case Some(TaskEvent(_)) => Some(EVENT_TASK)
    case None => None
  }

  /** The events whose type the tunnel knows. */
  function Known(es: seq<StreamEvent>): seq<StreamEvent> {
    if es == [] then [] else (if es[0].result.Some? then [es[0]] else []) + Known(es[1..])
  }

  lemma {:induction false} KnownConcat(a: seq<StreamEvent>, b: seq<StreamEvent>)
    ensures Known(a + b) == Known(a) + Known(b)
    decreases |a|
  {
    if a == [] {
      assert a + b == b;
    } else {
      assert (a + b)[1..] == a[1..] + b;
      KnownConcat(a[1..], b);
    }
  }

  lemma {:induction false} KnownAreKnown(es: seq<StreamEvent>)
    ensures forall i :: 0 <= i < |Known(es)| ==> Known(es)[i].result.Some? && Known(es)[i] in es
    decreases |es|
  {
    if es != [] {
      KnownAreKnown(es[1..]);
    }
  }

  predicate Marshals(es: seq<StreamEvent>) {
    forall i :: 0 <= i < |es| ==> es[i].result.Some? && es[i].envelope.Some?
  }

  function FrameOf(e: StreamEvent): Frame
    requires e.result.Some? && e.envelope.Some?
  {
    Frame(EventType(e).value, e.envelope.value)
  }

  /** The frames of known events that marshal. */
  function Frames(es: seq<StreamEvent>): (fs: seq<Frame>)
    requires Marshals(es)
    ensures |fs| == |es|
  {
    seq(|es|, i requires 0 <= i < |es| => FrameOf(es[i]))
  }

  /** A write gets through, or breaks off and may leave some bytes. */
  datatype WriteOutcome = Written | Broken(left: nat)

  function Arriving(bytes: Bytes, outcome: WriteOutcome): (r: Bytes)
    ensures r <= bytes
  {
    if outcome.Written? || outcome.left >= |bytes| then bytes else bytes[..outcome.left]
  }

  class ResponseWriter {
    var written: Bytes
    var flushes: nat

    constructor ()
      ensures written == [] && flushes == 0
    {
      written, flushes := [], 0;
    }

    method Write(bytes: Bytes, outcome: WriteOutcome)
      modifies this`written
      ensures written == old(written) + Arriving(bytes, outcome)
      ensures outcome == Written ==> written == old(written) + bytes
      ensures forall n: nat :: outcome == Broken(n) ==>
        written == old(written) + if n <= |bytes| then bytes[..n] else bytes
    {
      written := written + Arriving(bytes, outcome);
    }

    method Flush()
      modifies this`flushes
      ensures flushes == old(flushes) + 1
    {
      flushes := flushes + 1;
    }
  }

  /** An element of a batch on its way to the printer. */
  datatype BatchItem = BatchItem(eventType: Bytes, envelope: Option<Bytes>)

  predicate ItemsMarshal(items: seq<BatchItem>) { forall i :: 0 <= i < |items| ==> items[i].envelope.Some? }

  function ItemFrames(items: seq<BatchItem>): seq<Frame>
    requires ItemsMarshal(items)
  {
    seq(|items|, i requires 0 <= i < |items| => Frame(items[i].eventType, items[i].envelope.value))
  }

  lemma OneMoreItem(items: seq<BatchItem>, i: nat)
    requires i < |items| && ItemsMarshal(items[..i]) && items[i].envelope.Some?
    ensures ItemsMarshal(items[..i + 1])
    ensures FormatAll(ItemFrames(items[..i + 1]))
         == FormatAll(ItemFrames(items[..i])) + FormatEvent(Frame(items[i].eventType, items[i].envelope.value))
  {
    var frame := Frame(items[i].eventType, items[i].envelope.value);
    assert items[..i + 1][..i] == items[..i];
    assert ItemFrames(items[..i + 1]) == ItemFrames(items[..i]) + [frame];
    FormatConcat(ItemFrames(items[..i]), [frame]);
    assert FormatAll([frame]) == FormatEvent(frame) by { assert [frame][1..] == []; }
  }

  /** All frames in one write; an item that does not marshal spoils the batch before it. */
  method FormatJSONRPCEventBatch(w: ResponseWriter, items: seq<BatchItem>, outcome: WriteOutcome) returns (ok: bool)
    modifies w`written
    ensures ok <==> items == [] || (ItemsMarshal(items) && outcome.Written?)
    ensures w.written
         == old(w.written) + if ItemsMarshal(items) then Arriving(FormatAll(ItemFrames(items)), outcome) else []
  {
    if items == [] {
      assert w.written + [] == w.written;
      return true;
    }
    var buf: Bytes := [];
    for i := 0 to |items|
      invariant w.written == old(w.written)
      invariant ItemsMarshal(items[..i]) && buf == FormatAll(ItemFrames(items[..i]))
    {
      if items[i].envelope.None? {
        assert w.written + [] == w.written;
        return false;
      }
      OneMoreItem(items, i);
      buf := buf + FormatEvent(Frame(items[i].eventType, items[i].envelope.value));
    }
    assert items[..|items|] == items;
    w.Write(buf, outcome);
    ok := outcome.Written?;
  }

  /** One round of the select: what was chosen, and how a write in this round ends. */
  datatype Round =
    | Received(event: StreamEvent, write: WriteOutcome)
    | InputClosed(write: WriteOutcome)
    | Tick(write: WriteOutcome)
    | ClientClosed

  datatype Exit = StillRunning | Finished | FinishedWithError | Failed | ClientGone

  /** The events received in a sequence of rounds. */
  function ReceivedIn(rounds: seq<Round>): seq<StreamEvent> {
    if rounds == [] then []
    else
      var r := rounds[|rounds| - 1];
      ReceivedIn(rounds[..|rounds| - 1]) + if r.Received? then [r.event] else []
  }

  function ItemsOf(es: seq<StreamEvent>): (items: seq<BatchItem>)
    requires forall i :: 0 <= i < |es| ==> es[i].result.Some?
  {
    seq(|es|, i requires 0 <= i < |es| => BatchItem(EventType(es[i]).value, es[i].envelope))
  }

  lemma ItemsAreFrames(es: seq<StreamEvent>)
    requires forall i :: 0 <= i < |es| ==> es[i].result.Some?
    ensures ItemsMarshal(ItemsOf(es)) <==> Marshals(es)
    ensures Marshals(es) ==> ItemFrames(ItemsOf(es)) == Frames(es)
  {
    assert forall i :: 0 <= i < |es| ==> ItemsOf(es)[i].envelope == es[i].envelope;
  }

  /** Each type has its name. */
  predicate NamedFor(name: Bytes, event: Event) {
    && (name == "task_status_update" <==> event.StatusEvent?)
    && (name == "task_artifact_update" <==> event.ArtifactEvent?)
    && (name == "task" <==> event.TaskEvent?)
    && (name == "message" <==> event.MessageEvent?)
  }

  lemma EventsAreNamed(e: StreamEvent)
    requires e.result.Some?
    ensures EventType(e).Some? && NamedFor(EventType(e).value, e.result.value)
    ensures |EventType(e).value| <= 20
  {
    assert "task"[0] == 't' && "message"[0] == 'm';
    assert "task_status_update"[5] == 's' && "task_artifact_update"[5] == 'a';
  }

  /** A reader of the written batches gets one event for each, with its text, under the name of its
      type. */
  lemma ReadersGetNames(es: seq<StreamEvent>, limit: nat)
    requires Marshals(es) && limit > 27
    requires forall i :: 0 <= i < |es| ==>
      NoLF(es[i].envelope.value) && NoFinalCR(es[i].envelope.value) && |es[i].envelope.value| + 6 < limit
    ensures var read := Events(FormatAll(Frames(es)), limit);
      |read| == |es| && forall i :: 0 <= i < |es| ==>
        read[i].data == es[i].envelope.value && NamedFor(read[i].eventType, es[i].result.value)
  {
    forall i | 0 <= i < |es|
      ensures Printable(Frames(es)[i], limit) && NamedFor(Frames(es)[i].eventType, es[i].result.value)
    {
      EventsAreNamed(es[i]);
      NamesAreTrimmed(es[i]);
    }
    RoundTrip(Frames(es), limit);
  }

  /** The names the tunnel gives to events survive trimming, and none of them closes a stream. */
  lemma NamesAreTrimmed(e: StreamEvent)
    requires e.result.Some?
    ensures var t := EventType(e).value; NoLF(t) && Trimmed(t) && t != EVENT_CLOSE
  {
    var t := EventType(e).value;
    assert t[0] == 't' || t[0] == 'm';
    assert t[|t| - 1] == 'e' || t[|t| - 1] == 'k';
    assert EVENT_CLOSE[0] == 'c';
  }

  /** The loop that turns a batch into items and skips unknown types. */
  method CollectItems(batch: seq<StreamEvent>) returns (items: seq<BatchItem>)
    ensures forall i :: 0 <= i < |Known(batch)| ==> Known(batch)[i].result.Some?
    ensures items == ItemsOf(Known(batch))
    ensures forall i :: 0 <= i < |items| ==>
      items[i].envelope == Known(batch)[i].envelope && NamedFor(items[i].eventType, Known(batch)[i].result.value)
  {
    items := [];
    KnownAreKnown(batch);
    for i := 0 to |batch|
      invariant forall k :: 0 <= k < |Known(batch[..i])| ==> Known(batch[..i])[k].result.Some?
      invariant items == ItemsOf(Known(batch[..i]))
    {
      KnownConcat(batch[..i], [batch[i]]);
      assert batch[..i + 1] == batch[..i] + [batch[i]] && [batch[i]][1..] == [];
      var eventType := EventType(batch[i]);
      if eventType.Some? {
        items := items + [BatchItem(eventType.value, batch[i].envelope)];
      }
    }
    assert batch[..|batch|] == batch;
    forall i | 0 <= i < |items| ensures NamedFor(items[i].eventType, Known(batch)[i].result.value) {
      EventsAreNamed(Known(batch)[i]);
    }
  }

  lemma FramesConcat(a: seq<StreamEvent>, b: seq<StreamEvent>)
    requires Marshals(a) && Marshals(b)
    ensures Marshals(a + b) && Frames(a + b) == Frames(a) + Frames(b)
    ensures FormatAll(Frames(a + b)) == FormatAll(Frames(a)) + FormatAll(Frames(b))
  {
    assert Frames(a + b) == Frames(a) + Frames(b);
    FormatConcat(Frames(a), Frames(b));
  }

  /** The bytes of `sent`, and of a batch that was being written a beginning. */
  ghost predicate Torn(sent: seq<StreamEvent>, pending: seq<StreamEvent>, written: Bytes)
    requires Marshals(sent)
  {
    && Marshals(sent + pending)
    && FormatAll(Frames(sent)) <= written <= FormatAll(Frames(sent + pending))
  }

  lemma TornBy(sent: seq<StreamEvent>, pending: seq<StreamEvent>, outcome: WriteOutcome)
    requires Marshals(sent) && Marshals(pending)
    ensures Torn(sent, pending, FormatAll(Frames(sent)) + Arriving(FormatAll(Frames(pending)), outcome))
  {
    FramesConcat(sent, pending);
  }

  class Tunnel {
    const w: ResponseWriter
    const batchSize: nat
    var batch: seq<StreamEvent>
    ghost var received: seq<StreamEvent>
    ghost var sent: seq<StreamEvent>   // the known events written so far
    ghost var broken: bool             // a write has broken off

    constructor (w: ResponseWriter, batchSize: nat := DEFAULT_BATCH_SIZE)
      requires batchSize > 0 && w.written == []
      ensures this.w == w && this.batchSize == batchSize && batch == [] && received == [] && sent == [] && !broken
      ensures Valid()
    {
      this.w, this.batchSize, this.batch, this.received, this.sent := w, batchSize, [], [], [];
      this.broken := false;
    }

    /** On the wire are the known events of the flushed batches, in order; with those in the
        batch they are all known events received.  A write that broke off has left a beginning
        of the batch. */
    ghost predicate Valid()
      reads this, w
    {
      && batchSize > 0
      && Marshals(sent) && sent + Known(batch) == Known(received)
      && (if broken then Torn(sent, Known(batch), w.written) else w.written == FormatAll(Frames(sent)))
    }

    /** Prints the known events of the batch in one write. */
    method PrintBatch(outcome: WriteOutcome) returns (ok: bool)
      modifies w`written
      ensures ok <==> Known(batch) == [] || (Marshals(Known(batch)) && outcome.Written?)
      ensures ok ==> Marshals(Known(batch)) && w.written == old(w.written) + FormatAll(Frames(Known(batch)))
      ensures !ok && Marshals(Known(batch)) ==>
        w.written == old(w.written) + Arriving(FormatAll(Frames(Known(batch))), outcome)
      ensures !Marshals(Known(batch)) ==> w.written == old(w.written)
    {
      var items := CollectItems(batch);
      ItemsAreFrames(Known(batch));
      ok := FormatJSONRPCEventBatch(w, items, outcome);
    }

    method FlushBatch(outcome: WriteOutcome) returns (ok: bool)
      requires Valid() && !broken
      modifies this`batch, this`sent, this`broken, w
      ensures Valid() && (ok ==> !broken)
      ensures ok <==> Known(old(batch)) == [] || (Marshals(Known(old(batch))) && outcome.Written?)
      ensures ok ==> batch == [] && sent == old(sent) + Known(old(batch))
      ensures !ok ==> batch == old(batch) && sent == old(sent)
    {
      if batch == [] {
        assert sent + [] == sent;
        return true;
      }
      ok := PrintBatch(outcome);
      if !ok {
        broken := Marshals(Known(batch));
        if broken {
          TornBy(sent, Known(batch), outcome);
        }
        return;
      }
      FramesConcat(sent, Known(batch));
      sent, batch := sent + Known(batch), [];
      assert sent + [] == sent;
      w.Flush();
    }

    /** One received event joins the batch, which is flushed when it is full. */
    method Accept(event: StreamEvent, outcome: WriteOutcome) returns (ok: bool)
      requires Valid() && !broken && |batch| < batchSize
      modifies this, w
      ensures Valid() && received == old(received) + [event]
      ensures ok ==> |batch| < batchSize && !broken
      ensures !ok ==> !Marshals(Known(batch)) || !outcome.Written?
    {
      KnownConcat(batch, [event]);
      KnownConcat(received, [event]);
      assert sent + (Known(batch) + Known([event])) == (sent + Known(batch)) + Known([event]);
      batch := batch + [event];
      received := received + [event];
      ok := true;
      if |batch| >= batchSize {
        ok := FlushBatch(outcome);
      }
    }

    /** One outcome of the select. */
    method Serve(round: Round) returns (exit: Exit)
      requires Valid() && !broken && |batch| < batchSize
      modifies this, w
      ensures Valid()
      ensures received == old(received) + if round.Received? then [round.event] else []
      ensures exit == StillRunning ==> |batch| < batchSize
      ensures broken ==> exit in {FinishedWithError, Failed}
      ensures exit == Finished ==> round.InputClosed? && batch == [] && sent == Known(received)
      ensures exit == ClientGone <==> round.ClientClosed?
      ensures exit in {FinishedWithError, Failed} ==>
        !round.ClientClosed? && (!Marshals(Known(batch)) || !round.write.Written?)
    {
      match round {
        case Received(event, outcome) =>
          var ok := Accept(event, outcome);
          exit := if ok then StillRunning else Failed;
        case InputClosed(outcome) =>
          var ok := true;
          if |batch| > 0 {
            ok := FlushBatch(outcome);
          }
          assert sent + [] == sent && received + [] == received;
          exit := if ok then Finished else FinishedWithError;
        case Tick(outcome) =>
          exit := StillRunning;
          assert received + [] == received;
          if |batch| > 0 {
            var ok := FlushBatch(outcome);
            exit := if ok then StillRunning else Failed;
          }
        case ClientClosed =>
          assert received + [] == received;
          exit := ClientGone;
      }
    }

    /** The event loop, for any sequence of rounds.  `Valid` and a batch below its size hold at
        every loop head; how it ends says what is on the wire. */
    method Start(rounds: seq<Round>) returns (exit: Exit, done: nat)
      requires Valid() && !broken && batch == [] && received == []
      modifies this, w
      ensures Valid() && done <= |rounds| && received == ReceivedIn(rounds[..done])
      ensures broken ==> exit in {FinishedWithError, Failed}
      ensures exit == StillRunning ==> done == |rounds| && |batch| < batchSize
      ensures exit != StillRunning ==> done > 0
      ensures exit == Finished ==> rounds[done - 1].InputClosed? && batch == [] && sent == Known(received)
      ensures exit == ClientGone ==> rounds[done - 1].ClientClosed?
      ensures exit in {FinishedWithError, Failed} ==>
        !rounds[done - 1].ClientClosed? && (!Marshals(Known(batch)) || !rounds[done - 1].write.Written?)
    {
      exit, done := StillRunning, 0;
      while done < |rounds| && exit == StillRunning
        invariant Valid() && done <= |rounds| && received == ReceivedIn(rounds[..done])
        invariant exit == StillRunning ==> |batch| < batchSize
        invariant broken ==> exit in {FinishedWithError, Failed}
        invariant exit != StillRunning ==> done > 0
        invariant exit == Finished ==> rounds[done - 1].InputClosed? && batch == [] && sent == Known(received)
        invariant exit == ClientGone ==> rounds[done - 1].ClientClosed?
        invariant exit in {FinishedWithError, Failed} ==>
          !rounds[done - 1].ClientClosed? && (!Marshals(Known(batch)) || !rounds[done - 1].write.Written?)
      {
        assert rounds[..done + 1][..done] == rounds[..done];
        exit := Serve(rounds[done]);
        done := done + 1;
      }
    }
  }

  function ReceivedAt(rounds: seq<Round>): seq<nat> {
    if rounds == [] then []
    else
      var n := |rounds| - 1;
      ReceivedAt(rounds[..n]) + if rounds[n].Received? then [n] else []
  }

  ghost predicate EventOf(rounds: seq<Round>, i: nat, e: StreamEvent) {
    i < |rounds| && rounds[i].Received? && rounds[i].event == e
  }

  lemma {:induction false} ReceivedRounds(rounds: seq<Round>)
    ensures var at := ReceivedAt(rounds);
      && (forall i: nat :: i in at <==> i < |rounds| && rounds[i].Received?)
      && (forall k :: 0 <= k < |at| ==> at[k] < |rounds|)
      && (forall j, k :: 0 <= j < k < |at| ==> at[j] < at[k])
    decreases |rounds|
  {
    if rounds != [] {
      ReceivedRounds(rounds[..|rounds| - 1]);
    }
  }

  /** What a tunnel has received are the events of exactly the rounds that received one, in order. */
  lemma {:induction false} ReceivedInOrder(rounds: seq<Round>)
    ensures var at := ReceivedAt(rounds);
      |at| == |ReceivedIn(rounds)| && forall k :: 0 <= k < |at| ==> EventOf(rounds, at[k], ReceivedIn(rounds)[k])
    ensures forall i: nat :: i in ReceivedAt(rounds) <==> i < |rounds| && rounds[i].Received?
    ensures forall j, k :: 0 <= j < k < |ReceivedAt(rounds)| ==> ReceivedAt(rounds)[j] < ReceivedAt(rounds)[k]
    decreases |rounds|
  {
    ReceivedRounds(rounds);
    if rounds != [] {
      var front, at := rounds[..|rounds| - 1], ReceivedAt(rounds[..|rounds| - 1]);
      ReceivedInOrder(front);
      forall k | 0 <= k < |at| ensures EventOf(rounds, at[k], ReceivedIn(rounds)[k]) {
        assert EventOf(front, at[k], ReceivedIn(front)[k]);
      }
    }
  }
}
