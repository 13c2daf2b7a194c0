/**
 The way of an event from a subscriber's queue to the caller of the client, as a step machine:
 queue, relay, batching tunnel, bytes on the wire, parser, decoder, channel.  Every stage moves
 on its own; the request can be cancelled, a write can fail part of the way, and the connection
 can be cut between any two bytes.
 */
module Pipeline {
  import opened Wrappers
  import opened Sse
  import opened SseRoundTrip
  import opened SseTunnel
  import opened StreamClient

  /** The goroutine between the queue and the tunnel; without metrics there is none.  Drained and
      abandoned, it has closed the channel the tunnel reads. */
  datatype Relay = Absent | Receiving | Carrying(event: StreamEvent) | Drained | Abandoned(kept: Option<StreamEvent>)

  datatype TunnelState = Running | Finished | Failed | Gone

  datatype Phase<+V> = Reading | Handing(value: V) | AtEnd | Stopped(unsent: Option<V>)

  /** `accepted`, `sent` and `attempted` are history: the events `Send` enqueued, the known events
      of the successful writes, and those and the ones of a write that failed. */
  datatype Server = Server(
    queue: seq<StreamEvent>, queueClosed: bool, accepted: seq<StreamEvent>, requestDone: bool,
    relay: Relay, batch: seq<StreamEvent>, batchSize: nat, tunnel: TunnelState,
    sent: seq<StreamEvent>, attempted: seq<StreamEvent>, written: Bytes)

  /** `arrived` and `consumed` count the bytes that have reached the client and those it has
      parsed; `processed` counts the events it has read. */
  datatype Client<+V> = Client(
    arrived: nat, cut: bool, phase: Phase<V>, consumed: nat, processed: nat, delivered: seq<V>)

  datatype State<+V> = State(server: Server, client: Client<V>)

  datatype ServerAction =
    | Accept(event: StreamEvent)          // a Send enqueues
    | CloseQueue
    | CancelRequest
    | RelayReceive | RelayHandOver | RelayDrained | RelayAbandons
    | TunnelReceive                       // straight from the queue
    | Flush | FlushFails(bytes: nat)      // a failing write may leave some bytes
    | TunnelEnds | TunnelAbandons

  datatype ClientAction = Arrive(bytes: nat) | Cut | Reads | Ends | Stops | Hands

  datatype Action = AtServer(server: ServerAction) | AtClient(client: ClientAction)

  function InRelay(r: Relay): seq<StreamEvent> {
    match r
    case Carrying(e) => [e]
    case Abandoned(Some(e)) => [e]
    case _ => []
  }

  function InHand<V>(p: Phase<V>): seq<V> {
    match p
    case Handing(v) => [v]
    case Stopped(Some(v)) => [v]
    case _ => []
  }

  /** The tunnel's input is closed and empty. */
  predicate InputOver(s: Server) {
    (s.relay.Absent? && s.queueClosed && s.queue == []) || s.relay.Drained? || s.relay.Abandoned?
  }

  predicate ServerEnabled(s: Server, a: ServerAction) {
    match a
    case Accept(_) => !s.queueClosed
    case CloseQueue => !s.queueClosed
    case CancelRequest => true
    case RelayReceive => s.relay.Receiving? && s.queue != []
    case RelayHandOver => s.relay.Carrying? && s.tunnel.Running? && |s.batch| < s.batchSize
    case RelayDrained => s.relay.Receiving? && s.queue == [] && s.queueClosed
    case RelayAbandons => (s.relay.Receiving? || s.relay.Carrying?) && s.requestDone
    case TunnelReceive => s.relay.Absent? && s.tunnel.Running? && s.queue != [] && |s.batch| < s.batchSize
    case Flush => s.tunnel.Running? && s.batch != [] && Marshals(Known(s.batch))
    case FlushFails(n) =>
      && s.tunnel.Running? && s.batch != []
      && (if Marshals(Known(s.batch)) then n <= |FormatAll(Frames(Known(s.batch)))| else n == 0)
    case TunnelEnds => s.tunnel.Running? && s.batch == [] && InputOver(s)
    case TunnelAbandons => s.tunnel.Running? && s.requestDone
  }

  function ServerApply(s: Server, a: ServerAction): Server
    requires ServerEnabled(s, a)
  {
    match a
    case Accept(e) => s.(queue := s.queue + [e], accepted := s.accepted + [e])
    case CloseQueue => s.(queueClosed := true)
    case CancelRequest => s.(requestDone := true)
    case RelayReceive => s.(queue := s.queue[1..], relay := Carrying(s.queue[0]))
    case RelayHandOver => s.(relay := Receiving, batch := s.batch + [s.relay.event])
    case RelayDrained => s.(relay := Drained)
    case RelayAbandons => s.(relay := Abandoned(if s.relay.Carrying? then Some(s.relay.event) else None))
    case TunnelReceive => s.(queue := s.queue[1..], batch := s.batch + [s.queue[0]])
    case Flush =>
      s.(batch := [], sent := s.sent + Known(s.batch), attempted := s.sent + Known(s.batch),
         written := s.written + FormatAll(Frames(Known(s.batch))))
    case FlushFails(n) =>
      if Marshals(Known(s.batch)) then
        s.(tunnel := TunnelState.Failed, attempted := s.sent + Known(s.batch),
           written := s.written + FormatAll(Frames(Known(s.batch)))[..n])
      else s.(tunnel := TunnelState.Failed)
    case TunnelEnds => s.(tunnel := TunnelState.Finished)
    case TunnelAbandons => s.(tunnel := Gone)
  }

  /** The bytes that have arrived and are not parsed yet. */
  function Unread<V>(c: Client<V>, written: Bytes): Bytes {
    if c.consumed <= c.arrived <= |written| then written[c.consumed..c.arrived] else []
  }

  predicate ClientEnabled<V>(c: Client<V>, s: Server, a: ClientAction, limit: nat) {
    match a
    case Arrive(n) => !c.cut && c.arrived + n <= |s.written|
    case Cut => true
    case Reads => c.phase.Reading? && NextEvent(Unread(c, s.written), limit).Event?
    case Ends =>
      && c.phase.Reading? && NextEvent(Unread(c, s.written), limit).Eof?
      && (c.cut || (!s.tunnel.Running? && c.arrived == |s.written|))
    case Stops => c.phase.Reading? || c.phase.Handing?
    case Hands => c.phase.Handing?
  }

  /** After an event: a close event ends the stream, what does not decode is skipped. */
  function PhaseAfter<V>(f: Frame, decode: Decoder<V>): Phase<V> {
    if f.data != [] && f.eventType == EVENT_CLOSE then Stopped(None)
    else if DecodeFrame(f, decode) == [] then Reading
    else Handing(DecodeFrame(f, decode)[0])
  }

  function ClientApply<V>(c: Client<V>, s: Server, a: ClientAction, limit: nat, decode: Decoder<V>): Client<V>
    requires ClientEnabled(c, s, a, limit)
  {
    match a
    case Arrive(n) => c.(arrived := c.arrived + n)
    case Cut => c.(cut := true)
    case Reads =>
      var r := NextEvent(Unread(c, s.written), limit);
      c.(consumed := if |r.rest| <= c.arrived then c.arrived - |r.rest| else 0,
         processed := c.processed + 1, phase := PhaseAfter(r.frame, decode))
    case Ends => c.(phase := AtEnd)
    case Stops => c.(phase := Stopped(if c.phase.Handing? then Some(c.phase.value) else None))
    case Hands => c.(phase := Reading, delivered := c.delivered + [c.phase.value])
  }

  predicate Enabled<V>(s: State<V>, a: Action, limit: nat) {
    match a
    case AtServer(sa) => ServerEnabled(s.server, sa)
    case AtClient(ca) => ClientEnabled(s.client, s.server, ca, limit)
  }

  function Apply<V>(s: State<V>, a: Action, limit: nat, decode: Decoder<V>): State<V>
    requires Enabled(s, a, limit)
  {
    match a
    case AtServer(sa) => s.(server := ServerApply(s.server, sa))
    case AtClient(ca) => s.(client := ClientApply(s.client, s.server, ca, limit, decode))
  }

  /** Payloads are JSON text: no line feed, no carriage return at the end. */
  predicate CleanEvent(e: StreamEvent) {
    e.envelope.Some? ==> NoLF(e.envelope.value) && NoFinalCR(e.envelope.value)
  }

  predicate AcceptsClean(a: Action) {
    a.AtServer? && a.server.Accept? ==> CleanEvent(a.server.event)
  }

  ghost predicate Initial<V>(s: State<V>) {
    && s.server.queue == [] && !s.server.queueClosed && s.server.accepted == [] && !s.server.requestDone
    && (s.server.relay.Absent? || s.server.relay.Receiving?)
    && s.server.batch == [] && s.server.batchSize > 0 && s.server.tunnel.Running?
    && s.server.sent == [] && s.server.attempted == [] && s.server.written == []
    && s.client == Client(0, false, Reading, 0, 0, [])
  }

  ghost predicate Legal<V>(s: State<V>, acts: seq<Action>, limit: nat, decode: Decoder<V>)
    decreases |acts|
  {
    acts == [] ||
    (&& Enabled(s, acts[0], limit) && AcceptsClean(acts[0])
     && Legal(Apply(s, acts[0], limit, decode), acts[1..], limit, decode))
  }

  ghost function Run<V>(s: State<V>, acts: seq<Action>, limit: nat, decode: Decoder<V>): State<V>
    requires Legal(s, acts, limit, decode)
    decreases |acts|
  {
    if acts == [] then s else Run(Apply(s, acts[0], limit, decode), acts[1..], limit, decode)
  }

  // ---------------------------------------------------------------------------------------
  // The server: what was accepted is on the wire or pending, in order

  /** The events on the server that are not written yet, the next one to be written first. */
  function Pending(s: Server): seq<StreamEvent> { s.batch + (InRelay(s.relay) + s.queue) }

  ghost predicate Conserved(s: Server) {
    Known(s.accepted) == s.sent + Known(Pending(s))
  }

  ghost predicate Clean(s: Server) {
    forall i :: 0 <= i < |s.accepted| ==> CleanEvent(s.accepted[i])
  }

  /** The wire: the frames of the written events, and of a failed write at most a beginning. */
  ghost predicate WireOk(s: Server) {
    && Marshals(s.attempted)
    && (forall i :: 0 <= i < |s.attempted| ==> CleanEvent(s.attempted[i]))
    && s.written <= FormatAll(Frames(s.attempted))
    && (if s.tunnel.Failed? then s.attempted == s.sent || s.attempted == s.sent + Known(s.batch)
        else s.attempted == s.sent && s.written == FormatAll(Frames(s.sent)))
  }

  ghost predicate ServerEndsOk(s: Server) {
    && (s.relay.Drained? ==> s.queueClosed && s.queue == [])
    && (s.tunnel.Finished? ==> s.batch == [] && InputOver(s))
    && s.batchSize > 0
  }

  ghost predicate ServerInv(s: Server) { Conserved(s) && Clean(s) && WireOk(s) && ServerEndsOk(s) }

  /** Only two actions touch the pending events as a whole: one joins, or a batch leaves. */
  lemma PendingStep(s: Server, a: ServerAction)
    requires ServerEnabled(s, a)
    ensures match a
      case Accept(e) => Pending(ServerApply(s, a)) == Pending(s) + [e]
      case Flush => s.batch + Pending(ServerApply(s, a)) == Pending(s)
      case _ => Pending(ServerApply(s, a)) == Pending(s)
  {
  }

  lemma ConservedStep(s: Server, a: ServerAction)
    requires Conserved(s) && ServerEnabled(s, a)
    ensures Conserved(ServerApply(s, a))
  {
    var s' := ServerApply(s, a);
    PendingStep(s, a);
    match a
    case Accept(e) =>
      KnownConcat(s.accepted, [e]);
      KnownConcat(Pending(s), [e]);
      assert s.sent + (Known(Pending(s)) + Known([e])) == s.sent + Known(Pending(s)) + Known([e]);
    case Flush =>
      KnownConcat(s.batch, Pending(s'));
      assert s.sent + (Known(s.batch) + Known(Pending(s'))) == s.sent + Known(s.batch) + Known(Pending(s'));
    case _ =>
      assert s'.accepted == s.accepted && s'.sent == s.sent;
  }

  /** What can still be written is as clean as what was accepted. */
  lemma BatchIsClean(s: Server)
    requires Conserved(s) && Clean(s)
    ensures forall i :: 0 <= i < |Known(s.batch)| ==> CleanEvent(Known(s.batch)[i])
  {
    KnownAreKnown(s.accepted);
    KnownConcat(s.batch, InRelay(s.relay) + s.queue);
    forall i | 0 <= i < |Known(s.batch)| ensures CleanEvent(Known(s.batch)[i]) {
      assert Known(s.batch)[i] == Known(s.accepted)[|s.sent| + i];
    }
  }

  lemma WireStep(s: Server, a: ServerAction)
    requires Conserved(s) && Clean(s) && WireOk(s) && ServerEnabled(s, a)
    ensures WireOk(ServerApply(s, a))
  {
    BatchIsClean(s);
    if (a.Flush? || a.FlushFails?) && Marshals(Known(s.batch)) {
      FramesConcat(s.sent, Known(s.batch));
    }
  }

  lemma CleanStep(s: Server, a: ServerAction)
    requires Clean(s) && ServerEnabled(s, a) && (a.Accept? ==> CleanEvent(a.event))
    ensures Clean(ServerApply(s, a))
  {
  }

  lemma ServerEndsStep(s: Server, a: ServerAction)
    requires ServerEndsOk(s) && ServerEnabled(s, a)
    ensures ServerEndsOk(ServerApply(s, a))
  {
  }

  lemma ServerStep(s: Server, a: ServerAction)
    requires ServerInv(s) && ServerEnabled(s, a) && (a.Accept? ==> CleanEvent(a.event))
    ensures ServerInv(ServerApply(s, a))
  {
    ConservedStep(s, a);
    WireStep(s, a);
    CleanStep(s, a);
    ServerEndsStep(s, a);
  }

  // ---------------------------------------------------------------------------------------
  // The client: it has parsed whole frames, decoded each, and delivered what decodes

  /** What the client would hand on for these events: known, marshalled and decodable ones. */
  function DecodeAll<V>(es: seq<StreamEvent>, decode: Decoder<V>): seq<V>
    decreases |es|
  {
    if es == [] then []
    else
      (if es[0].result.Some? && es[0].envelope.Some? then DecodeFrame(FrameOf(es[0]), decode) else [])
      + DecodeAll(es[1..], decode)
  }

  ghost predicate ClientOk<V>(c: Client<V>, s: Server, decode: Decoder<V>) {
    && c.arrived <= |s.written|
    && c.processed <= |s.attempted| && Marshals(s.attempted)
    && c.consumed == |FormatAll(Frames(s.attempted[..c.processed]))| <= c.arrived
    && c.delivered + InHand(c.phase) == DecodeAll(s.attempted[..c.processed], decode)
  }

  ghost predicate ClientEndsOk<V>(c: Client<V>, s: Server) {
    c.phase.AtEnd? && !c.cut ==>
      !s.tunnel.Running? && (!s.tunnel.Failed? ==> c.arrived == |s.written| && c.processed == |s.attempted|)
  }

  ghost predicate Inv<V>(s: State<V>, decode: Decoder<V>) {
    ServerInv(s.server) && ClientOk(s.client, s.server, decode) && ClientEndsOk(s.client, s.server)
  }

  lemma {:induction false} DecodeConcat<V>(a: seq<StreamEvent>, b: seq<StreamEvent>, decode: Decoder<V>)
    ensures DecodeAll(a + b, decode) == DecodeAll(a, decode) + DecodeAll(b, decode)
    decreases |a|
  {
    if a == [] {
      assert a + b == b;
    } else {
      assert (a + b)[1..] == a[1..] + b;
      DecodeConcat(a[1..], b, decode);
    }
  }

  lemma {:induction false} DecodeKnown<V>(es: seq<StreamEvent>, decode: Decoder<V>)
    ensures DecodeAll(Known(es), decode) == DecodeAll(es, decode)
    decreases |es|
  {
    if es != [] {
      DecodeKnown(es[1..], decode);
      DecodeConcat(if es[0].result.Some? then [es[0]] else [], Known(es[1..]), decode);
      assert [es[0]][1..] == [];
    }
  }

  lemma MiddleOfPrefix(bytes: Bytes, front: Bytes, rest: Bytes, n: nat)
    requires bytes <= front + rest && |front| <= n <= |bytes|
    ensures n - |front| <= |rest| && bytes[|front|..n] == rest[..n - |front|]
  {
    assert bytes[|front|..n] == (front + rest)[|front|..n];
  }

  lemma RestIsClean(s: Server, k: nat)
    requires WireOk(s) && k <= |s.attempted|
    ensures Marshals(s.attempted[k..])
    ensures forall i :: 0 <= i < |s.attempted[k..]| ==> CleanEvent(s.attempted[k..][i])
  {
  }

  /** The unread bytes are the beginning of the frames not processed yet. */
  lemma UnreadIsWhatFollows<V>(c: Client<V>, s: Server, decode: Decoder<V>)
    requires WireOk(s) && ClientOk(c, s, decode)
    ensures Marshals(s.attempted[c.processed..])
    ensures var rest := FormatAll(Frames(s.attempted[c.processed..]));
      && c.consumed + |rest| == |FormatAll(Frames(s.attempted))|
      && c.arrived - c.consumed <= |rest| && Unread(c, s.written) == rest[..c.arrived - c.consumed]
  {
    RestIsClean(s, c.processed);
    SplitFrames(s.attempted, c.processed);
    var front, back := s.attempted[..c.processed], s.attempted[c.processed..];
    MiddleOfPrefix(s.written, FormatAll(Frames(front)), FormatAll(Frames(back)), c.arrived);
  }

  lemma SplitFrames(es: seq<StreamEvent>, k: nat)
    requires Marshals(es) && k <= |es|
    ensures Marshals(es[..k]) && Marshals(es[k..])
    ensures FormatAll(Frames(es)) == FormatAll(Frames(es[..k])) + FormatAll(Frames(es[k..]))
  {
    assert es[..k] + es[k..] == es;
    FramesConcat(es[..k], es[k..]);
  }

  lemma FramesAreClean(es: seq<StreamEvent>)
    requires Marshals(es) && forall i :: 0 <= i < |es| ==> CleanEvent(es[i])
    ensures forall i :: 0 <= i < |es| ==> SseRoundTrip.Clean(Frames(es)[i]) && Frames(es)[i].eventType != EVENT_CLOSE
  {
    forall i | 0 <= i < |es| ensures SseRoundTrip.Clean(Frames(es)[i]) && Frames(es)[i].eventType != EVENT_CLOSE {
      NamesAreTrimmed(es[i]);
    }
  }

  /** Reading the beginning of a list of frames gives the first one, or nothing yet. */
  lemma NextFrameOf(es: seq<StreamEvent>, n: nat, limit: nat)
    requires Marshals(es) && forall i :: 0 <= i < |es| ==> CleanEvent(es[i])
    requires n <= |FormatAll(Frames(es))|
    ensures var r := NextEvent(FormatAll(Frames(es))[..n], limit);
      && (r.Event? ==> es != [] && r.frame == FrameOf(es[0]) && r.frame.eventType != EVENT_CLOSE
                       && |FormatEvent(r.frame)| + |r.rest| == n)
      && (r.Eof? && n == |FormatAll(Frames(es))| ==> es == [])
  {
    FramesAreClean(es);
    HeadOfStream(Frames(es), n, limit);
  }

  lemma NextRead<V>(c: Client<V>, s: Server, limit: nat, decode: Decoder<V>)
    requires WireOk(s) && ClientOk(c, s, decode)
    ensures var r := NextEvent(Unread(c, s.written), limit);
      && (r.Event? ==>
            && c.processed < |s.attempted| && r.frame == FrameOf(s.attempted[c.processed])
            && r.frame.eventType != EVENT_CLOSE
            && c.consumed + |FormatEvent(r.frame)| + |r.rest| == c.arrived)
      && (r.Eof? && c.arrived == |FormatAll(Frames(s.attempted))| ==> c.processed == |s.attempted|)
  {
    RestIsClean(s, c.processed);
    UnreadIsWhatFollows(c, s, decode);
    NextFrameOf(s.attempted[c.processed..], c.arrived - c.consumed, limit);
  }

  lemma OneMoreFrame<V>(es: seq<StreamEvent>, k: nat, decode: Decoder<V>)
    requires Marshals(es) && k < |es|
    ensures |FormatAll(Frames(es[..k + 1]))| == |FormatAll(Frames(es[..k]))| + |FormatEvent(FrameOf(es[k]))|
    ensures DecodeAll(es[..k + 1], decode) == DecodeAll(es[..k], decode) + DecodeFrame(FrameOf(es[k]), decode)
  {
    assert es[..k + 1] == es[..k] + [es[k]];
    FramesConcat(es[..k], [es[k]]);
    assert Frames([es[k]]) == [FrameOf(es[k])] && [FrameOf(es[k])][1..] == [];
    DecodeConcat(es[..k], [es[k]], decode);
    assert [es[k]][1..] == [];
  }

  lemma ReadStep<V>(c: Client<V>, s: Server, limit: nat, decode: Decoder<V>)
    requires WireOk(s) && ClientOk(c, s, decode) && ClientEnabled(c, s, Reads, limit)
    ensures ClientOk(ClientApply(c, s, Reads, limit, decode), s, decode)
    ensures ClientApply(c, s, Reads, limit, decode).consumed > c.consumed
    ensures !ClientApply(c, s, Reads, limit, decode).phase.Stopped?
  {
    NextRead(c, s, limit, decode);
    OneMoreFrame(s.attempted, c.processed, decode);
    var f := FrameOf(s.attempted[c.processed]);
    assert c.delivered + [] == c.delivered;
    assert InHand(PhaseAfter(f, decode)) == DecodeFrame(f, decode);
  }

  lemma ClientStep<V>(c: Client<V>, s: Server, a: ClientAction, limit: nat, decode: Decoder<V>)
    requires WireOk(s) && ClientOk(c, s, decode) && ClientEnabled(c, s, a, limit)
    ensures ClientOk(ClientApply(c, s, a, limit, decode), s, decode)
  {
    if a.Reads? {
      ReadStep(c, s, limit, decode);
    }
  }

  lemma ClientEndsStep<V>(c: Client<V>, s: Server, a: ClientAction, limit: nat, decode: Decoder<V>)
    requires WireOk(s) && ClientOk(c, s, decode) && ClientEndsOk(c, s) && ClientEnabled(c, s, a, limit)
    ensures ClientEndsOk(ClientApply(c, s, a, limit, decode), s)
  {
    match a
    case Reads => ReadStep(c, s, limit, decode);
    case Ends => NextRead(c, s, limit, decode);
    case _ =>
  }

  /** Whatever the server does, it only adds to what the client looks at. */
  lemma ServerOnlyAdds(s: Server, a: ServerAction)
    requires WireOk(s) && ServerEnabled(s, a)
    ensures s.attempted <= ServerApply(s, a).attempted && s.written <= ServerApply(s, a).written
    ensures !s.tunnel.Running? ==>
      ServerApply(s, a).attempted == s.attempted && ServerApply(s, a).written == s.written
      && ServerApply(s, a).tunnel == s.tunnel
  {
  }

  lemma ClientKeeps<V>(c: Client<V>, s: Server, s': Server, decode: Decoder<V>)
    requires ClientOk(c, s, decode) && Marshals(s'.attempted)
    requires s.attempted <= s'.attempted && s.written <= s'.written
    ensures ClientOk(c, s', decode)
  {
    assert s'.attempted[..c.processed] == s.attempted[..c.processed];
  }

  lemma StepInv<V>(s: State<V>, a: Action, limit: nat, decode: Decoder<V>)
    requires Inv(s, decode) && Enabled(s, a, limit) && AcceptsClean(a)
    ensures Inv(Apply(s, a, limit, decode), decode)
  {
    match a
    case AtServer(sa) =>
      ServerStep(s.server, sa);
      ServerOnlyAdds(s.server, sa);
      ClientKeeps(s.client, s.server, ServerApply(s.server, sa), decode);
    case AtClient(ca) =>
      ClientStep(s.client, s.server, ca, limit, decode);
      ClientEndsStep(s.client, s.server, ca, limit, decode);
  }

  lemma InitialInv<V>(s: State<V>, decode: Decoder<V>)
    requires Initial(s)
    ensures Inv(s, decode)
  {
    assert s.server.attempted[..0] == [];
  }

  lemma {:induction false} RunInv<V>(s: State<V>, acts: seq<Action>, limit: nat, decode: Decoder<V>)
    requires Inv(s, decode) && Legal(s, acts, limit, decode)
    ensures Inv(Run(s, acts, limit, decode), decode)
    decreases |acts|
  {
    if acts != [] {
      StepInv(s, acts[0], limit, decode);
      RunInv(Apply(s, acts[0], limit, decode), acts[1..], limit, decode);
    }
  }

  // ---------------------------------------------------------------------------------------
  // A prefix, always

  /** The events the client has not decoded yet, nearest to the client first.  The batch of a
      failed write that left bytes counts once. */
  ghost function InFlight<V>(s: State<V>): seq<StreamEvent>
    requires s.client.processed <= |s.server.attempted|
  {
    s.server.attempted[s.client.processed..]
    + if s.server.attempted == s.server.sent then Pending(s.server) else InRelay(s.server.relay) + s.server.queue
  }

  lemma SplitDelivered<V>(accepted: seq<StreamEvent>, attempted: seq<StreamEvent>,
                                             waiting: seq<StreamEvent>, k: nat, decode: Decoder<V>)
    requires k <= |attempted| && Known(accepted) == attempted + Known(waiting)
    ensures DecodeAll(accepted, decode)
         == DecodeAll(attempted[..k], decode) + DecodeAll(attempted[k..] + waiting, decode)
  {
    assert attempted[..k] + attempted[k..] == attempted;
    DecodeConcat(attempted[..k], attempted[k..], decode);
    DecodeConcat(attempted, Known(waiting), decode);
    DecodeKnown(accepted, decode);
    DecodeKnown(waiting, decode);
    DecodeConcat(attempted[k..], waiting, decode);
    Associative(DecodeAll(attempted[..k], decode), DecodeAll(attempted[k..], decode), DecodeAll(waiting, decode));
  }

  lemma Associative<T>(a: seq<T>, b: seq<T>, c: seq<T>)
    ensures a + b + c == a + (b + c)
  {
  }

  lemma InvDelivers<V>(s: State<V>, decode: Decoder<V>)
    requires Inv(s, decode)
    ensures s.client.delivered <= DecodeAll(s.server.accepted, decode)
    ensures DecodeAll(s.server.accepted, decode)
         == s.client.delivered + InHand(s.client.phase) + DecodeAll(InFlight(s), decode)
  {
    var server, k := s.server, s.client.processed;
    if server.attempted == server.sent {
      SplitDelivered(server.accepted, server.attempted, Pending(server), k, decode);
    } else {
      var later := InRelay(server.relay) + server.queue;
      KnownConcat(server.batch, later);
      assert server.sent + (Known(server.batch) + Known(later)) == server.sent + Known(server.batch) + Known(later);
      SplitDelivered(server.accepted, server.attempted, later, k, decode);
    }
  }

  /** On every run, whatever is interleaved, cancelled, failing or cut, the caller has received
      a prefix of the decodable accepted events; what is missing is in the stages, in order. */
  lemma DeliveredIsAPrefix<V>(s: State<V>, acts: seq<Action>, limit: nat, decode: Decoder<V>)
    requires Initial(s) && Legal(s, acts, limit, decode)
    ensures var t := Run(s, acts, limit, decode);
      && t.client.delivered <= DecodeAll(t.server.accepted, decode)
      && t.client.processed <= |t.server.attempted|
      && DecodeAll(t.server.accepted, decode)
         == t.client.delivered + InHand(t.client.phase) + DecodeAll(InFlight(t), decode)
  {
    InitialInv(s, decode);
    RunInv(s, acts, limit, decode);
    InvDelivers(Run(s, acts, limit, decode), decode);
  }

  // ---------------------------------------------------------------------------------------
  // Everything, when nothing goes wrong

  /** Nobody cancels, no write fails and the connection holds. */
  predicate Undisturbed(a: Action) {
    match a
    case AtServer(sa) => !sa.CancelRequest? && !sa.FlushFails?
    case AtClient(ca) => !ca.Cut? && !ca.Stops?
  }

  /** No stage has given up. */
  ghost predicate Healthy<V>(s: State<V>) {
    && !s.server.requestDone && !s.server.relay.Abandoned?
    && (s.server.tunnel.Running? || s.server.tunnel.Finished?)
    && !s.client.cut && !s.client.phase.Stopped?
  }

  lemma HealthyStep<V>(s: State<V>, a: Action, limit: nat, decode: Decoder<V>)
    requires Inv(s, decode) && Healthy(s) && Enabled(s, a, limit) && Undisturbed(a)
    ensures Healthy(Apply(s, a, limit, decode))
  {
    match a
    case AtServer(sa) => ServerStaysHealthy(s.server, sa);
    case AtClient(ca) =>
      if ca.Reads? {
        ReadStep(s.client, s.server, limit, decode);
      }
  }

  lemma ServerStaysHealthy(s: Server, a: ServerAction)
    requires ServerEnabled(s, a) && !a.CancelRequest? && !a.FlushFails?
    requires !s.requestDone && !s.relay.Abandoned? && (s.tunnel.Running? || s.tunnel.Finished?)
    ensures var s' := ServerApply(s, a);
      !s'.requestDone && !s'.relay.Abandoned? && (s'.tunnel.Running? || s'.tunnel.Finished?)
  {
  }

  lemma {:induction false} StaysHealthy<V>(s: State<V>, acts: seq<Action>, limit: nat, decode: Decoder<V>)
    requires Inv(s, decode) && Healthy(s) && Legal(s, acts, limit, decode)
    requires forall i :: 0 <= i < |acts| ==> Undisturbed(acts[i])
    ensures Healthy(Run(s, acts, limit, decode))
    decreases |acts|
  {
    if acts != [] {
      StepInv(s, acts[0], limit, decode);
      HealthyStep(s, acts[0], limit, decode);
      StaysHealthy(Apply(s, acts[0], limit, decode), acts[1..], limit, decode);
    }
  }

  lemma AtEndIsComplete<V>(s: State<V>, decode: Decoder<V>)
    requires Inv(s, decode) && Healthy(s) && s.client.phase.AtEnd?
    ensures s.client.delivered == DecodeAll(s.server.accepted, decode)
    ensures s.server.queueClosed && s.server.queue == []
  {
    InvDelivers(s, decode);
    assert InFlight(s) == [];
    assert s.client.delivered + [] + [] == s.client.delivered;
  }

  /** An undisturbed run at whose end the client has seen the end of the stream has delivered
      all decodable events that were accepted, and the queue is closed and empty. */
  lemma EverythingIsDelivered<V>(s: State<V>, acts: seq<Action>, limit: nat, decode: Decoder<V>)
    requires Initial(s) && Legal(s, acts, limit, decode)
    requires forall i :: 0 <= i < |acts| ==> Undisturbed(acts[i])
    requires Run(s, acts, limit, decode).client.phase.AtEnd?
    ensures var t := Run(s, acts, limit, decode);
      && t.client.delivered == DecodeAll(t.server.accepted, decode)
      && t.server.queueClosed && t.server.queue == []
  {
    InitialInv(s, decode);
    RunInv(s, acts, limit, decode);
    StaysHealthy(s, acts, limit, decode);
    AtEndIsComplete(Run(s, acts, limit, decode), decode);
  }

  // ---------------------------------------------------------------------------------------
  // The end is always reached

  /** Steps that bring an event nearer to the caller, or a stage to its end. */
  predicate Work(a: Action) {
    match a
    case AtServer(sa) =>
      sa.RelayReceive? || sa.RelayHandOver? || sa.RelayDrained? || sa.TunnelReceive? || sa.Flush? || sa.TunnelEnds?
    case AtClient(ca) => (ca.Arrive? && ca.bytes > 0) || ca.Reads? || ca.Ends? || ca.Hands?
  }

  /** What is left to do: before the wire, on it, and behind it. */
  function ServerWork(s: Server): nat {
    3 * |s.queue| + 2 * |InRelay(s.relay)| + |s.batch|
    + (if s.relay.Receiving? || s.relay.Carrying? then 1 else 0) + (if s.tunnel.Running? then 1 else 0)
  }

  function WireWork<V>(s: State<V>): nat {
    if s.client.arrived <= |s.server.written| then |s.server.written| - s.client.arrived else 0
  }

  function ClientWork<V>(c: Client<V>): nat {
    2 * (if c.consumed <= c.arrived then c.arrived - c.consumed else 0)
    + (if c.phase.Handing? then 2 else if c.phase.Reading? then 1 else 0)
  }

  /** The bytes an event will be on the wire. */
  function WireLength(e: StreamEvent): nat {
    if e.result.Some? && e.envelope.Some? then |FormatEvent(FrameOf(e))| else 0
  }

  function WireLengths(es: seq<StreamEvent>): nat {
    if es == [] then 0 else WireLength(es[0]) + WireLengths(es[1..])
  }

  lemma {:induction false} WireLengthsAdd(a: seq<StreamEvent>, b: seq<StreamEvent>)
    ensures WireLengths(a + b) == WireLengths(a) + WireLengths(b)
    decreases |a|
  {
    if a == [] {
      assert a + b == b;
    } else {
      assert (a + b)[1..] == a[1..] + b;
      WireLengthsAdd(a[1..], b);
    }
  }

  lemma KnownMarshal(es: seq<StreamEvent>)
    requires es != [] && Marshals(Known(es))
    ensures Marshals(Known(es[1..])) && (es[0].result.Some? ==> es[0].envelope.Some?)
  {
    var known := Known(es[1..]);
    if es[0].result.Some? {
      assert Known(es)[0] == es[0] && forall i :: 0 <= i < |known| ==> known[i] == Known(es)[i + 1];
    } else {
      assert Known(es) == known;
    }
  }

  lemma {:induction false} KnownLengths(es: seq<StreamEvent>)
    requires Marshals(Known(es))
    ensures |FormatAll(Frames(Known(es)))| == WireLengths(es)
    decreases |es|
  {
    if es != [] {
      var known := Known(es[1..]);
      KnownMarshal(es);
      KnownLengths(es[1..]);
      if es[0].result.Some? {
        assert Known(es)[0] == es[0] && forall i :: 0 <= i < |known| ==> known[i] == Known(es)[i + 1];
        FramesSplit(es[0], known);
      } else {
        assert Known(es) == known;
      }
    }
  }

  lemma FramesSplit(e: StreamEvent, known: seq<StreamEvent>)
    requires Marshals(known) && e.result.Some? && e.envelope.Some?
    ensures Marshals([e] + known)
    ensures FormatAll(Frames([e] + known)) == FormatEvent(FrameOf(e)) + FormatAll(Frames(known))
  {
    assert Frames([e] + known) == [FrameOf(e)] + Frames(known);
    assert ([FrameOf(e)] + Frames(known))[1..] == Frames(known);
  }

  /** All of it as one number; a byte counts three before it arrives and two after. */
  function Measure<V>(s: State<V>): nat {
    ServerWork(s.server) + 3 * (WireLengths(Pending(s.server)) + WireWork(s)) + ClientWork(s.client)
  }

  lemma ServerWorkShrinks(s: Server, a: ServerAction)
    requires ServerEnabled(s, a) && Work(AtServer(a))
    ensures ServerWork(ServerApply(s, a)) < ServerWork(s)
    ensures |s.written| <= |ServerApply(s, a).written|
    ensures WireLengths(Pending(ServerApply(s, a))) + |ServerApply(s, a).written| == WireLengths(Pending(s)) + |s.written|
  {
    var s' := ServerApply(s, a);
    if a.Flush? {
      WireLengthsAdd(s.batch, InRelay(s.relay) + s.queue);
      KnownLengths(s.batch);
      assert Pending(s') == InRelay(s.relay) + s.queue;
    } else {
      assert Pending(s') == Pending(s);
    }
  }

  lemma WorkShrinks<V>(s: State<V>, a: Action, limit: nat, decode: Decoder<V>)
    requires Inv(s, decode) && Enabled(s, a, limit) && Work(a)
    ensures Measure(Apply(s, a, limit, decode)) < Measure(s)
  {
    match a
    case AtServer(sa) => ServerWorkShrinks(s.server, sa);
    case AtClient(ca) =>
      if ca.Reads? {
        ReadStep(s.client, s.server, limit, decode);
      }
  }

  /** Every accepted event can be marshalled, and its lines are not too long for the client. */
  ghost predicate Readable(s: Server, limit: nat) {
    && Marshals(Known(s.accepted))
    && forall i :: 0 <= i < |Known(s.accepted)| ==> Printable(FrameOf(Known(s.accepted)[i]), limit)
  }

  lemma WholeEventIsRead<V>(c: Client<V>, s: Server, limit: nat, decode: Decoder<V>)
    requires ServerInv(s) && ClientOk(c, s, decode) && Readable(s, limit) && !s.tunnel.Failed?
    requires c.arrived == |s.written|
    ensures if c.processed < |s.attempted| then NextEvent(Unread(c, s.written), limit).Event?
            else NextEvent(Unread(c, s.written), limit).Eof?
  {
    UnreadIsWhatFollows(c, s, decode);
    var fs := Frames(s.attempted[c.processed..]);
    forall i | 0 <= i < |fs| ensures Printable(fs[i], limit) {
      assert s.attempted[c.processed + i] == Known(s.accepted)[c.processed + i];
    }
    PrintedHead(fs, limit);
    assert Unread(c, s.written) == FormatAll(fs);
  }

  lemma PrintedHead(fs: seq<Frame>, limit: nat)
    requires forall i :: 0 <= i < |fs| ==> Printable(fs[i], limit)
    ensures if fs == [] then NextEvent(FormatAll(fs), limit).Eof? else NextEvent(FormatAll(fs), limit).Event?
  {
    RoundTrip(fs, limit);
    assert fs[0..] == fs;
  }

  /** The next step of the server while its tunnel runs. */
  function NextServerAction(s: Server): ServerAction {
    if s.batch != [] then Flush
    else
      match s.relay
      case Carrying(_) => RelayHandOver
      case Receiving => if s.queue != [] then RelayReceive else RelayDrained
      case Absent => if s.queue != [] then TunnelReceive else TunnelEnds
      case _ => TunnelEnds
  }

  function NextAction<V>(s: State<V>): Action {
    if s.client.phase.Handing? then AtClient(Hands)
    else if s.client.arrived < |s.server.written| then AtClient(Arrive(|s.server.written| - s.client.arrived))
    else if s.client.processed < |s.server.attempted| then AtClient(Reads)
    else if s.server.tunnel.Running? then AtServer(NextServerAction(s.server))
    else AtClient(Ends)
  }

  lemma ServerMoves(s: Server)
    requires ServerInv(s) && Marshals(Known(s.accepted)) && s.tunnel.Running? && s.queueClosed
    ensures ServerEnabled(s, NextServerAction(s)) && Work(AtServer(NextServerAction(s)))
  {
    if s.batch != [] {
      KnownConcat(s.batch, InRelay(s.relay) + s.queue);
      forall i | 0 <= i < |Known(s.batch)| ensures Known(s.batch)[i].result.Some? && Known(s.batch)[i].envelope.Some? {
        assert Known(s.batch)[i] == Known(s.accepted)[|s.sent| + i];
      }
    }
  }

  /** No deadlock: as long as the client is not at the end, some stage has work it can do. */
  lemma SomeStageMoves<V>(s: State<V>, limit: nat, decode: Decoder<V>)
    requires Inv(s, decode) && Healthy(s) && Readable(s.server, limit) && s.server.queueClosed
    requires !s.client.phase.AtEnd?
    ensures Enabled(s, NextAction(s), limit) && Work(NextAction(s)) && Undisturbed(NextAction(s))
  {
    if s.client.arrived == |s.server.written| {
      WholeEventIsRead(s.client, s.server, limit, decode);
    }
    if s.server.tunnel.Running? {
      ServerMoves(s.server);
    }
  }

  lemma WorkKeepsTheInput<V>(s: State<V>, a: Action, limit: nat, decode: Decoder<V>)
    requires Enabled(s, a, limit) && Work(a)
    ensures Apply(s, a, limit, decode).server.accepted == s.server.accepted
    ensures Apply(s, a, limit, decode).server.queueClosed == s.server.queueClosed
  {
  }

  /** Once the queue is closed, work alone leads to the end and to full delivery. */
  lemma {:induction false} WorkCompletes<V>(s: State<V>, limit: nat, decode: Decoder<V>) returns (acts: seq<Action>)
    requires Inv(s, decode) && Healthy(s) && Readable(s.server, limit) && s.server.queueClosed
    ensures Legal(s, acts, limit, decode) && forall i :: 0 <= i < |acts| ==> Work(acts[i])
    ensures Run(s, acts, limit, decode).client.phase.AtEnd?
    ensures Run(s, acts, limit, decode).client.delivered == DecodeAll(s.server.accepted, decode)
    decreases Measure(s)
  {
    if s.client.phase.AtEnd? {
      AtEndIsComplete(s, decode);
      acts := [];
    } else {
      var a := NextAction(s);
      SomeStageMoves(s, limit, decode);
      StepInv(s, a, limit, decode);
      HealthyStep(s, a, limit, decode);
      WorkShrinks(s, a, limit, decode);
      WorkKeepsTheInput(s, a, limit, decode);
      var more := WorkCompletes(Apply(s, a, limit, decode), limit, decode);
      acts := [a] + more;
      assert acts[1..] == more;
    }
  }

  /** No stage has work it can do. */
  ghost predicate Rests<V>(s: State<V>, limit: nat) { forall a: Action :: Work(a) ==> !Enabled(s, a, limit) }

  lemma RestsAtTheEnd<V>(s: State<V>, limit: nat, decode: Decoder<V>)
    requires Inv(s, decode) && Healthy(s) && Readable(s.server, limit) && s.server.queueClosed
    ensures Rests(s, limit) ==> s.client.phase.AtEnd? && s.client.delivered == DecodeAll(s.server.accepted, decode)
  {
    if s.client.phase.AtEnd? {
      AtEndIsComplete(s, decode);
    } else {
      SomeStageMoves(s, limit, decode);
    }
  }

  /** And it does so in every order: whatever work is done, it is at most as much as the measure
      says, and when no more can be done the client is at the end and everything is delivered. */
  lemma {:induction false} WorkInAnyOrder<V>(s: State<V>, acts: seq<Action>, limit: nat, decode: Decoder<V>)
    requires Inv(s, decode) && Healthy(s) && Readable(s.server, limit) && s.server.queueClosed
    requires Legal(s, acts, limit, decode) && forall i :: 0 <= i < |acts| ==> Work(acts[i])
    ensures var e := Run(s, acts, limit, decode);
      && |acts| + Measure(e) <= Measure(s)
      && (Rests(e, limit) ==> e.client.phase.AtEnd? && e.client.delivered == DecodeAll(s.server.accepted, decode))
    decreases |acts|
  {
    if acts == [] {
      RestsAtTheEnd(s, limit, decode);
    } else {
      var a := acts[0];
      StepInv(s, a, limit, decode);
      HealthyStep(s, a, limit, decode);
      WorkShrinks(s, a, limit, decode);
      WorkKeepsTheInput(s, a, limit, decode);
      WorkInAnyOrder(Apply(s, a, limit, decode), acts[1..], limit, decode);
    }
  }

  // ---------------------------------------------------------------------------------------
  // Which events these are

  /** A known event whose envelope has text that decodes. */
  predicate Decodable<V>(e: StreamEvent, decode: Decoder<V>) {
    e.result.Some? && e.envelope.Some? && e.envelope.value != [] && decode(e.envelope.value).Some?
  }

  function Decodables<V>(es: seq<StreamEvent>, decode: Decoder<V>): seq<nat> {
    if es == [] then []
    else
      var n := |es| - 1;
      Decodables(es[..n], decode) + if Decodable(es[n], decode) then [n] else []
  }

  ghost predicate ResultAt<V>(es: seq<StreamEvent>, i: nat, decode: Decoder<V>, v: V) {
    i < |es| && es[i].envelope.Some? && decode(es[i].envelope.value) == Some(v)
  }

  /** The results are those of the first decodable events, in their order; `at` are the positions
      of all decodable ones. */
  ghost predicate FirstResults<V>(results: seq<V>, at: seq<nat>, es: seq<StreamEvent>, decode: Decoder<V>) {
    && Increasing(at) && (forall i: nat :: i in at <==> i < |es| && Decodable(es[i], decode))
    && |results| <= |at| && forall k :: 0 <= k < |results| ==> ResultAt(es, at[k], decode, results[k])
  }

  lemma OneDecoded<V>(e: StreamEvent, decode: Decoder<V>)
    ensures DecodeAll([e], decode) == if Decodable(e, decode) then [decode(e.envelope.value).value] else []
  {
    assert [e][1..] == [];
    if e.result.Some? {
      NamesAreTrimmed(e);
    }
  }

  lemma {:induction false} DecodedInOrder<V>(es: seq<StreamEvent>, decode: Decoder<V>)
    ensures FirstResults(DecodeAll(es, decode), Decodables(es, decode), es, decode)
    ensures |DecodeAll(es, decode)| == |Decodables(es, decode)|
    decreases |es|
  {
    if es != [] {
      var n := |es| - 1;
      var front, at := es[..n], Decodables(es[..n], decode);
      DecodedInOrder(front, decode);
      assert es == front + [es[n]];
      DecodeConcat(front, [es[n]], decode);
      OneDecoded(es[n], decode);
      MoreDecodables(es, decode);
      forall k | 0 <= k < |at| ensures ResultAt(es, at[k], decode, DecodeAll(es, decode)[k]) {
        assert ResultAt(front, at[k], decode, DecodeAll(front, decode)[k]);
      }
    }
  }

  lemma MoreDecodables<V>(es: seq<StreamEvent>, decode: Decoder<V>)
    requires es != []
    requires var at, front := Decodables(es[..|es| - 1], decode), es[..|es| - 1];
      Increasing(at) && forall i: nat :: i in at <==> i < |front| && Decodable(front[i], decode)
    ensures var at := Decodables(es, decode);
      Increasing(at) && forall i: nat :: i in at <==> i < |es| && Decodable(es[i], decode)
  {
    var n, at := |es| - 1, Decodables(es[..|es| - 1], decode);
    var all := at + if Decodable(es[n], decode) then [n] else [];
    assert Decodables(es, decode) == all;
    forall k | 0 <= k < |at| ensures at[k] < n {
      assert at[k] in at;
    }
    forall i: nat ensures i in all <==> i < |es| && Decodable(es[i], decode) {
      assert i in all <==> i in at || (i == n && Decodable(es[n], decode));
    }
  }

  /** In every interleaving the caller has the results of the first so many decodable accepted
      events, one for each and in order, whatever their type. */
  lemma DeliveredInOrder<V>(s: State<V>, acts: seq<Action>, limit: nat, decode: Decoder<V>)
    requires Initial(s) && Legal(s, acts, limit, decode)
    ensures var t := Run(s, acts, limit, decode);
      FirstResults(t.client.delivered, Decodables(t.server.accepted, decode), t.server.accepted, decode)
  {
    var t := Run(s, acts, limit, decode);
    DeliveredIsAPrefix(s, acts, limit, decode);
    DecodedInOrder(t.server.accepted, decode);
  }

  lemma {:induction false} DecodedOneByOne<V>(es: seq<StreamEvent>, decode: Decoder<V>)
    requires forall i :: 0 <= i < |es| ==> Decodable(es[i], decode)
    ensures |DecodeAll(es, decode)| == |es|
    ensures forall i :: 0 <= i < |es| ==> ResultAt(es, i, decode, DecodeAll(es, decode)[i])
    decreases |es|
  {
    if es != [] {
      DecodedOneByOne(es[1..], decode);
      OneDecoded(es[0], decode);
      DecodeConcat([es[0]], es[1..], decode);
      assert es == [es[0]] + es[1..];
      forall i | 0 <= i < |es| ensures ResultAt(es, i, decode, DecodeAll(es, decode)[i]) {
        assert i > 0 ==> ResultAt(es[1..], i - 1, decode, DecodeAll(es[1..], decode)[i - 1]);
      }
    }
  }

  /** And when nothing goes wrong, of all of them: when every known event marshals to text that
      decodes, the caller has one result for each known event accepted. */
  lemma NothingIsLost<V>(s: State<V>, acts: seq<Action>, limit: nat, decode: Decoder<V>)
    requires Initial(s) && Legal(s, acts, limit, decode)
    requires forall i :: 0 <= i < |acts| ==> Undisturbed(acts[i])
    requires Run(s, acts, limit, decode).client.phase.AtEnd?
    ensures var t := Run(s, acts, limit, decode); var known := Known(t.server.accepted);
      && FirstResults(t.client.delivered, Decodables(t.server.accepted, decode), t.server.accepted, decode)
      && |t.client.delivered| == |Decodables(t.server.accepted, decode)|
      && ((forall i :: 0 <= i < |known| ==> Decodable(known[i], decode)) ==>
            && |t.client.delivered| == |known|
            && forall i :: 0 <= i < |known| ==> ResultAt(known, i, decode, t.client.delivered[i]))
  {
    var t := Run(s, acts, limit, decode);
    EverythingIsDelivered(s, acts, limit, decode);
    DecodedInOrder(t.server.accepted, decode);
    DecodeKnown(t.server.accepted, decode);
    if forall i :: 0 <= i < |Known(t.server.accepted)| ==> Decodable(Known(t.server.accepted)[i], decode) {
      DecodedOneByOne(Known(t.server.accepted), decode);
    }
  }

  // ---------------------------------------------------------------------------------------
  // Bounds, and giving up

  predicate BatchFits(s: Server) { |s.batch| <= s.batchSize }

  lemma BatchStep(s: Server, a: ServerAction)
    requires BatchFits(s) && ServerEnabled(s, a)
    ensures BatchFits(ServerApply(s, a)) && ServerApply(s, a).batchSize == s.batchSize
  {
  }

  /** No batch is longer than its size. */
  lemma {:induction false} BatchesStayBounded<V>(s: State<V>, acts: seq<Action>, limit: nat, decode: Decoder<V>)
    requires BatchFits(s.server) && Legal(s, acts, limit, decode)
    ensures BatchFits(Run(s, acts, limit, decode).server)
    decreases |acts|
  {
    if acts != [] {
      if acts[0].AtServer? {
        BatchStep(s.server, acts[0].server);
      }
      BatchesStayBounded(Apply(s, acts[0], limit, decode), acts[1..], limit, decode);
    }
  }

  /** After a cancel of the request the relay and the tunnel can end in any state, keeping what
      they have; a write can fail after any number of its bytes; the client can stop at any time
      before its end, and its connection be cut. */
  lemma AnythingCanFail<V>(s: State<V>, limit: nat, n: nat)
    ensures s.server.requestDone && (s.server.relay.Receiving? || s.server.relay.Carrying?) ==>
      Enabled(s, AtServer(RelayAbandons), limit)
    ensures s.server.requestDone && s.server.tunnel.Running? ==> Enabled(s, AtServer(TunnelAbandons), limit)
    ensures Enabled(s, AtServer(CancelRequest), limit)
    ensures (&& s.server.tunnel.Running? && s.server.batch != [] && Marshals(Known(s.server.batch))
             && n <= |FormatAll(Frames(Known(s.server.batch)))|) ==>
      Enabled(s, AtServer(FlushFails(n)), limit)
    ensures s.client.phase.Reading? || s.client.phase.Handing? ==> Enabled(s, AtClient(Stops), limit)
    ensures Enabled(s, AtClient(Cut), limit)
  {
  }

  /** The client of this machine does with an event what a round of its loop does. */
  lemma RoundsAgree<V>(f: Frame, decode: Decoder<V>)
    ensures PhaseAfter(f, decode) ==
      if f.data == [] then Reading
      else if f.eventType == "close" then Stopped(None)
      else if decode(f.data).Some? then Handing(decode(f.data).value)
      else Reading
  {
  }
}
