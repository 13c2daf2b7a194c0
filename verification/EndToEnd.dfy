/** The pipeline with the wire types: what a subscriber accepts is what the caller of the client gets. */
module EndToEnd {
  import opened Wrappers
  import opened Sse
  import opened SseTunnel
  import opened StreamClient
  import P = Pipeline
  import T = Protocol
  import RT = RoundTrip

  /** The text of an event is that of its encoding in some JSON-RPC response, and the decoder reads
      it back as that encoding is decoded, its members in some order. */
  ghost predicate Carries(e: StreamEvent, decode: Decoder<T.Event>,
                          order: seq<T.Name>) {
    e.result.Some? && e.envelope.Some? && e.envelope.value != [] && ReadsAs(e.envelope.value, e.result.value, decode, order)
  }

  ghost predicate ReadsAs(text: Bytes, event: T.Event, decode: Decoder<T.Event>, order: seq<T.Name>) {
    var decoded := T.DecodeEvent(T.EncodeEvent(event), order);
    decode(text) == if decoded.Success? then Some(decoded.value) else None
  }

  /** So when the discriminators of the events fit, the caller has their normal forms: every event
      a subscriber accepted comes out of the client as it was sent. */
  lemma EventsArriveAsSent(s: P.State<T.Event>, acts: seq<P.Action>, limit: nat, decode: Decoder<T.Event>,
                           order: seq<T.Name>)
    requires P.Initial(s) && P.Legal(s, acts, limit, decode)
    requires forall i :: 0 <= i < |acts| ==> P.Undisturbed(acts[i])
    requires P.Run(s, acts, limit, decode).client.phase.AtEnd?
    requires var accepted := P.Run(s, acts, limit, decode).server.accepted;
      forall i :: 0 <= i < |accepted| ==> Carries(accepted[i], decode, order) && RT.GoodEvent(accepted[i].result.value)
    ensures var t := P.Run(s, acts, limit, decode);
      && |t.client.delivered| == |t.server.accepted|
      && forall i :: 0 <= i < |t.server.accepted| ==>
           t.server.accepted[i].result.Some?
           && t.client.delivered[i] == RT.NormEvent(t.server.accepted[i].result.value)
  {
    var t := P.Run(s, acts, limit, decode);
    var accepted := t.server.accepted;
    P.EverythingIsDelivered(s, acts, limit, decode);
    forall i | 0 <= i < |accepted|
      ensures P.Decodable(accepted[i], decode)
      ensures decode(accepted[i].envelope.value) == Some(RT.NormEvent(accepted[i].result.value))
    {
      assert ReadsAs(accepted[i].envelope.value, accepted[i].result.value, decode, order);
      RT.EventRoundTrip(accepted[i].result.value, order);
    }
    P.DecodedOneByOne(accepted, decode);
    assert forall i :: 0 <= i < |accepted| ==> P.ResultAt(accepted, i, decode, t.client.delivered[i]);
  }
}
