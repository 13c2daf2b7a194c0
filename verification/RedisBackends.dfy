/**
 The conversation window in Redis and the one in memory give the same answers: after the same
 stores a Redis read returns what the store in memory returns, less what has expired, as the
 encoding leaves it.
 */
module RedisBackends {
  import opened Wrappers
  import opened Protocol
  import opened Conversations
  import CL = ConversationLog
  import opened RedisConversations
  import opened RedisRuns
  import opened RoundTrip

  type Sending = (Message, int)

  /** A message stored at a time, all commands of the call done. */
  function CallOf(sending: Sending): StoreCall<JSON> {
    StoreCall(sending.0.messageID, sending.0.contextID, EncodeMessage(sending.0), sending.1, ALL_DONE)
  }

  function CallsOf(sendings: seq<Sending>): seq<StoreCall<JSON>>
    decreases |sendings|
  {
    if sendings == [] then [] else [CallOf(sendings[0])] + CallsOf(sendings[1..])
  }

  function StoreAll(s: Store, sendings: seq<Sending>): Store
    decreases |sendings|
  {
    if sendings == [] then s else StoreAll(AfterStore(s, sendings[0].0, sendings[0].1), sendings[1..])
  }

  function LogAll(log: CL.Log, sendings: seq<Sending>): CL.Log
    decreases |sendings|
  {
    if sendings == [] then log else LogAll(CL.LogStore(log, sendings[0].0, sendings[0].1), sendings[1..])
  }

  // ---------------------------------------------------------------------------------------
  // What was pushed is what the store in memory has logged

  predicate SentAs(mem: Memory<JSON>, m: Message, value: JSON) {
    m.messageID in mem.sent && mem.sent[m.messageID].value == value
  }

  ghost predicate LoggedIn(mem: Memory<JSON>, w: seq<Message>, ids: seq<string>) {
    CL.SameIds(ids, w) && forall i :: 0 <= i < |w| ==> SentAs(mem, w[i], EncodeMessage(w[i]))
  }

  ghost predicate LoggedFor(mem: Memory<JSON>, log: CL.Log, l: Limits, c: string) {
    LoggedIn(mem, CL.Window(log, c, l.max), Window(mem, c, l))
  }

  ghost predicate Logged(mem: Memory<JSON>, log: CL.Log, l: Limits) { forall c :: LoggedFor(mem, log, l, c) }

  lemma OthersStaySent(mem: Memory<JSON>, w: seq<Message>, ids: seq<string>, id: string, value: JSON, now: int)
    requires LoggedIn(mem, w, ids) && id !in ids
    ensures LoggedIn(Note(mem, PutValue(id, value), now), w, ids)
  {
    forall i | 0 <= i < |w| ensures SentAs(Note(mem, PutValue(id, value), now), w[i], EncodeMessage(w[i])) {
      assert SentAs(mem, w[i], EncodeMessage(w[i])) && ids[i] == w[i].messageID;
    }
  }

  lemma GrownIsLogged(mem: Memory<JSON>, w: seq<Message>, ids: seq<string>, m: Message, max: nat)
    requires max > 0 && |w| <= max && LoggedIn(mem, w, ids) && SentAs(mem, m, EncodeMessage(m))
    ensures LoggedIn(mem, CL.Grown(w, m, true, max), Last(ids + [m.messageID], max))
  {
    var w', ids' := CL.Grown(w, m, true, max), Last(ids + [m.messageID], max);
    var from := |w| + 1 - |w'|;
    forall i | 0 <= i < |w'| ensures ids'[i] == w'[i].messageID && SentAs(mem, w'[i], EncodeMessage(w'[i])) {
      if from + i < |w| {
        assert SentAs(mem, w[from + i], EncodeMessage(w[from + i]));
      }
    }
  }

  lemma StoreIsLogged(mem: Memory<JSON>, log: CL.Log, l: Limits, m: Message, now: int)
    requires l.max > 0 && Logged(mem, log, l) && FreshID(mem, l, m.messageID)
    ensures Logged(NoteCall(mem, CallOf((m, now))), CL.LogStore(log, m, now), l)
  {
    forall c ensures LoggedFor(NoteCall(mem, CallOf((m, now))), CL.LogStore(log, m, now), l, c) {
      StoreIsLoggedFor(mem, log, l, m, now, c);
    }
  }

  lemma StoreIsLoggedFor(mem: Memory<JSON>, log: CL.Log, l: Limits, m: Message, now: int, c: string)
    requires l.max > 0 && Logged(mem, log, l) && FreshID(mem, l, m.messageID)
    ensures LoggedFor(NoteCall(mem, CallOf((m, now))), CL.LogStore(log, m, now), l, c)
  {
    var w, ids, value := CL.Window(log, c, l.max), Window(mem, c, l), EncodeMessage(m);
    var put := Note(mem, PutValue(m.messageID, value), now);
    assert LoggedFor(mem, log, l, c) && m.messageID !in ids;
    OthersStaySent(mem, w, ids, m.messageID, value, now);
    CL.WindowGrows(log, m, now, l.max, c);
    if m.contextID == Some(c) {
      LastOfLast(mem.Ids(c), m.messageID, l.max);
      GrownIsLogged(put, w, ids, m, l.max);
    } else if m.contextID.Some? {
      assert Note(put, PushID(m.contextID.value, m.messageID), now).Ids(c) == mem.Ids(c);
    }
  }

  lemma FreshIsUnlisted(s: Store, mem: Memory<JSON>, log: CL.Log, l: Limits, id: string)
    requires CL.Aligned(s, log) && s.max == l.max && Logged(mem, log, l) && FreshID(mem, l, id)
    ensures !CL.Listed(s, id)
  {
    forall c | c in s.conversations ensures id !in s.conversations[c].ids {
      assert CL.SameIds(s.Ids(c), CL.Window(log, c, s.max)) && LoggedFor(mem, log, l, c);
      assert s.Ids(c) == Window(mem, c, l);
    }
  }

  // ---------------------------------------------------------------------------------------
  // Trimmed lists

  /** No list is longer than a window. */
  ghost predicate Short(r: Redis<JSON>, l: Limits) { forall key :: key in r.lists ==> |r.lists[key].value| <= l.max }

  lemma TrimmedIsShort(r: Redis<JSON>, call: StoreCall<JSON>, l: Limits)
    requires Short(r, l) && l.max > 0 && l.listTTL > 0 && call.replies == ALL_DONE
    ensures Short(AfterCall(r, call, l), l)
  {
    if call.context.Some? {
      TrimKeepsTheEnd(r.List(Key(call.context.value), call.at) + [call.id], l.max);
    }
  }

  /** A read of more than the window is a read of the window. */
  lemma ShortRead(r: Redis<JSON>, l: Limits, c: string, length: int, now: int, answers: Answers)
    requires Short(r, l)
    ensures RedisHistory(r, c, length, MessageOf, now, answers)
         == RedisHistory(r, c, if length > l.max then l.max else length, MessageOf, now, answers)
  {
  }

  // ---------------------------------------------------------------------------------------
  // The same stores to both

  lemma {:induction false} RunsAgree(s: Store, log: CL.Log, r: Redis<JSON>, mem: Memory<JSON>, l: Limits, start: int,
                                     sendings: seq<Sending>, now: int)
    requires CL.Refines(s, log) && s.max == l.max && Logged(mem, log, l) && Short(r, l) && l.listTTL > 0
    requires PromptCalls(mem, l, start, CallsOf(sendings), now)
    ensures var s', log' := StoreAll(s, sendings), LogAll(log, sendings);
      && CL.Refines(s', log') && s'.max == l.max
      && Logged(NoteCalls(mem, CallsOf(sendings)), log', l) && Short(RunCalls(r, CallsOf(sendings), l), l)
    decreases |sendings|
  {
    if sendings != [] {
      var (m, at) := sendings[0];
      var call := CallOf(sendings[0]);
      FreshIsUnlisted(s, mem, log, l, m.messageID);
      CL.StoreRefines(s, log, m, at);
      StoreIsLogged(mem, log, l, m, at);
      TrimmedIsShort(r, call, l);
      assert CallsOf(sendings)[1..] == CallsOf(sendings[1..]);
      RunsAgree(AfterStore(s, m, at), CL.LogStore(log, m, at), AfterCall(r, call, l), NoteCall(mem, call), l, at,
                sendings[1..], now);
    }
  }

  /** The messages that have not expired, as the encoding leaves them. */
  function Survivors(mem: Memory<JSON>, ms: seq<Message>, ttl: int, now: int): seq<Message>
    decreases |ms|
  {
    if ms == [] then []
    else
      (if mem.Young(ms[0].messageID, ttl, now) then MessageOf(EncodeMessage(ms[0])) else [])
      + Survivors(mem, ms[1..], ttl, now)
  }

  lemma {:induction false} VisibleSurvive(mem: Memory<JSON>, ids: seq<string>, ms: seq<Message>, ttl: int, now: int)
    requires LoggedIn(mem, ms, ids)
    ensures Visible(mem, ids, ALL_READ.get, MessageOf, ttl, now) == Survivors(mem, ms, ttl, now)
    decreases |ids|
  {
    if ids != [] {
      assert ids[0] == ms[0].messageID && SentAs(mem, ms[0], EncodeMessage(ms[0]));
      forall i | 0 <= i < |ms| - 1 ensures SentAs(mem, ms[1..][i], EncodeMessage(ms[1..][i])) {
        assert SentAs(mem, ms[i + 1], EncodeMessage(ms[i + 1]));
      }
      VisibleSurvive(mem, ids[1..], ms[1..], ttl, now);
    }
  }

  lemma LastLogged(mem: Memory<JSON>, w: seq<Message>, ids: seq<string>, n: int)
    requires LoggedIn(mem, w, ids)
    ensures LoggedIn(mem, Last(w, n), Last(ids, n))
  {
    var from := |w| - |Last(w, n)|;
    forall i | 0 <= i < |Last(w, n)| ensures SentAs(mem, Last(w, n)[i], EncodeMessage(Last(w, n)[i])) {
      assert SentAs(mem, w[from + i], EncodeMessage(w[from + i]));
    }
  }

  lemma LoggedReads(s: Store, log: CL.Log, mem: Memory<JSON>, l: Limits, c: string, length: int, now: int)
    requires CL.Refines(s, log) && s.max == l.max && Logged(mem, log, l)
    ensures var n := if length > l.max then l.max else length;
      Visible(mem, Last(mem.Ids(c), n), ALL_READ.get, MessageOf, l.valueTTL, now)
      == Survivors(mem, History(s, c, length), l.valueTTL, now)
  {
    var w, n := CL.Window(log, c, l.max), if length > l.max then l.max else length;
    CL.StoredAgrees(s, log);
    assert History(s, c, length) == Last(w, length) == Last(w, n);
    assert LoggedFor(mem, log, l, c);
    LastLogged(mem, w, Window(mem, c, l), n);
    LastOfMore(mem.Ids(c), l.max, n);
    VisibleSurvive(mem, Last(mem.Ids(c), n), Last(w, n), l.valueTTL, now);
  }

  lemma BothEmpty(l: Limits)
    requires l.max > 0
    ensures CL.Refines(Store(map[], map[], l.max), map[]) && Logged(NothingSent(), map[], l) && Short(NoKeys(), l)
  {
  }

  /** After the same stores with fresh IDs a Redis read of any length returns the messages that
      the store in memory returns, less the expired ones, as the encoding leaves them. */
  lemma BackendsAgree(l: Limits, start: int, sendings: seq<Sending>, c: string, length: int, now: int)
    requires l.max > 0 && 0 < l.valueTTL <= l.listTTL && c != ""
    requires PromptCalls(NothingSent(), l, start, CallsOf(sendings), now)
    ensures RedisHistory(RunCalls(NoKeys(), CallsOf(sendings), l), c, length, MessageOf, now, ALL_READ)
         == Success(Survivors(NoteCalls(NothingSent(), CallsOf(sendings)),
                              History(StoreAll(Store(map[], map[], l.max), sendings), c, length), l.valueTTL, now))
  {
    var empty := Store(map[], map[], l.max);
    var r, mem := RunCalls(NoKeys(), CallsOf(sendings), l), NoteCalls(NothingSent(), CallsOf(sendings));
    BothEmpty(l);
    RunsAgree(empty, map[], NoKeys(), NothingSent(), l, start, sendings, now);
    ShortRead(r, l, c, length, now, ALL_READ);
    RenewedHistoriesAreRight(l, start, CallsOf(sendings), c, if length > l.max then l.max else length, now, ALL_READ,
                             MessageOf);
    LoggedReads(StoreAll(empty, sendings), LogAll(map[], sendings), mem, l, c, length, now);
  }

  lemma {:induction false} SurvivorsAreFew(mem: Memory<JSON>, ms: seq<Message>, ttl: int, now: int)
    ensures |Survivors(mem, ms, ttl, now)| <= |ms|
    decreases |ms|
  {
    if ms != [] {
      SurvivorsAreFew(mem, ms[1..], ttl, now);
    }
  }

  predicate Survives(mem: Memory<JSON>, m: Message, ttl: int, now: int) {
    GoodMessage(m) && mem.Young(m.messageID, ttl, now)
  }

  /** A list of messages comes back normalised, none missing and none changed, if and only if all
      are well formed and none has expired. */
  lemma {:induction false} SurvivorsAreNormal(mem: Memory<JSON>, ms: seq<Message>, ttl: int, now: int)
    ensures Survivors(mem, ms, ttl, now) == NormMessages(ms)
      <==> forall i :: 0 <= i < |ms| ==> Survives(mem, ms[i], ttl, now)
    decreases |ms|
  {
    if ms != [] {
      MessageRoundTrip(ms[0]);
      SurvivorsAreNormal(mem, ms[1..], ttl, now);
      SurvivorsAreFew(mem, ms[1..], ttl, now);
      SplitMessages(ms);
      assert forall i :: 0 < i < |ms| ==> ms[i] == ms[1..][i - 1];
      var d := DecodeMessage(EncodeMessage(ms[0]));
      if mem.Young(ms[0].messageID, ttl, now) && d.Success? {
        SameHeadAndTail(d.value, Survivors(mem, ms[1..], ttl, now), NormMessage(ms[0]), NormMessages(ms[1..]));
      }
    }
  }

  /** So both backends return the same messages, normalised, if and only if all of them are well
      formed and none has expired. */
  lemma BackendsReturnTheSame(l: Limits, start: int, sendings: seq<Sending>, c: string, length: int, now: int)
    requires l.max > 0 && 0 < l.valueTTL <= l.listTTL && c != ""
    requires PromptCalls(NothingSent(), l, start, CallsOf(sendings), now)
    ensures var mem := NoteCalls(NothingSent(), CallsOf(sendings));
      var history := History(StoreAll(Store(map[], map[], l.max), sendings), c, length);
      RedisHistory(RunCalls(NoKeys(), CallsOf(sendings), l), c, length, MessageOf, now, ALL_READ)
      == Success(NormMessages(history))
      <==> forall i :: 0 <= i < |history| ==> Survives(mem, history[i], l.valueTTL, now)
  {
    BackendsAgree(l, start, sendings, c, length, now);
    SurvivorsAreNormal(NoteCalls(NothingSent(), CallsOf(sendings)),
                       History(StoreAll(Store(map[], map[], l.max), sendings), c, length), l.valueTTL, now);
  }
}
