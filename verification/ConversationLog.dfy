/**
 The windows of the conversation store agree with a log that never forgets: for every context
 all messages stored since it last expired.
 */
module ConversationLog {
  import opened Wrappers
  import opened Protocol
  import opened Conversations

  datatype Entry = Entry(msgs: seq<Message>, lastAccess: int)

  type Log = map<string, Entry>

  function Msgs(log: Log, c: string): seq<Message> { if c in log then log[c].msgs else [] }

  function LogStore(log: Log, m: Message, now: int): Log {
    if m.contextID.None? then log
    else log[m.contextID.value := Entry(Msgs(log, m.contextID.value) + [m], now)]
  }

  function LogTouch(log: Log, c: string, now: int): Log {
    if c in log then log[c := log[c].(lastAccess := now)] else log
  }

  function LogExpire(log: Log, now: int, maxAge: int): Log {
    map c | c in log && !(now - log[c].lastAccess > maxAge) :: log[c]
  }

  function Window(log: Log, c: string, max: nat): seq<Message> { Last(Msgs(log, c), max) }

  /** Every history read is the end of the log: the last min(n, max, total) messages. */
  ghost predicate Agree(s: Store, log: Log) {
    forall c: string, n: int :: History(s, c, n) == Last(Window(log, c, s.max), n)
  }

  // ---------------------------------------------------------------------------------------
  // The lists are always those of the log; the messages need not be

  /** The IDs of a list are those of the messages of a window. */
  ghost predicate SameIds(ids: seq<string>, w: seq<Message>) {
    |ids| == |w| && forall i :: 0 <= i < |w| ==> ids[i] == w[i].messageID
  }

  predicate Holds(messages: map<string, Message>, id: string, m: Message) {
    id in messages && messages[id] == m
  }

  ghost predicate WindowStored(messages: map<string, Message>, ids: seq<string>, w: seq<Message>) {
    SameIds(ids, w) && forall i :: 0 <= i < |w| ==> Holds(messages, ids[i], w[i])
  }

  /** Contexts and access times are those of the log. */
  ghost predicate Matches(s: Store, log: Log) {
    && s.conversations.Keys == log.Keys
    && (forall c :: c in log ==> s.conversations[c].lastAccess == log[c].lastAccess)
    && (forall c, i :: 0 <= i < |Msgs(log, c)| ==> Msgs(log, c)[i].contextID == Some(c))
  }

  /** Contexts, times and lists of IDs are those of the log. */
  ghost predicate Aligned(s: Store, log: Log) {
    && s.max > 0 && Matches(s, log)
    && forall c :: SameIds(s.Ids(c), Window(log, c, s.max))
  }

  ghost predicate AllStored(s: Store, log: Log) {
    forall c :: WindowStored(s.messages, s.Ids(c), Window(log, c, s.max))
  }

  lemma {:induction false} LookupStored(messages: map<string, Message>, ids: seq<string>, w: seq<Message>)
    requires WindowStored(messages, ids, w)
    ensures Lookup(messages, ids) == w
    decreases |ids|
  {
    if ids != [] {
      assert Holds(messages, ids[0], w[0]);
      LookupStored(messages, ids[1..], w[1..]);
      assert w == [w[0]] + w[1..];
    }
  }

  lemma {:induction false} LookupIsShort(messages: map<string, Message>, ids: seq<string>)
    ensures |Lookup(messages, ids)| <= |ids|
    decreases |ids|
  {
    if ids != [] {
      LookupIsShort(messages, ids[1..]);
    }
  }

  /** A lookup gives back a whole window only if each of its messages is stored as it was. */
  lemma {:induction false} LookupNeedsAll(messages: map<string, Message>, ids: seq<string>, w: seq<Message>)
    requires |ids| == |w| && Lookup(messages, ids) == w
    ensures forall i :: 0 <= i < |w| ==> Holds(messages, ids[i], w[i])
    decreases |ids|
  {
    if ids != [] {
      LookupIsShort(messages, ids[1..]);
      assert ids[0] in messages;
      LookupNeedsAll(messages, ids[1..], w[1..]);
      forall i | 0 <= i < |w| ensures Holds(messages, ids[i], w[i]) {
        if i > 0 {
          assert Holds(messages, ids[1..][i - 1], w[1..][i - 1]);
        }
      }
    }
  }

  lemma LastStored(messages: map<string, Message>, ids: seq<string>, w: seq<Message>, n: int)
    requires WindowStored(messages, ids, w)
    ensures Lookup(messages, Last(ids, n)) == Last(w, n)
  {
    var from := |ids| - |Last(ids, n)|;
    forall i | 0 <= i < |Last(w, n)| ensures Holds(messages, Last(ids, n)[i], Last(w, n)[i]) {
      assert Holds(messages, ids[from + i], w[from + i]);
    }
    LookupStored(messages, Last(ids, n), Last(w, n));
  }

  lemma StoredAgrees(s: Store, log: Log)
    requires AllStored(s, log)
    ensures Agree(s, log)
  {
    forall c: string, n: int ensures History(s, c, n) == Last(Window(log, c, s.max), n) {
      LastStored(s.messages, s.Ids(c), Window(log, c, s.max), n);
    }
  }

  /** With the right lists, the histories are right exactly when every listed message is stored
      as it was sent. */
  lemma AgreeIsStored(s: Store, log: Log)
    requires Aligned(s, log)
    ensures Agree(s, log) <==> AllStored(s, log)
  {
    if AllStored(s, log) {
      StoredAgrees(s, log);
    } else {
      var c :| !WindowStored(s.messages, s.Ids(c), Window(log, c, s.max));
      if History(s, c, s.max) == Last(Window(log, c, s.max), s.max) {
        assert Last(s.Ids(c), s.max) == s.Ids(c);
        LookupNeedsAll(s.messages, s.Ids(c), Window(log, c, s.max));
      }
    }
  }

  predicate Listed(s: Store, id: string) { exists c :: c in s.conversations && id in s.conversations[c].ids }

  /** The list of a context before the eviction, and how many IDs the eviction takes. */
  function Extended(s: Store, m: Message, c: string): seq<string> {
    s.Ids(c) + if m.contextID == Some(c) then [m.messageID] else []
  }

  function Evicts(s: Store, m: Message, c: string): nat {
    if m.contextID == Some(c) && |s.Ids(c)| >= s.max then 1 else 0
  }

  /** The ID that a store evicts. */
  function Evicted(s: Store, m: Message): Option<string> {
    if m.contextID.Some? && s.Ids(m.contextID.value) != [] && |s.Ids(m.contextID.value)| >= s.max
    then Some(s.Ids(m.contextID.value)[0]) else None
  }

  lemma StoredIds(s: Store, m: Message, now: int, c: string)
    requires s.max > 0
    ensures AfterStore(s, m, now).Ids(c) == Extended(s, m, c)[Evicts(s, m, c)..]
  {
  }

  lemma StoredMessages(s: Store, m: Message, now: int, id: string)
    requires s.max > 0
    ensures var after := AfterStore(s, m, now).messages;
      && (id in after <==> (id == m.messageID || id in s.messages) && Evicted(s, m) != Some(id))
      && (id in after ==> after[id] == if id == m.messageID then m else s.messages[id])
  {
  }

  /** A window after a message for its context (`mine`) or for another one. */
  function Grown(w: seq<Message>, m: Message, mine: bool, max: nat): seq<Message>
    requires max > 0
  {
    if !mine then w else if |w| < max then w + [m] else w[1..] + [m]
  }

  /** The window after one more message. */
  lemma WindowGrows(log: Log, m: Message, now: int, max: nat, c: string)
    requires max > 0
    ensures Window(LogStore(log, m, now), c, max) == Grown(Window(log, c, max), m, m.contextID == Some(c), max)
  {
  }

  lemma StoreMatches(s: Store, log: Log, m: Message, now: int)
    requires Matches(s, log)
    ensures Matches(AfterStore(s, m, now), LogStore(log, m, now))
  {
    var log' := LogStore(log, m, now);
    assert forall c :: Msgs(log', c) == Msgs(log, c) + if m.contextID == Some(c) then [m] else [];
  }

  lemma StoreAligns(s: Store, log: Log, m: Message, now: int)
    requires Aligned(s, log)
    ensures Aligned(AfterStore(s, m, now), LogStore(log, m, now))
  {
    var s', log' := AfterStore(s, m, now), LogStore(log, m, now);
    StoreMatches(s, log, m, now);
    forall c ensures SameIds(s'.Ids(c), Window(log', c, s.max)) {
      StoreAlignsList(s, log, m, now, c);
    }
  }

  lemma StoreAlignsList(s: Store, log: Log, m: Message, now: int, c: string)
    requires s.max > 0 && SameIds(s.Ids(c), Window(log, c, s.max))
    ensures SameIds(AfterStore(s, m, now).Ids(c), Window(LogStore(log, m, now), c, s.max))
  {
    StoredIds(s, m, now, c);
    WindowGrows(log, m, now, s.max, c);
  }

  lemma ExpiredLists(s: Store, log: Log, now: int, maxAge: int, c: string)
    requires Matches(s, log)
    ensures var s', log' := Expire(s, now, maxAge), LogExpire(log, now, maxAge);
      && Msgs(log', c) == (if c in log' then Msgs(log, c) else [])
      && s'.Ids(c) == (if c in log' then s.Ids(c) else [])
      && (c in log' <==> c in s.conversations && !Expired(s.conversations[c], now, maxAge))
  {
  }

  lemma ExpireMatches(s: Store, log: Log, now: int, maxAge: int)
    requires Matches(s, log)
    ensures Matches(Expire(s, now, maxAge), LogExpire(log, now, maxAge))
  {
    var log' := LogExpire(log, now, maxAge);
    assert forall c :: Msgs(log', c) == if c in log' then Msgs(log, c) else [];
  }

  lemma ExpireAligns(s: Store, log: Log, now: int, maxAge: int)
    requires Aligned(s, log)
    ensures Aligned(Expire(s, now, maxAge), LogExpire(log, now, maxAge))
  {
    ExpireMatches(s, log, now, maxAge);
    var s', log' := Expire(s, now, maxAge), LogExpire(log, now, maxAge);
    forall c ensures SameIds(s'.Ids(c), Window(log', c, s.max)) {
      assert SameIds(s.Ids(c), Window(log, c, s.max));
      ExpiredLists(s, log, now, maxAge, c);
    }
  }

  lemma TouchAligns(s: Store, log: Log, c: string, now: int)
    requires Aligned(s, log)
    ensures Aligned(Touch(s, c, now), LogTouch(log, c, now))
    ensures AllStored(Touch(s, c, now), LogTouch(log, c, now)) <==> AllStored(s, log)
  {
    var s', log' := Touch(s, c, now), LogTouch(log, c, now);
    assert forall d :: Msgs(log', d) == Msgs(log, d) && s'.Ids(d) == s.Ids(d);
    forall d ensures SameIds(s'.Ids(d), Window(log', d, s.max))
      ensures WindowStored(s'.messages, s'.Ids(d), Window(log', d, s.max))
         <==> WindowStored(s.messages, s.Ids(d), Window(log, d, s.max))
    {
      assert SameIds(s.Ids(d), Window(log, d, s.max));
    }
  }

  // ---------------------------------------------------------------------------------------
  // When a message is spoilt

  /** The store takes away what is kept under `id`, by eviction or by another message. */
  predicate Spoils(s: Store, m: Message, id: string) {
    Evicted(s, m) == Some(id) || (id == m.messageID && !Holds(s.messages, id, m))
  }

  /** A caller can tell beforehand whether a store keeps the histories right: no ID that stays
      in a window is spoilt, and the message stored is not the one evicted. */
  predicate StoreKeeps(s: Store, m: Message) {
    && (forall c, k :: c in s.conversations && Evicts(s, m, c) <= k < |s.Ids(c)| ==> !Spoils(s, m, s.Ids(c)[k]))
    && Evicted(s, m) != Some(m.messageID)
  }

  /** The same for an expiry: no ID that stays is in a window that goes. */
  predicate ExpireKeeps(s: Store, now: int, maxAge: int) {
    forall c, k :: c in s.conversations && !Expired(s.conversations[c], now, maxAge) && 0 <= k < |s.Ids(c)| ==>
      s.Ids(c)[k] !in IdsOf(s.conversations, ExpiredContexts(s, now, maxAge))
  }

  lemma KeptPosition(s: Store, log: Log, m: Message, now: int, c: string, k: nat)
    requires Aligned(s, log) && AllStored(s, log) && Evicts(s, m, c) <= k < |s.Ids(c)|
    ensures k < |Window(log, c, s.max)|
    ensures Holds(AfterStore(s, m, now).messages, s.Ids(c)[k], Window(log, c, s.max)[k]) <==> !Spoils(s, m, s.Ids(c)[k])
  {
    assert WindowStored(s.messages, s.Ids(c), Window(log, c, s.max));
    assert Holds(s.messages, s.Ids(c)[k], Window(log, c, s.max)[k]);
    StoredMessages(s, m, now, s.Ids(c)[k]);
  }

  /** One position of a window after a store: kept, or new. */
  lemma PositionAfter(s: Store, log: Log, m: Message, now: int, c: string, i: nat)
    requires Aligned(s, log) && i < |AfterStore(s, m, now).Ids(c)|
    ensures i < |Window(LogStore(log, m, now), c, s.max)|
    ensures var k := i + Evicts(s, m, c);
      var id, w := AfterStore(s, m, now).Ids(c)[i], Window(LogStore(log, m, now), c, s.max)[i];
      if k < |s.Ids(c)| then k < |Window(log, c, s.max)| && id == s.Ids(c)[k] && w == Window(log, c, s.max)[k]
      else id == m.messageID && w == m && m.contextID == Some(c)
  {
    assert SameIds(s.Ids(c), Window(log, c, s.max));
    StoredIds(s, m, now, c);
    ExtendedAt(s, m, c, i);
    WindowAfter(log, m, now, s.max, c, i);
  }

  lemma ExtendedAt(s: Store, m: Message, c: string, i: nat)
    requires s.max > 0 && i < |Extended(s, m, c)| - Evicts(s, m, c)
    ensures var id := Extended(s, m, c)[Evicts(s, m, c)..][i];
      if i + Evicts(s, m, c) < |s.Ids(c)| then id == s.Ids(c)[i + Evicts(s, m, c)]
      else id == m.messageID && m.contextID == Some(c)
  {
  }

  lemma WindowAfter(log: Log, m: Message, now: int, max: nat, c: string, i: nat)
    requires max > 0
    ensures var w, w' := Window(log, c, max), Window(LogStore(log, m, now), c, max);
      var k := i + if m.contextID == Some(c) && |w| >= max then 1 else 0;
      i < |w'| ==> w'[i] == if k < |w| then w[k] else m
    ensures var w, w' := Window(log, c, max), Window(LogStore(log, m, now), c, max);
      |w'| == |w| + if m.contextID == Some(c) && |w| < max then 1 else 0
  {
    WindowGrows(log, m, now, max, c);
    GrownAt(Window(log, c, max), m, m.contextID == Some(c), max, i);
  }

  lemma GrownAt(w: seq<Message>, m: Message, mine: bool, max: nat, i: nat)
    requires max > 0
    ensures var k := i + if mine && |w| >= max then 1 else 0;
      i < |Grown(w, m, mine, max)| ==> Grown(w, m, mine, max)[i] == if k < |w| then w[k] else m
    ensures |Grown(w, m, mine, max)| == |w| + if mine && |w| < max then 1 else 0
  {
  }

  lemma NewPosition(s: Store, m: Message, now: int)
    requires s.max > 0
    ensures Holds(AfterStore(s, m, now).messages, m.messageID, m) <==> Evicted(s, m) != Some(m.messageID)
  {
    StoredMessages(s, m, now, m.messageID);
  }

  lemma KeepingStore(s: Store, log: Log, m: Message, now: int, c: string, i: nat)
    requires Aligned(s, log) && AllStored(s, log) && StoreKeeps(s, m) && i < |AfterStore(s, m, now).Ids(c)|
    ensures i < |Window(LogStore(log, m, now), c, s.max)|
    ensures Holds(AfterStore(s, m, now).messages, AfterStore(s, m, now).Ids(c)[i],
                  Window(LogStore(log, m, now), c, s.max)[i])
  {
    PositionAfter(s, log, m, now, c, i);
    var k := i + Evicts(s, m, c);
    if k < |s.Ids(c)| {
      KeptPosition(s, log, m, now, c, k);
    } else {
      NewPosition(s, m, now);
    }
  }

  lemma KeepingStores(s: Store, log: Log, m: Message, now: int)
    requires Aligned(s, log) && AllStored(s, log) && StoreKeeps(s, m)
    ensures AllStored(AfterStore(s, m, now), LogStore(log, m, now))
  {
    var s', log' := AfterStore(s, m, now), LogStore(log, m, now);
    StoreAligns(s, log, m, now);
    forall c ensures WindowStored(s'.messages, s'.Ids(c), Window(log', c, s.max)) {
      assert SameIds(s'.Ids(c), Window(log', c, s.max));
      forall i | 0 <= i < |Window(log', c, s.max)| ensures Holds(s'.messages, s'.Ids(c)[i], Window(log', c, s.max)[i]) {
        KeepingStore(s, log, m, now, c, i);
      }
    }
  }

  /** A spoilt position shows in the window after the store. */
  lemma SpoiltPosition(s: Store, log: Log, m: Message, now: int, c: string, k: nat)
    requires Aligned(s, log) && AllStored(s, log) && Evicts(s, m, c) <= k < |s.Ids(c)| && Spoils(s, m, s.Ids(c)[k])
    ensures !AllStored(AfterStore(s, m, now), LogStore(log, m, now))
  {
    var s', log', i := AfterStore(s, m, now), LogStore(log, m, now), k - Evicts(s, m, c);
    StoredIds(s, m, now, c);
    PositionAfter(s, log, m, now, c, i);
    KeptPosition(s, log, m, now, c, k);
    assert !Holds(s'.messages, s'.Ids(c)[i], Window(log', c, s.max)[i]);
    assert !WindowStored(s'.messages, s'.Ids(c), Window(log', c, s.max));
  }

  lemma SpoiltItself(s: Store, log: Log, m: Message, now: int)
    requires Aligned(s, log) && Evicted(s, m) == Some(m.messageID)
    ensures !AllStored(AfterStore(s, m, now), LogStore(log, m, now))
  {
    var c, s', log' := m.contextID.value, AfterStore(s, m, now), LogStore(log, m, now);
    StoredIds(s, m, now, c);
    var i := |s'.Ids(c)| - 1;
    PositionAfter(s, log, m, now, c, i);
    NewPosition(s, m, now);
    assert !Holds(s'.messages, s'.Ids(c)[i], Window(log', c, s.max)[i]);
    assert !WindowStored(s'.messages, s'.Ids(c), Window(log', c, s.max));
  }

  /** One store leaves every history equal to the end of the log if and only if it spoils no ID
      that stays listed, whatever was stored before. */
  lemma StoreKeepsHistories(s: Store, log: Log, m: Message, now: int)
    requires Aligned(s, log) && Agree(s, log)
    ensures Agree(AfterStore(s, m, now), LogStore(log, m, now)) <==> StoreKeeps(s, m)
  {
    AgreeIsStored(s, log);
    StoreAligns(s, log, m, now);
    AgreeIsStored(AfterStore(s, m, now), LogStore(log, m, now));
    if StoreKeeps(s, m) {
      KeepingStores(s, log, m, now);
    } else if Evicted(s, m) == Some(m.messageID) {
      SpoiltItself(s, log, m, now);
    } else {
      var c, k :| c in s.conversations && Evicts(s, m, c) <= k < |s.Ids(c)| && Spoils(s, m, s.Ids(c)[k]);
      SpoiltPosition(s, log, m, now, c, k);
    }
  }

  lemma ExpiredMessages(s: Store, now: int, maxAge: int, id: string)
    ensures var after := Expire(s, now, maxAge).messages;
      && (id in after <==> id in s.messages && id !in IdsOf(s.conversations, ExpiredContexts(s, now, maxAge)))
      && (id in after ==> after[id] == s.messages[id])
  {
  }

  lemma KeepingExpiry(s: Store, log: Log, now: int, maxAge: int, c: string)
    requires Aligned(s, log) && AllStored(s, log) && ExpireKeeps(s, now, maxAge)
    ensures var s', log' := Expire(s, now, maxAge), LogExpire(log, now, maxAge);
      WindowStored(s'.messages, s'.Ids(c), Window(log', c, s.max))
  {
    var s', log' := Expire(s, now, maxAge), LogExpire(log, now, maxAge);
    ExpiredLists(s, log, now, maxAge, c);
    if c in log' {
      assert WindowStored(s.messages, s.Ids(c), Window(log, c, s.max));
      forall i | 0 <= i < |s.Ids(c)| ensures Holds(s'.messages, s.Ids(c)[i], Window(log, c, s.max)[i]) {
        assert Holds(s.messages, s.Ids(c)[i], Window(log, c, s.max)[i]);
        ExpiredMessages(s, now, maxAge, s.Ids(c)[i]);
      }
    }
  }

  lemma SpoilingExpiry(s: Store, log: Log, now: int, maxAge: int, c: string, k: nat)
    requires Aligned(s, log) && c in s.conversations && !Expired(s.conversations[c], now, maxAge) && k < |s.Ids(c)|
    requires s.Ids(c)[k] in IdsOf(s.conversations, ExpiredContexts(s, now, maxAge))
    ensures !AllStored(Expire(s, now, maxAge), LogExpire(log, now, maxAge))
  {
    var s', log' := Expire(s, now, maxAge), LogExpire(log, now, maxAge);
    ExpiredLists(s, log, now, maxAge, c);
    ExpiredMessages(s, now, maxAge, s.Ids(c)[k]);
    assert SameIds(s.Ids(c), Window(log, c, s.max));
    assert !Holds(s'.messages, s'.Ids(c)[k], Window(log', c, s.max)[k]);
    assert !WindowStored(s'.messages, s'.Ids(c), Window(log', c, s.max));
  }

  lemma ExpireKeepsHistories(s: Store, log: Log, now: int, maxAge: int)
    requires Aligned(s, log) && Agree(s, log)
    ensures Agree(Expire(s, now, maxAge), LogExpire(log, now, maxAge)) <==> ExpireKeeps(s, now, maxAge)
  {
    AgreeIsStored(s, log);
    ExpireAligns(s, log, now, maxAge);
    AgreeIsStored(Expire(s, now, maxAge), LogExpire(log, now, maxAge));
    if ExpireKeeps(s, now, maxAge) {
      KeepingExpiries(s, log, now, maxAge);
    } else {
      var c, k :| c in s.conversations && !Expired(s.conversations[c], now, maxAge) && 0 <= k < |s.Ids(c)|
        && s.Ids(c)[k] in IdsOf(s.conversations, ExpiredContexts(s, now, maxAge));
      SpoilingExpiry(s, log, now, maxAge, c, k);
    }
  }

  lemma KeepingExpiries(s: Store, log: Log, now: int, maxAge: int)
    requires Aligned(s, log) && AllStored(s, log) && ExpireKeeps(s, now, maxAge)
    ensures AllStored(Expire(s, now, maxAge), LogExpire(log, now, maxAge))
  {
    var s', log' := Expire(s, now, maxAge), LogExpire(log, now, maxAge);
    forall c ensures WindowStored(s'.messages, s'.Ids(c), Window(log', c, s.max)) {
      KeepingExpiry(s, log, now, maxAge, c);
    }
  }

  // ---------------------------------------------------------------------------------------
  // Fresh IDs

  /** No ID is listed twice, in one context or in two. */
  ghost predicate ListedOnce(s: Store) {
    forall c, d, i, j :: 0 <= i < |s.Ids(c)| && 0 <= j < |s.Ids(d)| && s.Ids(c)[i] == s.Ids(d)[j] ==> c == d && i == j
  }

  ghost predicate Refines(s: Store, log: Log) { Aligned(s, log) && AllStored(s, log) && ListedOnce(s) }

  lemma NotInIds(s: Store, id: string, c: string, i: nat)
    requires !Listed(s, id) && i < |s.Ids(c)|
    ensures s.Ids(c)[i] != id
  {
    assert s.Ids(c)[i] in s.Ids(c);
  }

  lemma StoreListsOneOnce(s: Store, m: Message, now: int, c: string, d: string, i: nat, j: nat)
    requires ListedOnce(s) && !Listed(s, m.messageID) && s.max > 0
    requires i < |AfterStore(s, m, now).Ids(c)| && j < |AfterStore(s, m, now).Ids(d)|
    requires AfterStore(s, m, now).Ids(c)[i] == AfterStore(s, m, now).Ids(d)[j]
    ensures c == d && i == j
  {
    StoredIds(s, m, now, c);
    StoredIds(s, m, now, d);
    var k, l := i + Evicts(s, m, c), j + Evicts(s, m, d);
    assert Extended(s, m, c)[k] == Extended(s, m, d)[l];
    if k < |s.Ids(c)| {
      NotInIds(s, m.messageID, c, k);
    }
    if l < |s.Ids(d)| {
      NotInIds(s, m.messageID, d, l);
    }
  }

  lemma StoreListsOnce(s: Store, m: Message, now: int)
    requires ListedOnce(s) && !Listed(s, m.messageID) && s.max > 0
    ensures ListedOnce(AfterStore(s, m, now))
  {
    var s' := AfterStore(s, m, now);
    forall c, d, i, j | 0 <= i < |s'.Ids(c)| && 0 <= j < |s'.Ids(d)| && s'.Ids(c)[i] == s'.Ids(d)[j]
      ensures c == d && i == j
    {
      StoreListsOneOnce(s, m, now, c, d, i, j);
    }
  }

  lemma EvictedIsGone(s: Store, m: Message, c: string, k: nat)
    requires ListedOnce(s) && Evicts(s, m, c) <= k < |s.Ids(c)|
    ensures Evicted(s, m) != Some(s.Ids(c)[k])
  {
  }

  /** An ID that no window lists spoils nothing, when no ID is listed twice. */
  lemma FreshStoresKeep(s: Store, m: Message)
    requires ListedOnce(s) && !Listed(s, m.messageID) && s.max > 0
    ensures StoreKeeps(s, m)
  {
    forall c, k | c in s.conversations && Evicts(s, m, c) <= k < |s.Ids(c)| ensures !Spoils(s, m, s.Ids(c)[k]) {
      NotInIds(s, m.messageID, c, k);
      EvictedIsGone(s, m, c, k);
    }
    if Evicted(s, m).Some? {
      NotInIds(s, m.messageID, m.contextID.value, 0);
    }
  }

  lemma ExpiriesKeep(s: Store, now: int, maxAge: int)
    requires ListedOnce(s)
    ensures ExpireKeeps(s, now, maxAge)
  {
    var gone := ExpiredContexts(s, now, maxAge);
    forall c, k | c in s.conversations && !Expired(s.conversations[c], now, maxAge) && 0 <= k < |s.Ids(c)|
      ensures s.Ids(c)[k] !in IdsOf(s.conversations, gone)
    {
      forall d | d in gone && d in s.conversations ensures s.Ids(c)[k] !in s.conversations[d].ids {
        assert s.Ids(d) == s.conversations[d].ids;
      }
    }
  }

  lemma StoreRefines(s: Store, log: Log, m: Message, now: int)
    requires Refines(s, log) && !Listed(s, m.messageID)
    ensures Refines(AfterStore(s, m, now), LogStore(log, m, now))
  {
    StoreAligns(s, log, m, now);
    FreshStoresKeep(s, m);
    KeepingStores(s, log, m, now);
    StoreListsOnce(s, m, now);
  }

  lemma TouchRefines(s: Store, log: Log, c: string, now: int)
    requires Refines(s, log)
    ensures Refines(Touch(s, c, now), LogTouch(log, c, now))
  {
    TouchAligns(s, log, c, now);
    assert forall d :: Touch(s, c, now).Ids(d) == s.Ids(d);
  }

  lemma ExpireRefines(s: Store, log: Log, now: int, maxAge: int)
    requires Refines(s, log)
    ensures Refines(Expire(s, now, maxAge), LogExpire(log, now, maxAge))
  {
    var s' := Expire(s, now, maxAge);
    ExpireAligns(s, log, now, maxAge);
    ExpiriesKeep(s, now, maxAge);
    KeepingExpiries(s, log, now, maxAge);
    forall c ensures s'.Ids(c) == [] || s'.Ids(c) == s.Ids(c) {
      ExpiredLists(s, log, now, maxAge, c);
    }
  }

  // ---------------------------------------------------------------------------------------
  // Runs

  datatype Op =
    | RequestOp(m: Message, freshID: string, freshContext: string, now: int)
    | ReplyOp(context: Option<string>, m: Message, freshID: string, freshContext: string, now: int)
    | ReadOp(c: string, now: int)
    | ExpireOp(now: int, maxAge: int)

  function Stored(op: Op): Option<Message> {
    match op
    case RequestOp(m, id, c, _) => Some(Request(m, id, c))
    case ReplyOp(context, m, id, c, _) => Some(Reply(context, m, id, c))
    case _ => None
  }

  function Apply(s: Store, op: Op): Store {
    match op
    case ReadOp(c, now) => Touch(s, c, now)
    case ExpireOp(now, maxAge) => Expire(s, now, maxAge)
    case _ => AfterStore(s, Stored(op).value, op.now)
  }

  function LogApply(log: Log, op: Op): Log {
    match op
    case ReadOp(c, now) => LogTouch(log, c, now)
    case ExpireOp(now, maxAge) => LogExpire(log, now, maxAge)
    case _ => LogStore(log, Stored(op).value, op.now)
  }

  function Run(s: Store, ops: seq<Op>): Store
    decreases |ops|
  {
    if ops == [] then s else Run(Apply(s, ops[0]), ops[1..])
  }

  function LogRun(log: Log, ops: seq<Op>): Log
    decreases |ops|
  {
    if ops == [] then log else LogRun(LogApply(log, ops[0]), ops[1..])
  }

  /** Every stored message comes with an ID the store does not hold at that moment. */
  predicate Fresh(s: Store, ops: seq<Op>)
    decreases |ops|
  {
    ops == [] ||
    (&& (Stored(ops[0]).Some? ==> Stored(ops[0]).value.messageID !in s.messages)
     && Fresh(Apply(s, ops[0]), ops[1..]))
  }

  lemma ListedIsStored(s: Store, log: Log, id: string)
    requires Refines(s, log) && Listed(s, id)
    ensures id in s.messages
  {
    var c :| c in s.conversations && id in s.conversations[c].ids;
    var i :| 0 <= i < |s.Ids(c)| && s.Ids(c)[i] == id;
    assert WindowStored(s.messages, s.Ids(c), Window(log, c, s.max));
    assert Holds(s.messages, s.Ids(c)[i], Window(log, c, s.max)[i]);
  }

  lemma ApplyRefines(s: Store, log: Log, op: Op)
    requires Refines(s, log)
    requires Stored(op).Some? ==> Stored(op).value.messageID !in s.messages
    ensures Refines(Apply(s, op), LogApply(log, op))
  {
    match op
    case ReadOp(c, now) => TouchRefines(s, log, c, now);
    case ExpireOp(now, maxAge) => ExpireRefines(s, log, now, maxAge);
    case _ =>
      var m := Stored(op).value;
      if Listed(s, m.messageID) { ListedIsStored(s, log, m.messageID); }
      StoreRefines(s, log, m, op.now);
  }

  lemma {:induction false} RunRefines(s: Store, log: Log, ops: seq<Op>)
    requires Refines(s, log) && Fresh(s, ops)
    ensures Refines(Run(s, ops), LogRun(log, ops)) && Run(s, ops).max == s.max
    decreases |ops|
  {
    if ops != [] {
      ApplyRefines(s, log, ops[0]);
      RunRefines(Apply(s, ops[0]), LogApply(log, ops[0]), ops[1..]);
    }
  }

  /** After any run with fresh IDs, a history read returns the last min(n, max, total) messages
      stored for its context since it last expired. */
  lemma HistoryIsTheEndOfTheLog(max: nat, ops: seq<Op>, c: string, n: int)
    requires max > 0 && Fresh(Store(map[], map[], max), ops)
    ensures History(Run(Store(map[], map[], max), ops), c, n) == Last(Last(Msgs(LogRun(map[], ops), c), max), n)
  {
    RunRefines(Store(map[], map[], max), map[], ops);
    StoredAgrees(Run(Store(map[], map[], max), ops), LogRun(map[], ops));
  }

  /** No operation of the run stores to the context, and none expires it. */
  predicate Spares(log: Log, ops: seq<Op>, c: string)
    decreases |ops|
  {
    ops == [] ||
    (&& (Stored(ops[0]).Some? ==> Stored(ops[0]).value.contextID != Some(c))
     && (ops[0].ExpireOp? && c in log ==> c in LogExpire(log, ops[0].now, ops[0].maxAge))
     && Spares(LogApply(log, ops[0]), ops[1..], c))
  }

  lemma {:induction false} SparedLog(log: Log, ops: seq<Op>, c: string)
    requires Spares(log, ops, c)
    ensures Msgs(LogRun(log, ops), c) == Msgs(log, c)
    decreases |ops|
  {
    if ops != [] {
      SparedLog(LogApply(log, ops[0]), ops[1..], c);
    }
  }

  /** Storing to, reading and expiring other contexts never changes what a context shows. */
  lemma OtherContextsDoNotInterfere(s: Store, log: Log, ops: seq<Op>, c: string, n: int)
    requires Refines(s, log) && Fresh(s, ops) && Spares(log, ops, c)
    ensures History(Run(s, ops), c, n) == History(s, c, n)
  {
    RunRefines(s, log, ops);
    StoredAgrees(s, log);
    StoredAgrees(Run(s, ops), LogRun(log, ops));
    SparedLog(log, ops, c);
  }

  // ---------------------------------------------------------------------------------------
  // Space: what is stored is what is listed

  ghost predicate AllListed(s: Store) { forall id :: id in s.messages ==> Listed(s, id) }

  lemma ListedIn(s: Store, c: string, i: nat)
    requires i < |s.Ids(c)|
    ensures Listed(s, s.Ids(c)[i])
  {
  }

  lemma StoreAllListed(s: Store, m: Message, now: int)
    requires AllListed(s) && s.max > 0 && m.contextID.Some?
    ensures AllListed(AfterStore(s, m, now))
  {
    var s' := AfterStore(s, m, now);
    var context := m.contextID.value;
    forall id | id in s'.messages ensures Listed(s', id) {
      StoredMessages(s, m, now, id);
      if id == m.messageID {
        StoredIds(s, m, now, context);
        ListedIn(s', context, |s'.Ids(context)| - 1);
      } else {
        var c :| c in s.conversations && id in s.conversations[c].ids;
        StoredIds(s, m, now, c);
        var i :| 0 <= i < |s.Ids(c)| && s.Ids(c)[i] == id;
        assert Extended(s, m, c)[i] == id;
        if i >= Evicts(s, m, c) {
          ListedIn(s', c, i - Evicts(s, m, c));
        }
      }
    }
  }

  lemma ApplyAllListed(s: Store, op: Op)
    requires AllListed(s) && s.max > 0
    ensures AllListed(Apply(s, op))
  {
    match op
    case ReadOp(c, now) =>
      forall id | id in s.messages ensures Listed(Touch(s, c, now), id) {
        var d :| d in s.conversations && id in s.conversations[d].ids;
        assert Touch(s, c, now).conversations[d].ids == s.conversations[d].ids;
      }
    case ExpireOp(now, maxAge) =>
      var s' := Expire(s, now, maxAge);
      forall id | id in s'.messages ensures Listed(s', id) {
        var d :| d in s.conversations && id in s.conversations[d].ids;
        assert d in s'.conversations;
      }
    case _ => StoreAllListed(s, Stored(op).value, op.now);
  }

  lemma {:induction false} RunAllListed(s: Store, ops: seq<Op>)
    requires AllListed(s) && s.max > 0
    ensures AllListed(Run(s, ops))
    decreases |ops|
  {
    if ops != [] {
      ApplyAllListed(s, ops[0]);
      RunAllListed(Apply(s, ops[0]), ops[1..]);
    }
  }

  /** The lengths of the listed contexts, added up. */
  function TotalLength(s: Store, contexts: seq<string>): nat {
    if contexts == [] then 0 else |s.Ids(contexts[0])| + TotalLength(s, contexts[1..])
  }

  /** The contexts of the store, each once, in some order. */
  ghost predicate Enumerates(contexts: seq<string>, s: Store) {
    && (forall i, j :: 0 <= i < j < |contexts| ==> contexts[i] != contexts[j])
    && (forall c :: c in contexts <==> c in s.conversations)
  }

  ghost function IdsAmong(s: Store, contexts: seq<string>): set<string>
    decreases |contexts|
  {
    if contexts == [] then {} else Elements(s.Ids(contexts[0])) + IdsAmong(s, contexts[1..])
  }

  lemma {:induction false} InIdsAmong(s: Store, contexts: seq<string>, id: string)
    ensures id in IdsAmong(s, contexts) <==> exists k :: 0 <= k < |contexts| && id in s.Ids(contexts[k])
    decreases |contexts|
  {
    if contexts != [] {
      InIdsAmong(s, contexts[1..], id);
      assert forall k :: 0 < k < |contexts| ==> contexts[k] == contexts[1..][k - 1];
    }
  }

  lemma {:induction false} AmongCount(s: Store, contexts: seq<string>)
    requires ListedOnce(s)
    requires forall i, j :: 0 <= i < j < |contexts| ==> contexts[i] != contexts[j]
    ensures |IdsAmong(s, contexts)| == TotalLength(s, contexts)
    decreases |contexts|
  {
    if contexts != [] {
      AmongCount(s, contexts[1..]);
      DistinctCount(s.Ids(contexts[0]));
      forall id | id in s.Ids(contexts[0]) ensures id !in IdsAmong(s, contexts[1..]) {
        InIdsAmong(s, contexts[1..], id);
      }
    }
  }

  lemma ListedAmong(s: Store, contexts: seq<string>, id: string)
    requires Enumerates(contexts, s) && Listed(s, id)
    ensures id in IdsAmong(s, contexts)
  {
    var c :| c in s.conversations && id in s.conversations[c].ids;
    var k :| 0 <= k < |contexts| && contexts[k] == c;
    assert id in s.Ids(contexts[k]);
    InIdsAmong(s, contexts, id);
  }

  lemma StoredAmong(s: Store, log: Log, contexts: seq<string>, id: string)
    requires Refines(s, log) && AllListed(s) && Enumerates(contexts, s)
    ensures id in s.messages <==> id in IdsAmong(s, contexts)
  {
    InIdsAmong(s, contexts, id);
    if Listed(s, id) {
      ListedAmong(s, contexts, id);
    }
    if k: nat :| k < |contexts| && id in s.Ids(contexts[k]) {
      assert Listed(s, id);
      ListedIsStored(s, log, id);
    }
  }

  lemma AllAreListed(s: Store, log: Log, contexts: seq<string>)
    requires Refines(s, log) && AllListed(s) && Enumerates(contexts, s)
    ensures s.messages.Keys == IdsAmong(s, contexts) && |s.messages| == TotalLength(s, contexts)
  {
    forall id ensures id in s.messages <==> id in IdsAmong(s, contexts) {
      StoredAmong(s, log, contexts, id);
    }
    AmongCount(s, contexts);
    assert |s.messages| == |s.messages.Keys|;
  }

  lemma WindowsAreShort(s: Store, log: Log, c: string)
    requires Refines(s, log)
    ensures |s.Ids(c)| <= s.max
  {
    assert WindowStored(s.messages, s.Ids(c), Window(log, c, s.max));
  }

  /** After any run with fresh IDs: no ID is listed twice; the stored messages are exactly the
      listed ones, so there are as many as the windows are long; and no window exceeds the
      maximum. */
  lemma StoredIsListed(max: nat, ops: seq<Op>, contexts: seq<string>)
    requires max > 0 && Fresh(Store(map[], map[], max), ops)
    requires Enumerates(contexts, Run(Store(map[], map[], max), ops))
    ensures var s := Run(Store(map[], map[], max), ops);
      && ListedOnce(s)
      && s.messages.Keys == IdsAmong(s, contexts)
      && |s.messages| == TotalLength(s, contexts)
      && forall c :: |s.Ids(c)| <= max
  {
    var empty := Store(map[], map[], max);
    var s, log := Run(empty, ops), LogRun(map[], ops);
    RunRefines(empty, map[], ops);
    RunAllListed(empty, ops);
    AllAreListed(s, log, contexts);
    forall c ensures |s.Ids(c)| <= max {
      WindowsAreShort(s, log, c);
    }
  }

  // ---------------------------------------------------------------------------------------
  // Any IDs: exactly when the histories stay right

  predicate Keeps(s: Store, op: Op) {
    match op
    case ReadOp(_, _) => true
    case ExpireOp(now, maxAge) => ExpireKeeps(s, now, maxAge)
    case _ => StoreKeeps(s, Stored(op).value)
  }

  lemma ApplyAligns(s: Store, log: Log, op: Op)
    requires Aligned(s, log)
    ensures Aligned(Apply(s, op), LogApply(log, op))
  {
    match op
    case ReadOp(c, now) => TouchAligns(s, log, c, now);
    case ExpireOp(now, maxAge) => ExpireAligns(s, log, now, maxAge);
    case _ => StoreAligns(s, log, Stored(op).value, op.now);
  }

  lemma ApplyKeepsHistories(s: Store, log: Log, op: Op)
    requires Aligned(s, log) && Agree(s, log)
    ensures Agree(Apply(s, op), LogApply(log, op)) <==> Keeps(s, op)
  {
    match op
    case ReadOp(c, now) =>
      AgreeIsStored(s, log);
      TouchAligns(s, log, c, now);
      StoredAgrees(Touch(s, c, now), LogTouch(log, c, now));
    case ExpireOp(now, maxAge) => ExpireKeepsHistories(s, log, now, maxAge);
    case _ => StoreKeepsHistories(s, log, Stored(op).value, op.now);
  }

  /** The histories are right now and after every operation of the run. */
  ghost predicate AlwaysAgree(s: Store, log: Log, ops: seq<Op>)
    decreases |ops|
  {
    Agree(s, log) && (ops == [] || AlwaysAgree(Apply(s, ops[0]), LogApply(log, ops[0]), ops[1..]))
  }

  predicate AlwaysKeeps(s: Store, ops: seq<Op>)
    decreases |ops|
  {
    ops == [] || (Keeps(s, ops[0]) && AlwaysKeeps(Apply(s, ops[0]), ops[1..]))
  }

  lemma {:induction false} AlwaysAgreeFrom(s: Store, log: Log, ops: seq<Op>)
    requires Aligned(s, log) && Agree(s, log)
    ensures AlwaysAgree(s, log, ops) <==> AlwaysKeeps(s, ops)
    decreases |ops|
  {
    if ops != [] {
      ApplyKeepsHistories(s, log, ops[0]);
      if Keeps(s, ops[0]) {
        ApplyAligns(s, log, ops[0]);
        AlwaysAgreeFrom(Apply(s, ops[0]), LogApply(log, ops[0]), ops[1..]);
      }
    }
  }

  /** On any run, with IDs repeated or not, every history read is the end of the log all the way
      if and only if each operation spoils no ID that stays listed. */
  lemma HistoriesStayRight(max: nat, ops: seq<Op>)
    requires max > 0
    ensures AlwaysAgree(Store(map[], map[], max), map[], ops) <==> AlwaysKeeps(Store(map[], map[], max), ops)
  {
    StoredAgrees(Store(map[], map[], max), map[]);
    AlwaysAgreeFrom(Store(map[], map[], max), map[], ops);
  }

  /** The store after a message was sent twice with room for two. */
  function SentTwice(m: Message): Store { AfterStore(AfterStore(Store(map[], map[], 2), m, 0), m, 1) }

  lemma LookupTwo(messages: map<string, Message>, a: string, b: string)
    ensures Lookup(messages, [a, b])
         == (if a in messages then [messages[a]] else []) + (if b in messages then [messages[b]] else [])
  {
    assert [a, b][1..] == [b] && [b][1..] == [];
    assert Lookup(messages, [b]) == (if b in messages then [messages[b]] else []) + Lookup(messages, []);
  }

  lemma SecondCopyIsHarmless(m: Message)
    requires m.contextID == Some("c")
    ensures StoreKeeps(AfterStore(Store(map[], map[], 2), m, 0), m)
    ensures SentTwice(m).Ids("c") == [m.messageID, m.messageID] && SentTwice(m).messages == map[m.messageID := m]
    ensures History(SentTwice(m), "c", 2) == [m, m]
  {
    var once, twice := AfterStore(Store(map[], map[], 2), m, 0), SentTwice(m);
    var ids := [m.messageID, m.messageID];
    assert once.Ids("c") == [m.messageID] && twice.Ids("c") == ids;
    assert Last(ids, 2) == ids;
    LookupTwo(twice.messages, m.messageID, m.messageID);
  }

  /** Sending a message twice with room for two is harmless; the next message, though its ID is
      new, then evicts the first copy and with it the second. */
  lemma FreshIDLosesARepeatedMessage(m: Message, x: Message)
    requires m.contextID == x.contextID == Some("c") && m.messageID != x.messageID
    ensures !Listed(SentTwice(m), x.messageID) && !StoreKeeps(SentTwice(m), x)
    ensures History(AfterStore(SentTwice(m), x, 2), "c", 2) == [x]
  {
    SecondCopyIsHarmless(m);
    var twice, last := SentTwice(m), AfterStore(SentTwice(m), x, 2);
    var ids := [m.messageID, x.messageID];
    assert Spoils(twice, x, twice.Ids("c")[1]);
    assert twice.conversations.Keys == {"c"};
    assert last.Ids("c") == ids && last.messages == map[x.messageID := x];
    assert Last(ids, 2) == ids;
    LookupTwo(last.messages, m.messageID, x.messageID);
  }

  /** With room for one message, sending an ID a second time loses the message. */
  lemma RepeatedIDLosesTheMessage(m: Message)
    requires m.contextID == Some("c")
    ensures var s := AfterStore(AfterStore(Store(map[], map[], 1), m, 0), m, 1);
      && s.Ids("c") == [m.messageID]
      && History(s, "c", 1) == []
      && Window(LogStore(LogStore(map[], m, 0), m, 1), "c", 1) == [m]
  {
    var s1 := AfterStore(Store(map[], map[], 1), m, 0);
    var s2 := AfterStore(s1, m, 1);
    assert s1.Ids("c") == [m.messageID];
    assert s2.Ids("c") == [m.messageID] && m.messageID !in s2.messages;
    assert Last(s2.Ids("c"), 1) == [m.messageID] && [m.messageID][1..] == [];
    assert Lookup(s2.messages, [m.messageID]) == [];
  }

  /** A read, and a store, keep a conversation alive: an expiry that comes no later than the limit
      after it leaves the list of the context as it is. */
  lemma UseKeepsAlive(s: Store, op: Op, c: string, later: int, maxAge: int)
    requires later - op.now <= maxAge
    requires (op.ReadOp? && op.c == c && c in s.conversations)
          || (Stored(op).Some? && Stored(op).value.contextID == Some(c))
    ensures Apply(Apply(s, op), ExpireOp(later, maxAge)).Ids(c) == Apply(s, op).Ids(c)
    ensures c in Apply(Apply(s, op), ExpireOp(later, maxAge)).conversations
  {
  }

  /** An unused one goes with all it lists. */
  lemma DisuseExpires(s: Store, c: string, later: int, maxAge: int)
    requires c in s.conversations && later - s.conversations[c].lastAccess > maxAge
    ensures var s' := Apply(s, ExpireOp(later, maxAge));
      c !in s'.conversations && forall id :: id in s.Ids(c) ==> id !in s'.messages
  {
  }
}
