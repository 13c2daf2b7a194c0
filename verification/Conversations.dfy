/**
 The conversation store of the in-memory task manager: every message by its ID, and for every
 context the window of its latest message IDs.  Times are integers.
 */
module Conversations {
  import opened Wrappers
  import opened Protocol

  datatype Conversation = Conversation(ids: seq<string>, lastAccess: int)

  datatype Store = Store(messages: map<string, Message>, conversations: map<string, Conversation>, max: nat) {
    function Ids(context: string): seq<string> {
      if context in conversations then conversations[context].ids else []
    }
  }

  // ---------------------------------------------------------------------------------------
  // What each operation does to the store

  function AfterStore(s: Store, m: Message, now: int): Store {
    var messages := s.messages[m.messageID := m];
    if m.contextID.None? then s.(messages := messages)
    else
      var ids := s.Ids(m.contextID.value) + [m.messageID];
      var evict := |ids| > s.max;
      s.(messages := if evict then messages - {ids[0]} else messages,
         conversations := s.conversations[m.contextID.value := Conversation(if evict then ids[1..] else ids, now)])
  }

  /** The messages of the listed IDs that are still stored, in order. */
  function Lookup(messages: map<string, Message>, ids: seq<string>): seq<Message> {
    if ids == [] then []
    else (if ids[0] in messages then [messages[ids[0]]] else []) + Lookup(messages, ids[1..])
  }

  /** The last `n` elements, all when there are fewer, none when `n` is negative. */
  function Last<T>(xs: seq<T>, n: int): seq<T> {
    if n >= |xs| then xs else if n <= 0 then [] else xs[|xs| - n..]
  }

  function History(s: Store, context: string, length: int): seq<Message> {
    Lookup(s.messages, Last(s.Ids(context), length))
  }

  function Touch(s: Store, context: string, now: int): Store {
    if context in s.conversations then
      s.(conversations := s.conversations[context := s.conversations[context].(lastAccess := now)])
    else s
  }

  predicate Expired(c: Conversation, now: int, maxAge: int) { now - c.lastAccess > maxAge }

  function ExpiredContexts(s: Store, now: int, maxAge: int): set<string> {
    set c | c in s.conversations && Expired(s.conversations[c], now, maxAge)
  }

  /** The IDs listed in any of the given contexts. */
  function IdsOf(conversations: map<string, Conversation>, contexts: set<string>): set<string> {
    set c, id | c in contexts && c in conversations && id in conversations[c].ids :: id
  }

  lemma IdsOfOneMore(conversations: map<string, Conversation>, contexts: set<string>, c: string)
    requires c in conversations
    ensures IdsOf(conversations, contexts + {c}) == IdsOf(conversations, contexts) + Elements(conversations[c].ids)
  {
    var more := IdsOf(conversations, contexts + {c});
    assert forall id :: id in more <==> id in IdsOf(conversations, contexts) || id in conversations[c].ids;
  }

  function Expire(s: Store, now: int, maxAge: int): Store {
    var gone := ExpiredContexts(s, now, maxAge);
    s.(conversations := s.conversations - gone, messages := s.messages - IdsOf(s.conversations, gone))
  }

  /** A request keeps its own context; a generated ID or context fills in what is missing. */
  function Request(m: Message, freshID: string, freshContext: string): Message {
    m.(messageID := if m.messageID == "" then freshID else m.messageID,
       contextID := if m.contextID.None? || m.contextID.value == "" then Some(freshContext) else m.contextID)
  }

  /** A reply gets the context it answers in. */
  function Reply(context: Option<string>, m: Message, freshID: string, freshContext: string): Message {
    Request(m.(contextID := context, role := "agent"), freshID, freshContext)
  }

  // ---------------------------------------------------------------------------------------
  // Where messages go

  /** The ID and the context that a message is given when it has none. */
  predicate FilledFrom(filled: Message, m: Message, context: Option<string>, freshID: string, freshContext: string) {
    && filled.messageID == (if m.messageID == "" then freshID else m.messageID)
    && filled.contextID == (if context == None || context == Some("") then Some(freshContext) else context)
    && filled.kind == m.kind && filled.parts == m.parts && filled.metadata == m.metadata
    && filled.extensions == m.extensions && filled.referenceTaskIDs == m.referenceTaskIDs && filled.taskID == m.taskID
  }

  lemma {:induction false} LookupLast(messages: map<string, Message>, ids: seq<string>, id: string)
    requires id in messages
    ensures Lookup(messages, ids + [id]) == Lookup(messages, ids) + [messages[id]]
    decreases |ids|
  {
    if ids == [] {
      assert ids + [id] == [id] && [id][1..] == [];
    } else {
      var first, rest := if ids[0] in messages then [messages[ids[0]]] else [], Lookup(messages, ids[1..]);
      LookupLast(messages, ids[1..], id);
      assert (ids + [id])[0] == ids[0] && (ids + [id])[1..] == ids[1..] + [id];
      assert Lookup(messages, ids + [id]) == first + Lookup(messages, ids[1..] + [id]);
      assert first + (rest + [messages[id]]) == (first + rest) + [messages[id]];
    }
  }

  /** A message whose ID its context does not list is the last one that every read of that context
      returns; other contexts list what they did. */
  lemma StoredIsLast(s: Store, m: Message, now: int, c: string, n: int)
    requires m.contextID == Some(c) && m.messageID !in s.Ids(c) && s.max > 0 && n > 0
    ensures var h := History(AfterStore(s, m, now), c, n); h != [] && h[|h| - 1] == m
    ensures forall other :: other != c ==> AfterStore(s, m, now).Ids(other) == s.Ids(other)
  {
    var s' := AfterStore(s, m, now);
    var ids := Last(s'.Ids(c), n);
    assert s'.Ids(c)[|s'.Ids(c)| - 1] == m.messageID;
    assert ids == ids[..|ids| - 1] + [m.messageID];
    LookupLast(s'.messages, ids[..|ids| - 1], m.messageID);
  }

  /** A reply goes to the context it answers in, whatever context it carried, with the role of the
      agent; only without one does it get a new context. */
  lemma RepliesGoToTheirContext(s: Store, context: Option<string>, m: Message, freshID: string, freshContext: string,
                                now: int, n: int)
    requires s.max > 0 && n > 0
    ensures var filled := Reply(context, m, freshID, freshContext);
      && FilledFrom(filled, m, context, freshID, freshContext) && filled.role == "agent"
      && (context.Some? && context.value != "" && filled.messageID !in s.Ids(context.value) ==>
            var h := History(AfterStore(s, filled, now), context.value, n);
            h != [] && h[|h| - 1] == filled && filled.contextID == context)
  {
    var filled := Reply(context, m, freshID, freshContext);
    if context.Some? && context.value != "" && filled.messageID !in s.Ids(context.value) {
      StoredIsLast(s, filled, now, context.value, n);
    }
  }

  /** A request keeps its context and its role, and is stored unchanged when it is complete. */
  lemma RequestsStayInTheirContext(s: Store, m: Message, freshID: string, freshContext: string, now: int, n: int)
    requires s.max > 0 && n > 0
    ensures var filled := Request(m, freshID, freshContext);
      && FilledFrom(filled, m, m.contextID, freshID, freshContext) && filled.role == m.role
      && (m.messageID != "" && m.contextID.Some? && m.contextID.value != "" ==> filled == m)
      && (m.contextID.Some? && m.contextID.value != "" && filled.messageID !in s.Ids(m.contextID.value) ==>
            var h := History(AfterStore(s, filled, now), m.contextID.value, n);
            h != [] && h[|h| - 1] == filled && filled.contextID == m.contextID)
  {
    var filled := Request(m, freshID, freshContext);
    if m.contextID.Some? && m.contextID.value != "" && filled.messageID !in s.Ids(m.contextID.value) {
      StoredIsLast(s, filled, now, m.contextID.value, n);
    }
  }

  // ---------------------------------------------------------------------------------------
  // The fields of the manager that its conversation lock protects

  class MemoryConversations {
    var messages: map<string, Message>
    var conversations: map<string, Conversation>
    const maxHistoryLength: nat

    constructor (maxHistoryLength: nat)
      requires maxHistoryLength > 0
      ensures State() == Store(map[], map[], maxHistoryLength)
    {
      this.messages, this.conversations, this.maxHistoryLength := map[], map[], maxHistoryLength;
    }

    function State(): Store
      reads this
    {
      Store(messages, conversations, maxHistoryLength)
    }

    method StoreMessage(message: Message, now: int)
      modifies this
      ensures State() == AfterStore(old(State()), message, now)
    {
      messages := messages[message.messageID := message];
      if message.contextID.Some? {
        var contextID := message.contextID.value;
        if contextID !in conversations {
          conversations := conversations[contextID := Conversation([], now)];
        }
        var c := conversations[contextID];
        conversations := conversations[contextID := Conversation(c.ids + [message.messageID], now)];
        c := conversations[contextID];
        if |c.ids| > maxHistoryLength {
          var removed := c.ids[0];
          conversations := conversations[contextID := c.(ids := c.ids[1..])];
          messages := messages - {removed};
        }
      }
    }

    /** Appends the stored messages of `ids` to a list, one by one. */
    method Collect(ids: seq<string>, start: nat) returns (history: seq<Message>)
      requires start <= |ids|
      ensures history == Lookup(messages, ids[start..])
    {
      history := [];
      for i := start to |ids|
        invariant history + Lookup(messages, ids[i..]) == Lookup(messages, ids[start..])
      {
        assert ids[i..][1..] == ids[i + 1..];
        var found := if ids[i] in messages then [messages[ids[i]]] else [];
        assert (history + found) + Lookup(messages, ids[i + 1..]) == history + (found + Lookup(messages, ids[i + 1..]));
        if ids[i] in messages {
          history := history + [messages[ids[i]]];
        } else {
          assert history + found == history;
        }
      }
    }

    method GetConversationHistory(contextID: string, length: int, now: int) returns (history: seq<Message>)
      modifies this
      ensures history == History(old(State()), contextID, length)
      ensures State() == Touch(old(State()), contextID, now)
    {
      history := [];
      if contextID in conversations {
        conversations := conversations[contextID := conversations[contextID].(lastAccess := now)];
        var ids := conversations[contextID].ids;
        var start := if |ids| > length then |ids| - length else 0;
        if start <= |ids| {
          history := Collect(ids, start);
        }
        assert (if start <= |ids| then ids[start..] else []) == Last(ids, length);
      }
    }

    /** The handler's view: the whole window of the context of the message being processed. */
    method GetMessageHistory(messageID: string, now: int) returns (history: seq<Message>)
      modifies this
      ensures messageID in old(messages) && old(messages)[messageID].contextID.Some?
              && old(messages)[messageID].contextID.value != "" ==>
                var context := old(messages)[messageID].contextID.value;
                && history == History(old(State()), context, |old(State()).Ids(context)|)
                && State() == Touch(old(State()), context, now)
      ensures !(messageID in old(messages) && old(messages)[messageID].contextID.Some?
                && old(messages)[messageID].contextID.value != "") ==>
                history == [] && State() == old(State())
    {
      history := [];
      if messageID !in messages || messages[messageID].contextID.None? || messages[messageID].contextID.value == "" {
        return;
      }
      var contextID := messages[messageID].contextID.value;
      if contextID in conversations {
        conversations := conversations[contextID := conversations[contextID].(lastAccess := now)];
        var ids := conversations[contextID].ids;
        history := Collect(ids, 0);
        assert ids[0..] == ids;
      }
    }

    /** The expired contexts and the IDs they list, in no particular order of contexts. */
    method FindExpired(now: int, maxAge: int) returns (contexts: seq<string>, ids: seq<string>)
      ensures Elements(contexts) == ExpiredContexts(State(), now, maxAge)
      ensures |contexts| == |ExpiredContexts(State(), now, maxAge)|
      ensures Elements(ids) == IdsOf(conversations, Elements(contexts))
    {
      var keys := conversations.Keys;
      contexts, ids := [], [];
      ghost var expired: set<string> := {};
      while keys != {}
        invariant keys <= conversations.Keys
        invariant expired == set c | c in conversations.Keys - keys && Expired(conversations[c], now, maxAge)
        invariant expired == Elements(contexts) && |expired| == |contexts|
        invariant Elements(ids) == IdsOf(conversations, expired)
        decreases keys
      {
        var contextID :| contextID in keys;
        keys := keys - {contextID};
        if Expired(conversations[contextID], now, maxAge) {
          IdsOfOneMore(conversations, expired, contextID);
          contexts := contexts + [contextID];
          ids := ids + conversations[contextID].ids;
          expired := expired + {contextID};
        }
      }
      assert expired == ExpiredContexts(State(), now, maxAge);
    }

    method CleanExpiredConversations(now: int, maxAge: int) returns (count: nat)
      modifies this
      ensures State() == Expire(old(State()), now, maxAge)
      ensures count == |ExpiredContexts(old(State()), now, maxAge)|
    {
      var expiredContexts, expiredMessageIDs := FindExpired(now, maxAge);
      for i := 0 to |expiredContexts|
        invariant conversations == old(conversations) - Elements(expiredContexts[..i])
        invariant messages == old(messages)
      {
        conversations := conversations - {expiredContexts[i]};
      }
      assert expiredContexts[..|expiredContexts|] == expiredContexts;
      for i := 0 to |expiredMessageIDs|
        invariant messages == old(messages) - Elements(expiredMessageIDs[..i])
        invariant conversations == old(conversations) - Elements(expiredContexts)
      {
        messages := messages - {expiredMessageIDs[i]};
      }
      assert expiredMessageIDs[..|expiredMessageIDs|] == expiredMessageIDs;
      count := |expiredContexts|;
    }

    method ProcessRequestMessage(message: Message, freshID: string, freshContext: string, now: int)
      returns (filled: Message)
      modifies this
      ensures filled == Request(message, freshID, freshContext)
      ensures FilledFrom(filled, message, message.contextID, freshID, freshContext) && filled.role == message.role
      ensures State() == AfterStore(old(State()), filled, now)
      ensures filled.contextID.Some? && filled.messageID !in old(State()).Ids(filled.contextID.value)
              && maxHistoryLength > 0 ==>
                var h := History(State(), filled.contextID.value, maxHistoryLength);
                h != [] && h[|h| - 1] == filled
    {
      filled := message;
      if filled.messageID == "" {
        filled := filled.(messageID := freshID);
      }
      if filled.contextID.None? || filled.contextID.value == "" {
        filled := filled.(contextID := Some(freshContext));
      }
      StoreMessage(filled, now);
      if maxHistoryLength > 0 && filled.messageID !in old(State()).Ids(filled.contextID.value) {
        StoredIsLast(old(State()), filled, now, filled.contextID.value, maxHistoryLength);
      }
    }

    method ProcessReplyMessage(contextID: Option<string>, message: Message, freshID: string, freshContext: string,
                               now: int)
      returns (filled: Message)
      modifies this
      ensures filled == Reply(contextID, message, freshID, freshContext)
      ensures FilledFrom(filled, message, contextID, freshID, freshContext) && filled.role == "agent"
      ensures State() == AfterStore(old(State()), filled, now)
      ensures filled.contextID.Some? && filled.messageID !in old(State()).Ids(filled.contextID.value)
              && maxHistoryLength > 0 ==>
                var h := History(State(), filled.contextID.value, maxHistoryLength);
                h != [] && h[|h| - 1] == filled
    {
      filled := message.(contextID := contextID, role := "agent");
      if filled.messageID == "" {
        filled := filled.(messageID := freshID);
      }
      if filled.contextID.None? || filled.contextID.value == "" {
        filled := filled.(contextID := Some(freshContext));
      }
      StoreMessage(filled, now);
      if maxHistoryLength > 0 && filled.messageID !in old(State()).Ids(filled.contextID.value) {
        StoredIsLast(old(State()), filled, now, filled.contextID.value, maxHistoryLength);
      }
    }
  }
}
