/**
 The conversation window of the Redis task manager: messages as encoded values, one list of IDs
 for each context, kept short with a trim after every push.  Values and lists expire, and any
 command may fail, executed or not.  Times are integers; a call happens at one time.
 */
module RedisConversations {
  import opened Wrappers
  import opened Protocol

  const MESSAGE_PREFIX := "msg:"
  const CONVERSATION_PREFIX := "conv:"

  /** What a key holds, until its deadline. */
  datatype Entry<T> = Entry(value: T, deadline: Option<int>) {
    predicate Alive(now: int) { deadline.None? || now < deadline.value }
  }

  datatype Redis<V> = Redis(values: map<string, Entry<V>>, lists: map<string, Entry<seq<string>>>) {
    predicate HasValue(key: string, now: int) { key in values && values[key].Alive(now) }

    predicate HasList(key: string, now: int) { key in lists && lists[key].Alive(now) }

    function List(key: string, now: int): seq<string> { if HasList(key, now) then lists[key].value else [] }
  }

  // ---------------------------------------------------------------------------------------
  // What each command does; keys past their deadline are as if they were not there

  function SetValue<V>(r: Redis<V>, key: string, value: V, ttl: int, now: int): Redis<V> {
    r.(values := r.values[key := Entry(value, Some(now + ttl))])
  }

  /** A push keeps the deadline of the list; a new list has none. */
  function Push<V>(r: Redis<V>, key: string, id: string, now: int): Redis<V> {
    var deadline := if r.HasList(key, now) then r.lists[key].deadline else None;
    r.(lists := r.lists[key := Entry(r.List(key, now) + [id], deadline)])
  }

  function Renew<V>(r: Redis<V>, key: string, ttl: int, now: int): Redis<V> {
    if r.HasList(key, now) then r.(lists := r.lists[key := r.lists[key].(deadline := Some(now + ttl))]) else r
  }

  /** Both bounds are inclusive and count from the end when negative. */
  function Slice(list: seq<string>, start: int, stop: int): seq<string> {
    var from := if start >= 0 then start else if |list| + start < 0 then 0 else |list| + start;
    var to := if stop >= 0 then stop else |list| + stop;
    var last := if to >= |list| then |list| - 1 else to;
    if from > last then [] else list[from..last + 1]
  }

  function Trim<V>(r: Redis<V>, key: string, start: int, stop: int, now: int): Redis<V> {
    var kept := Slice(r.List(key, now), start, stop);
    if !r.HasList(key, now) then r
    else r.(lists := if kept == [] then r.lists - {key} else r.lists[key := r.lists[key].(value := kept)])
  }

  // ---------------------------------------------------------------------------------------
  // What the calls do

  /** The length of a window, and the times to live that the two kinds of keys are given. */
  datatype Limits = Limits(max: nat, valueTTL: int, listTTL: int)

  /** A command is executed, or refused, or executed without the caller hearing of it. */
  datatype Reply = Done | Refused | Unheard {
    predicate Executed() { !Refused? }
  }

  datatype Replies = Replies(put: Reply, push: Reply, renew: Reply, trim: Reply)

  /** The first error of the value or of the push ends the call; the others are passed over. */
  function AfterRedisStore<V>(r: Redis<V>, id: string, context: Option<string>, value: V, l: Limits, now: int,
                              o: Replies)
    : Redis<V>
  {
    var valued := if o.put.Executed() then SetValue(r, MESSAGE_PREFIX + id, value, l.valueTTL, now) else r;
    if !o.put.Done? || context.None? then valued
    else
      var key := CONVERSATION_PREFIX + context.value;
      var pushed := if o.push.Executed() then Push(valued, key, id, now) else valued;
      if !o.push.Done? then pushed
      else
        var renewed := if o.renew.Executed() then Renew(pushed, key, l.listTTL, now) else pushed;
        if o.trim.Executed() then Trim(renewed, key, -(l.max as int), -1, now) else renewed
  }

  /** A store that gets through leaves the value under "msg:" with its ID and the ID at the end of the
      list under "conv:" with its context, each with its own time to live, and touches no other key.
      Refused at once it leaves nothing, refused at the push only the value; a command that is
      executed without the caller hearing of it has its effect and ends the call. */
  lemma StoresUnderItsKeys<V>(r: Redis<V>, id: string, c: string, value: V, l: Limits, now: int)
    requires l.max > 0 && l.listTTL > 0
    ensures var r' := AfterRedisStore(r, id, Some(c), value, l, now, Replies(Done, Done, Done, Done));
      && r'.values == r.values["msg:" + id := Entry(value, Some(now + l.valueTTL))]
      && "conv:" + c in r'.lists
      && (forall key :: key != "conv:" + c ==>
            (key in r'.lists <==> key in r.lists) && (key in r.lists ==> r'.lists[key] == r.lists[key]))
      && var list := r'.lists["conv:" + c];
         && list.deadline == Some(now + l.listTTL)
         && 0 < |list.value| <= l.max && list.value[|list.value| - 1] == id
    ensures forall o: Replies :: o.put.Refused? ==> AfterRedisStore(r, id, Some(c), value, l, now, o) == r
    ensures forall o: Replies :: o.put.Unheard? || (o.put.Done? && o.push.Refused?) ==>
      AfterRedisStore(r, id, Some(c), value, l, now, o)
      == r.(values := r.values["msg:" + id := Entry(value, Some(now + l.valueTTL))])
    ensures forall o: Replies :: o.put.Done? && o.push.Unheard? ==>
      var r' := AfterRedisStore(r, id, Some(c), value, l, now, o);
      r'.HasList("conv:" + c, now) && r'.List("conv:" + c, now) == r.List("conv:" + c, now) + [id]
  {
    var pushed := r.List("conv:" + c, now) + [id];
    var kept := Slice(pushed, -(l.max as int), -1);
    assert kept != [] && kept[|kept| - 1] == id;
  }

  /** Which commands of a read succeed; `get` counts from the last ID, which is 1. */
  datatype Answers = Answers(count: bool, range: bool, get: nat -> bool)

  datatype ReadError = RangeFailed

  /** What reading makes of the values of the IDs that are present and can be read, in order. */
  function Fetch<V, M>(r: Redis<V>, ids: seq<string>, get: nat -> bool, read: V -> seq<M>, now: int): seq<M>
    decreases |ids|
  {
    if ids == [] then []
    else (if get(|ids|) then FetchOne(r, ids[0], read, now) else []) + Fetch(r, ids[1..], get, read, now)
  }

  function FetchOne<V, M>(r: Redis<V>, id: string, read: V -> seq<M>, now: int): seq<M> {
    if r.HasValue(MESSAGE_PREFIX + id, now) then read(r.values[MESSAGE_PREFIX + id].value) else []
  }

  /** One more ID fetched, after those fetched before. */
  lemma FetchFrom<V, M>(r: Redis<V>, ids: seq<string>, i: nat, get: nat -> bool, read: V -> seq<M>, now: int,
                        before: seq<M>)
    requires i < |ids|
    ensures before + Fetch(r, ids[i..], get, read, now)
         == before + (if get(|ids| - i) then FetchOne(r, ids[i], read, now) else []) + Fetch(r, ids[i + 1..], get, read, now)
  {
    assert ids[i..][1..] == ids[i + 1..];
  }

  function RedisHistory<V, M>(r: Redis<V>, context: string, length: int, read: V -> seq<M>, now: int, answers: Answers)
    : Result<seq<M>, ReadError>
  {
    if context == "" || !answers.count then Success([])
    else if !answers.range then Failure(RangeFailed)
    else
      var list := r.List(CONVERSATION_PREFIX + context, now);
      var start := if |list| > length then |list| - length else 0;
      Success(Fetch(r, Slice(list, start, |list| - 1), answers.get, read, now))
  }

  /** What is left of a value: its message, or nothing when it does not decode. */
  function MessageOf(value: JSON): seq<Message> {
    var d := DecodeMessage(value);
    if d.Success? then [d.value] else []
  }

  /** The server, as far as these commands go. */
  class Client {
    var values: map<string, Entry<JSON>>
    var lists: map<string, Entry<seq<string>>>

    constructor ()
      ensures State() == Redis(map[], map[])
    {
      values, lists := map[], map[];
    }

    function State(): Redis<JSON>
      reads this
    {
      Redis(values, lists)
    }

    method Set(key: string, value: JSON, ttl: int, now: int, reply: Reply) returns (ok: bool)
      modifies this`values
      ensures ok == reply.Done?
      ensures State() == if reply.Executed() then SetValue(old(State()), key, value, ttl, now) else old(State())
    {
      if reply.Executed() {
        values := values[key := Entry(value, Some(now + ttl))];
      }
      ok := reply.Done?;
    }

    method RPush(key: string, id: string, now: int, reply: Reply) returns (ok: bool)
      modifies this`lists
      ensures ok == reply.Done?
      ensures State() == if reply.Executed() then Push(old(State()), key, id, now) else old(State())
    {
      if reply.Executed() {
        if !State().HasList(key, now) {
          lists := lists[key := Entry([], None)];
        }
        lists := lists[key := lists[key].(value := lists[key].value + [id])];
      }
      ok := reply.Done?;
    }

    method Expire(key: string, ttl: int, now: int, reply: Reply)
      modifies this`lists
      ensures State() == if reply.Executed() then Renew(old(State()), key, ttl, now) else old(State())
    {
      if reply.Executed() && State().HasList(key, now) {
        lists := lists[key := lists[key].(deadline := Some(now + ttl))];
      }
    }

    method LTrim(key: string, start: int, stop: int, now: int, reply: Reply)
      modifies this`lists
      ensures State() == if reply.Executed() then Trim(old(State()), key, start, stop, now) else old(State())
    {
      if reply.Executed() && State().HasList(key, now) {
        var kept := Slice(lists[key].value, start, stop);
        lists := if kept == [] then lists - {key} else lists[key := lists[key].(value := kept)];
      }
    }

    method LLen(key: string, now: int) returns (n: nat)
      ensures n == |State().List(key, now)|
    {
      n := |State().List(key, now)|;
    }

    method LRange(key: string, start: int, stop: int, now: int) returns (ids: seq<string>)
      ensures ids == Slice(State().List(key, now), start, stop)
    {
      ids := Slice(State().List(key, now), start, stop);
    }
  }

  class Manager {
    const client: Client
    const limits: Limits

    constructor (client: Client, limits: Limits)
      ensures this.client == client && this.limits == limits
    {
      this.client, this.limits := client, limits;
    }

    method StoreMessage(message: Message, now: int, replies: Replies)
      modifies client
      ensures client.State() == AfterRedisStore(old(client.State()), message.messageID, message.contextID,
                                                EncodeMessage(message), limits, now, replies)
    {
      var ok := client.Set(MESSAGE_PREFIX + message.messageID, EncodeMessage(message), limits.valueTTL, now, replies.put);
      if !ok {
        return;
      }
      if message.contextID.Some? {
        var key := CONVERSATION_PREFIX + message.contextID.value;
        ok := client.RPush(key, message.messageID, now, replies.push);
        if !ok {
          return;
        }
        client.Expire(key, limits.listTTL, now, replies.renew);
        client.LTrim(key, -(limits.max as int), -1, now, replies.trim);
      }
    }

    method GetConversationHistory(contextID: string, length: int, now: int, answers: Answers)
      returns (result: Result<seq<Message>, ReadError>)
      ensures result == RedisHistory(client.State(), contextID, length, MessageOf, now, answers)
      ensures contextID == "" || !answers.count ==> result == Success([])
      ensures contextID != "" && answers.count && !answers.range ==> result == Failure(RangeFailed)
    {
      if contextID == "" {
        return Success([]);
      }
      if !answers.count {
        return Success([]);
      }
      var key := CONVERSATION_PREFIX + contextID;
      var count := client.LLen(key, now);
      var start := 0;
      if count > length {
        start := count - length;
      }
      if !answers.range {
        return Failure(RangeFailed);
      }
      var ids := client.LRange(key, start, count - 1, now);
      var messages := RetrieveAll(ids, now, answers.get);
      result := Success(messages);
    }

    /** The loop over the IDs read. */
    method RetrieveAll(ids: seq<string>, now: int, get: nat -> bool) returns (messages: seq<Message>)
      ensures messages == Fetch(client.State(), ids, get, MessageOf, now)
    {
      messages := [];
      for i := 0 to |ids|
        invariant messages + Fetch(client.State(), ids[i..], get, MessageOf, now)
               == Fetch(client.State(), ids, get, MessageOf, now)
      {
        var found := Retrieve(ids[i], now, get(|ids| - i));
        FetchFrom(client.State(), ids, i, get, MessageOf, now, messages);
        messages := messages + found;
      }
    }

    /** One round of the loop: a missing or unreadable message is skipped. */
    method Retrieve(id: string, now: int, got: bool) returns (found: seq<Message>)
      ensures found == if got then FetchOne(client.State(), id, MessageOf, now) else []
    {
      found := [];
      var msgKey := MESSAGE_PREFIX + id;
      if got && client.State().HasValue(msgKey, now) {
        var msg := UnmarshalMessage(client.values[msgKey].value);
        if msg.Success? {
          found := [msg.value];
        }
      }
    }
  }
}
