/**
 Reads of the Redis window after any sequence of commands, from callers in any order, with keys
 that expire and commands that fail: what a read returns, exactly when it is the end of what was
 pushed, and the agreement with the store in memory.
 */
module RedisRuns {
  import opened Wrappers
  import opened Conversations
  import opened RedisConversations

  // ---------------------------------------------------------------------------------------
  // Commands, and a memory of them in which nothing is trimmed and nothing expires

  datatype Command<V> =
    | PutValue(id: string, value: V)
    | PushID(context: string, id: string)
    | RenewList(context: string)
    | TrimList(context: string)
    | Look                                             // changes nothing

  function Key(c: string): string { CONVERSATION_PREFIX + c }

  function Execute<V>(r: Redis<V>, cmd: Command<V>, l: Limits, now: int): Redis<V> {
    match cmd
    case PutValue(id, value) => SetValue(r, MESSAGE_PREFIX + id, value, l.valueTTL, now)
    case PushID(c, id) => Push(r, Key(c), id, now)
    case RenewList(c) => Renew(r, Key(c), l.listTTL, now)
    case TrimList(c) => Trim(r, Key(c), -(l.max as int), -1, now)
    case Look => r
  }

  datatype Sent<V> = Sent(value: V, at: int)

  /** All IDs pushed for a context, and the latest message under each ID with its time. */
  datatype Memory<V> = Memory(pushed: map<string, seq<string>>, sent: map<string, Sent<V>>) {
    function Ids(c: string): seq<string> { if c in pushed then pushed[c] else [] }

    predicate Young(id: string, ttl: int, now: int) { id in sent && now < sent[id].at + ttl }
  }

  function Note<V>(mem: Memory<V>, cmd: Command<V>, now: int): Memory<V> {
    match cmd
    case PutValue(id, value) => mem.(sent := mem.sent[id := Sent(value, now)])
    case PushID(c, id) => mem.(pushed := mem.pushed[c := mem.Ids(c) + [id]])
    case _ => mem
  }

  function NoKeys<V>(): Redis<V> { Redis(map[], map[]) }

  function NothingSent<V>(): Memory<V> { Memory(map[], map[]) }

  // ---------------------------------------------------------------------------------------
  // Lists are ends of what was pushed

  /** The last IDs pushed for a context, as many as a window may have. */
  function Window<V>(mem: Memory<V>, c: string, l: Limits): seq<string> { Last(mem.Ids(c), l.max) }

  /** The same of its list, expired or not. */
  function Tail<V>(r: Redis<V>, c: string, l: Limits): seq<string> {
    Last(if Key(c) in r.lists then r.lists[Key(c)].value else [], l.max)
  }

  /** Those of them that a read at this time can show. */
  function Shown<V>(r: Redis<V>, c: string, l: Limits, now: int): seq<string> { Last(r.List(Key(c), now), l.max) }

  predicate EndOf(t: seq<string>, w: seq<string>) { |t| <= |w| && t == w[|w| - |t|..] }

  /** The value under an ID is the latest message sent under it. */
  ghost predicate Valued<V>(r: Redis<V>, mem: Memory<V>, l: Limits, id: string) {
    && (MESSAGE_PREFIX + id in r.values <==> id in mem.sent)
    && (id in mem.sent ==>
          r.values[MESSAGE_PREFIX + id] == Entry(mem.sent[id].value, Some(mem.sent[id].at + l.valueTTL)))
  }

  ghost predicate AllValued<V>(r: Redis<V>, mem: Memory<V>, l: Limits) { forall id :: Valued(r, mem, l, id) }

  /** The list of a context is an end of its window. */
  predicate EndsIn<V>(r: Redis<V>, mem: Memory<V>, c: string, l: Limits) { EndOf(Tail(r, c, l), Window(mem, c, l)) }

  ghost predicate AllEnds<V>(r: Redis<V>, mem: Memory<V>, l: Limits) { forall c :: EndsIn(r, mem, c, l) }

  ghost predicate Aligned<V>(r: Redis<V>, mem: Memory<V>, l: Limits) {
    l.max > 0 && l.valueTTL > 0 && l.listTTL > 0 && AllValued(r, mem, l) && AllEnds(r, mem, l)
  }

  lemma PrefixesAreInjective(prefix: string, a: string, b: string)
    ensures prefix + a == prefix + b <==> a == b
  {
    assert (prefix + a)[|prefix|..] == a && (prefix + b)[|prefix|..] == b;
  }

  lemma TrimKeepsTheEnd(list: seq<string>, max: nat)
    requires max > 0
    ensures Slice(list, -(max as int), -1) == Last(list, max)
  {
  }

  lemma LastOfLast(list: seq<string>, id: string, max: nat)
    requires max > 0
    ensures Last(Last(list, max), max) == Last(list, max)
    ensures Last(list + [id], max) == (if |list| < max then list + [id] else Last(list, max)[1..] + [id])
    ensures Last(list + [id], max) == Last(Last(list, max) + [id], max)
  {
  }

  lemma PushedEnd(t: seq<string>, w: seq<string>, id: string, max: nat)
    requires max > 0 && EndOf(t, w) && |w| <= max
    ensures EndOf(Last(t + [id], max), Last(w + [id], max))
  {
    LastOfLast(t, id, max);
    LastOfLast(w, id, max);
  }

  lemma TailAfter<V>(r: Redis<V>, cmd: Command<V>, l: Limits, now: int, c: string)
    requires l.max > 0
    ensures Tail(Execute(r, cmd, l, now), c, l)
         == if cmd.PushID? && cmd.context == c
            then Last((if r.HasList(Key(c), now) then Tail(r, c, l) else []) + [cmd.id], l.max)
            else Tail(r, c, l)
  {
    if !cmd.PutValue? && !cmd.Look? {
      PrefixesAreInjective(CONVERSATION_PREFIX, cmd.context, c);
      var list := r.List(Key(c), now);
      match cmd
      case PushID(_, id) => LastOfLast(list, id, l.max);
      case TrimList(_) =>
        TrimKeepsTheEnd(list, l.max);
        LastOfLast(list, "", l.max);
      case _ =>
    }
  }

  lemma WindowAfter<V>(mem: Memory<V>, cmd: Command<V>, l: Limits, now: int, c: string)
    requires l.max > 0
    ensures Window(Note(mem, cmd, now), c, l)
         == if cmd.PushID? && cmd.context == c then Last(Window(mem, c, l) + [cmd.id], l.max) else Window(mem, c, l)
  {
    if cmd.PushID? && cmd.context == c {
      LastOfLast(mem.Ids(c), cmd.id, l.max);
    }
  }

  lemma EndAfter<V>(r: Redis<V>, mem: Memory<V>, l: Limits, cmd: Command<V>, now: int, c: string)
    requires l.max > 0 && EndsIn(r, mem, c, l)
    ensures EndsIn(Execute(r, cmd, l, now), Note(mem, cmd, now), c, l)
  {
    TailAfter(r, cmd, l, now, c);
    WindowAfter(mem, cmd, l, now, c);
    if cmd.PushID? && cmd.context == c {
      var t := if r.HasList(Key(c), now) then Tail(r, c, l) else [];
      PushedEnd(t, Window(mem, c, l), cmd.id, l.max);
    }
  }

  lemma ValueAfter<V>(r: Redis<V>, mem: Memory<V>, l: Limits, cmd: Command<V>, now: int, id: string)
    requires Valued(r, mem, l, id)
    ensures Valued(Execute(r, cmd, l, now), Note(mem, cmd, now), l, id)
  {
    if cmd.PutValue? {
      PrefixesAreInjective(MESSAGE_PREFIX, cmd.id, id);
    }
  }

  lemma CommandAligns<V>(r: Redis<V>, mem: Memory<V>, l: Limits, cmd: Command<V>, now: int)
    requires Aligned(r, mem, l)
    ensures Aligned(Execute(r, cmd, l, now), Note(mem, cmd, now), l)
  {
    var r', mem' := Execute(r, cmd, l, now), Note(mem, cmd, now);
    forall id ensures Valued(r', mem', l, id) {
      ValueAfter(r, mem, l, cmd, now, id);
    }
    forall c ensures EndsIn(r', mem', c, l) {
      EndAfter(r, mem, l, cmd, now, c);
    }
  }

  // ---------------------------------------------------------------------------------------
  // What a read returns

  /** The messages of `ids` that have not expired and whose reads succeed. */
  function Visible<V, M>(mem: Memory<V>, ids: seq<string>, get: nat -> bool, read: V -> seq<M>, ttl: int,
                         now: int): seq<M>
    decreases |ids|
  {
    if ids == [] then []
    else
      (if get(|ids|) && mem.Young(ids[0], ttl, now) then read(mem.sent[ids[0]].value) else [])
      + Visible(mem, ids[1..], get, read, ttl, now)
  }

  lemma {:induction false} FetchIsVisible<V, M>(r: Redis<V>, mem: Memory<V>, l: Limits, ids: seq<string>,
                                                get: nat -> bool, read: V -> seq<M>, now: int)
    requires AllValued(r, mem, l)
    ensures Fetch(r, ids, get, read, now) == Visible(mem, ids, get, read, l.valueTTL, now)
    decreases |ids|
  {
    if ids != [] {
      assert Valued(r, mem, l, ids[0]);
      FetchIsVisible(r, mem, l, ids[1..], get, read, now);
    }
  }

  predicate NoneYoung<V>(mem: Memory<V>, ids: seq<string>, ttl: int, now: int) {
    forall i :: 0 <= i < |ids| ==> !mem.Young(ids[i], ttl, now)
  }

  lemma {:induction false} ExpiredAreInvisible<V, M>(mem: Memory<V>, gone: seq<string>, rest: seq<string>,
                                                     get: nat -> bool, read: V -> seq<M>,
                                               ttl: int, now: int)
    requires NoneYoung(mem, gone, ttl, now)
    ensures Visible(mem, gone + rest, get, read, ttl, now) == Visible(mem, rest, get, read, ttl, now)
    decreases |gone|
  {
    if gone == [] {
      assert gone + rest == rest;
    } else {
      assert (gone + rest)[1..] == gone[1..] + rest;
      ExpiredAreInvisible(mem, gone[1..], rest, get, read, ttl, now);
    }
  }

  /** A window without its last `n`. */
  function Front(w: seq<string>, n: nat): seq<string> { if n <= |w| then w[..|w| - n] else [] }

  /** The IDs of the window that a read at this time does not show. */
  function Missing<V>(r: Redis<V>, mem: Memory<V>, c: string, l: Limits, now: int): seq<string> {
    Front(Window(mem, c, l), |Shown(r, c, l, now)|)
  }

  lemma MissingAndShown<V>(r: Redis<V>, mem: Memory<V>, l: Limits, c: string, now: int)
    requires AllEnds(r, mem, l)
    ensures Window(mem, c, l) == Missing(r, mem, c, l, now) + Shown(r, c, l, now)
  {
    assert EndsIn(r, mem, c, l);
  }

  /** No read of the context misses a message that has not expired. */
  predicate CompleteIn<V>(r: Redis<V>, mem: Memory<V>, c: string, l: Limits, now: int) {
    NoneYoung(mem, Missing(r, mem, c, l, now), l.valueTTL, now)
  }

  ghost predicate Complete<V>(r: Redis<V>, mem: Memory<V>, l: Limits, now: int) {
    forall c :: c != "" ==> CompleteIn(r, mem, c, l, now)
  }

  lemma EndOfBoth(gone: seq<string>, rest: seq<string>, n: int) returns (some: seq<string>)
    ensures Last(gone + rest, n) == some + Last(rest, n)
    ensures forall i :: 0 <= i < |some| ==> some[i] in gone
  {
    some := if n <= |rest| then [] else Last(gone, n - |rest|);
  }

  lemma RangeIsTheEnd(list: seq<string>, length: int)
    ensures Slice(list, if |list| > length then |list| - length else 0, |list| - 1) == Last(list, length)
  {
  }

  lemma ReadsTheEnd<V, M>(r: Redis<V>, c: string, n: int, now: int, answers: Answers, read: V -> seq<M>)
    requires c != "" && answers.count && answers.range
    ensures RedisHistory(r, c, n, read, now, answers)
         == Success(Fetch(r, Last(r.List(Key(c), now), n), answers.get, read, now))
  {
    RangeIsTheEnd(r.List(Key(c), now), n);
  }

  lemma LastOfMore(list: seq<string>, max: nat, n: int)
    requires n <= max
    ensures Last(Last(list, max), n) == Last(list, n)
  {
  }

  /** What is read of a list is what is visible of the window. */
  lemma FetchesTheYoungEnd<V, M>(r: Redis<V>, mem: Memory<V>, l: Limits, c: string, n: int, now: int,
                                 get: nat -> bool, read: V -> seq<M>)
    requires AllValued(r, mem, l) && AllEnds(r, mem, l) && n <= l.max
    requires CompleteIn(r, mem, c, l, now)
    ensures Fetch(r, Last(r.List(Key(c), now), n), get, read, now)
         == Visible(mem, Last(mem.Ids(c), n), get, read, l.valueTTL, now)
  {
    LastOfMore(r.List(Key(c), now), l.max, n);
    LastOfMore(mem.Ids(c), l.max, n);
    MissingAndShown(r, mem, l, c, now);
    FetchIsVisible(r, mem, l, Last(Shown(r, c, l, now), n), get, read, now);
    OnlyYoungShow(mem, Missing(r, mem, c, l, now), Shown(r, c, l, now), n, get, read, l.valueTTL, now);
  }

  lemma OnlyYoungShow<V, M>(mem: Memory<V>, gone: seq<string>, rest: seq<string>, n: int, get: nat -> bool,
                            read: V -> seq<M>, ttl: int, now: int)
    requires NoneYoung(mem, gone, ttl, now)
    ensures Visible(mem, Last(gone + rest, n), get, read, ttl, now) == Visible(mem, Last(rest, n), get, read, ttl, now)
  {
    var some := EndOfBoth(gone, rest, n);
    NoneYoungAmong(mem, gone, some, ttl, now);
    ExpiredAreInvisible(mem, some, Last(rest, n), get, read, ttl, now);
  }

  lemma NoneYoungAmong<V>(mem: Memory<V>, ids: seq<string>, some: seq<string>, ttl: int, now: int)
    requires NoneYoung(mem, ids, ttl, now) && forall i :: 0 <= i < |some| ==> some[i] in ids
    ensures NoneYoung(mem, some, ttl, now)
  {
  }

  /** When a read misses nothing young it returns, with the failures of its own commands, the
      messages of the last `n` IDs pushed that have not expired, however the lists were trimmed. */
  lemma ReadsTheYoungEnd<V, M>(r: Redis<V>, mem: Memory<V>, l: Limits, c: string, n: int, now: int, answers: Answers,
                               read: V -> seq<M>)
    requires Aligned(r, mem, l) && Complete(r, mem, l, now) && c != "" && n <= l.max
    ensures RedisHistory(r, c, n, read, now, answers)
         == if !answers.count then Success([])
            else if !answers.range then Failure(RangeFailed)
            else Success(Visible(mem, Last(mem.Ids(c), n), answers.get, read, l.valueTTL, now))
  {
    if answers.count && answers.range {
      ReadsTheEnd(r, c, n, now, answers, read);
      FetchesTheYoungEnd(r, mem, l, c, n, now, answers.get, read);
    }
  }

  const ALL_READ := Answers(true, true, (i: nat) => true)

  /** Every value sent reads as one message. */
  ghost predicate AllRead<V, M>(mem: Memory<V>, read: V -> seq<M>) {
    forall id :: id in mem.sent ==> |read(mem.sent[id].value)| == 1
  }

  lemma {:induction false} YoungAreVisible<V, M>(mem: Memory<V>, gone: seq<string>, rest: seq<string>, ttl: int,
                                                 now: int, read: V -> seq<M>)
    requires AllRead(mem, read)
    ensures |Visible(mem, gone + rest, ALL_READ.get, read, ttl, now)| >= |Visible(mem, rest, ALL_READ.get, read, ttl, now)|
    ensures !NoneYoung(mem, gone, ttl, now) ==>
      |Visible(mem, gone + rest, ALL_READ.get, read, ttl, now)| > |Visible(mem, rest, ALL_READ.get, read, ttl, now)|
    decreases |gone|
  {
    if gone == [] {
      assert gone + rest == rest;
    } else {
      assert (gone + rest)[1..] == gone[1..] + rest && (gone + rest)[0] == gone[0];
      YoungAreVisible(mem, gone[1..], rest, ttl, now, read);
      if !mem.Young(gone[0], ttl, now) && NoneYoung(mem, gone[1..], ttl, now) {
        assert forall i :: 0 < i < |gone| ==> gone[i] == gone[1..][i - 1];
      }
    }
  }

  /** A read returns what of the last `n` IDs has not expired. */
  ghost predicate ReadsRight<V, M>(r: Redis<V>, mem: Memory<V>, c: string, l: Limits, n: int, now: int,
                                   read: V -> seq<M>) {
    RedisHistory(r, c, n, read, now, ALL_READ)
    == Success(Visible(mem, Last(mem.Ids(c), n), ALL_READ.get, read, l.valueTTL, now))
  }

  /** Every read of at most the window does. */
  ghost predicate HistoriesRight<V, M>(r: Redis<V>, mem: Memory<V>, l: Limits, now: int, read: V -> seq<M>) {
    forall c: string, n: int :: c != "" && n <= l.max ==> ReadsRight(r, mem, c, l, n, now, read)
  }

  /** Of well-formed messages, the histories are right exactly when nothing young is missing. */
  lemma RightIsComplete<V, M>(r: Redis<V>, mem: Memory<V>, l: Limits, now: int, read: V -> seq<M>)
    requires Aligned(r, mem, l) && AllRead(mem, read)
    ensures HistoriesRight(r, mem, l, now, read) <==> Complete(r, mem, l, now)
  {
    if Complete(r, mem, l, now) {
      CompleteIsRight(r, mem, l, now, read);
    } else {
      IncompleteIsWrong(r, mem, l, now, read);
    }
  }

  lemma CompleteIsRight<V, M>(r: Redis<V>, mem: Memory<V>, l: Limits, now: int, read: V -> seq<M>)
    requires Aligned(r, mem, l) && Complete(r, mem, l, now)
    ensures HistoriesRight(r, mem, l, now, read)
  {
    forall c: string, n: int | c != "" && n <= l.max ensures ReadsRight(r, mem, c, l, n, now, read) {
      ReadsTheYoungEnd(r, mem, l, c, n, now, ALL_READ, read);
    }
  }

  lemma IncompleteIsWrong<V, M>(r: Redis<V>, mem: Memory<V>, l: Limits, now: int, read: V -> seq<M>)
    requires Aligned(r, mem, l) && AllRead(mem, read) && !Complete(r, mem, l, now)
    ensures !HistoriesRight(r, mem, l, now, read)
  {
    var c :| c != "" && !CompleteIn(r, mem, c, l, now);
    MissingShows(r, mem, l, c, now, read);
  }

  lemma MissingShows<V, M>(r: Redis<V>, mem: Memory<V>, l: Limits, c: string, now: int, read: V -> seq<M>)
    requires Aligned(r, mem, l) && AllRead(mem, read) && c != "" && !CompleteIn(r, mem, c, l, now)
    ensures !ReadsRight(r, mem, c, l, l.max, now, read)
  {
    var gone, shown := Missing(r, mem, c, l, now), Shown(r, c, l, now);
    ReadsTheEnd(r, c, l.max, now, ALL_READ, read);
    FetchIsVisible(r, mem, l, shown, ALL_READ.get, read, now);
    MissingAndShown(r, mem, l, c, now);
    YoungMakeADifference(mem, gone, shown, l.valueTTL, now, read);
  }

  lemma YoungMakeADifference<V, M>(mem: Memory<V>, gone: seq<string>, rest: seq<string>, ttl: int, now: int,
                                   read: V -> seq<M>)
    requires AllRead(mem, read) && !NoneYoung(mem, gone, ttl, now)
    ensures Visible(mem, gone + rest, ALL_READ.get, read, ttl, now) != Visible(mem, rest, ALL_READ.get, read, ttl, now)
  {
    YoungAreVisible(mem, gone, rest, ttl, now, read);
  }

  // ---------------------------------------------------------------------------------------
  // When something young goes missing

  /** No list that is past its deadline names, among its last, a message that has not expired. */
  ghost predicate ListsLast<V>(r: Redis<V>, mem: Memory<V>, l: Limits, now: int) {
    forall c :: c != "" && Key(c) in r.lists && !r.lists[Key(c)].Alive(now) ==>
      NoneYoung(mem, Tail(r, c, l), l.valueTTL, now)
  }

  lemma MissingLater<V>(r: Redis<V>, mem: Memory<V>, l: Limits, c: string, before: int, now: int)
    requires Aligned(r, mem, l) && before <= now
    requires CompleteIn(r, mem, c, l, before)
    ensures CompleteIn(r, mem, c, l, now)
      <==> (Key(c) in r.lists && !r.lists[Key(c)].Alive(now) ==> NoneYoung(mem, Tail(r, c, l), l.valueTTL, now))
  {
    NoneYoungLater(mem, Missing(r, mem, c, l, before), l.valueTTL, before, now);
    MissingAndShown(r, mem, l, c, before);
    if Key(c) in r.lists && !r.lists[Key(c)].Alive(now) {
      var w, t := Window(mem, c, l), Tail(r, c, l);
      MissingAndShown(r, mem, l, c, now);
      assert Missing(r, mem, c, l, now) == w;
      NoneYoungSplit(mem, Missing(r, mem, c, l, before), Shown(r, c, l, before), l.valueTTL, now);
      assert EndsIn(r, mem, c, l);
      assert w == Front(w, |t|) + t;
      NoneYoungSplit(mem, Front(w, |t|), t, l.valueTTL, now);
    }
  }

  lemma NoneYoungLater<V>(mem: Memory<V>, ids: seq<string>, ttl: int, before: int, now: int)
    requires NoneYoung(mem, ids, ttl, before) && before <= now
    ensures NoneYoung(mem, ids, ttl, now)
  {
  }

  lemma NoneYoungSplit<V>(mem: Memory<V>, front: seq<string>, end: seq<string>, ttl: int, now: int)
    ensures NoneYoung(mem, front + end, ttl, now) <==> NoneYoung(mem, front, ttl, now) && NoneYoung(mem, end, ttl, now)
  {
    assert forall i :: 0 <= i < |end| ==> end[i] == (front + end)[|front| + i];
    assert forall i :: 0 <= i < |front| ==> front[i] == (front + end)[i];
  }

  /** While time passes, nothing young goes missing if and only if the lists last. */
  lemma WaitKeepsComplete<V>(r: Redis<V>, mem: Memory<V>, l: Limits, before: int, now: int)
    requires Aligned(r, mem, l) && Complete(r, mem, l, before) && before <= now
    ensures Complete(r, mem, l, now) <==> ListsLast(r, mem, l, now)
  {
    forall c | c != ""
      ensures CompleteIn(r, mem, c, l, now)
        <==> (Key(c) in r.lists && !r.lists[Key(c)].Alive(now) ==> NoneYoung(mem, Tail(r, c, l), l.valueTTL, now))
    {
      MissingLater(r, mem, l, c, before, now);
    }
  }

  lemma ListAfter<V>(r: Redis<V>, l: Limits, cmd: Command<V>, now: int, c: string)
    requires l.max > 0 && l.listTTL > 0
    ensures Execute(r, cmd, l, now).List(Key(c), now)
         == if cmd.PushID? && cmd.context == c then r.List(Key(c), now) + [cmd.id]
            else if cmd.TrimList? && cmd.context == c then Last(r.List(Key(c), now), l.max)
            else r.List(Key(c), now)
  {
    if !cmd.PutValue? && !cmd.Look? {
      PrefixesAreInjective(CONVERSATION_PREFIX, cmd.context, c);
      TrimKeepsTheEnd(r.List(Key(c), now), l.max);
    }
  }

  lemma ShownAfter<V>(r: Redis<V>, l: Limits, cmd: Command<V>, now: int, c: string)
    requires l.max > 0 && l.listTTL > 0
    ensures Shown(Execute(r, cmd, l, now), c, l, now)
         == if cmd.PushID? && cmd.context == c then Last(Shown(r, c, l, now) + [cmd.id], l.max) else Shown(r, c, l, now)
  {
    ListAfter(r, l, cmd, now, c);
    LastOfLast(r.List(Key(c), now), if cmd.PushID? then cmd.id else "", l.max);
  }

  /** A push brings nothing that a read does not show. */
  lemma PushedAreShown(w: seq<string>, shown: seq<string>, id: string, max: nat)
    requires max > 0 && |shown| <= |w| <= max
    ensures var after := Front(Last(w + [id], max), |Last(shown + [id], max)|);
      forall i :: 0 <= i < |after| ==> after[i] in Front(w, |shown|)
  {
    var after := Front(Last(w + [id], max), |Last(shown + [id], max)|);
    forall i | 0 <= i < |after| ensures after[i] in Front(w, |shown|) {
      assert after[i] == Front(w, |shown|)[|w| + 1 - |Last(w + [id], max)| + i];
    }
  }

  lemma MissingAfterPush<V>(r: Redis<V>, mem: Memory<V>, l: Limits, c: string, id: string, now: int)
    requires Aligned(r, mem, l)
    ensures var after := Missing(Execute(r, PushID(c, id), l, now), Note(mem, PushID(c, id), now), c, l, now);
      forall i :: 0 <= i < |after| ==> after[i] in Missing(r, mem, c, l, now)
  {
    ShownAfter(r, l, PushID(c, id), now, c);
    WindowAfter(mem, PushID(c, id), l, now, c);
    MissingAndShown(r, mem, l, c, now);
    PushedAreShown(Window(mem, c, l), Shown(r, c, l, now), id, l.max);
  }

  lemma MissingAfter<V>(r: Redis<V>, mem: Memory<V>, l: Limits, cmd: Command<V>, now: int, c: string)
    requires l.max > 0 && l.listTTL > 0 && !(cmd.PushID? && cmd.context == c)
    ensures Missing(Execute(r, cmd, l, now), Note(mem, cmd, now), c, l, now) == Missing(r, mem, c, l, now)
  {
    ShownAfter(r, l, cmd, now, c);
    WindowAfter(mem, cmd, l, now, c);
  }

  /** The command gives no new value to an ID that a read no longer reaches. */
  ghost predicate Spares<V>(r: Redis<V>, mem: Memory<V>, l: Limits, cmd: Command<V>, now: int) {
    cmd.PutValue? ==> forall c :: c != "" ==> cmd.id !in Missing(r, mem, c, l, now)
  }

  /** A command makes something young go missing if and only if it sends a message under an ID
      that is missing. */
  lemma CommandKeepsComplete<V>(r: Redis<V>, mem: Memory<V>, l: Limits, cmd: Command<V>, now: int)
    requires Aligned(r, mem, l) && Complete(r, mem, l, now)
    ensures Complete(Execute(r, cmd, l, now), Note(mem, cmd, now), l, now) <==> Spares(r, mem, l, cmd, now)
  {
    forall c | c != ""
      ensures CompleteIn(Execute(r, cmd, l, now), Note(mem, cmd, now), c, l, now)
        <==> (cmd.PutValue? ==> cmd.id !in Missing(r, mem, c, l, now))
    {
      assert CompleteIn(r, mem, c, l, now);
      CommandKeepsCompleteIn(r, mem, l, cmd, now, c);
    }
  }

  lemma CommandKeepsCompleteIn<V>(r: Redis<V>, mem: Memory<V>, l: Limits, cmd: Command<V>, now: int, c: string)
    requires Aligned(r, mem, l) && CompleteIn(r, mem, c, l, now)
    ensures CompleteIn(Execute(r, cmd, l, now), Note(mem, cmd, now), c, l, now)
      <==> (cmd.PutValue? ==> cmd.id !in Missing(r, mem, c, l, now))
  {
    if cmd.PushID? && cmd.context == c {
      PushKeepsCompleteIn(r, mem, l, c, cmd.id, now);
    } else {
      MissingAfter(r, mem, l, cmd, now, c);
      if cmd.PutValue? {
        PutMakesYoung(mem, cmd.id, cmd.value, Missing(r, mem, c, l, now), l.valueTTL, now);
      } else {
        assert Note(mem, cmd, now).sent == mem.sent;
      }
    }
  }

  lemma PushKeepsCompleteIn<V>(r: Redis<V>, mem: Memory<V>, l: Limits, c: string, id: string, now: int)
    requires Aligned(r, mem, l) && CompleteIn(r, mem, c, l, now)
    ensures CompleteIn(Execute(r, PushID(c, id), l, now), Note(mem, PushID(c, id), now), c, l, now)
  {
    var mem' := Note(mem, PushID(c, id), now);
    var after := Missing(Execute(r, PushID(c, id), l, now), mem', c, l, now);
    MissingAfterPush(r, mem, l, c, id, now);
    NoneYoungAmong(mem, Missing(r, mem, c, l, now), after, l.valueTTL, now);
    assert mem'.sent == mem.sent;
  }

  lemma PutMakesYoung<V>(mem: Memory<V>, id: string, value: V, ids: seq<string>, ttl: int, now: int)
    requires NoneYoung(mem, ids, ttl, now) && ttl > 0
    ensures NoneYoung(Note(mem, PutValue(id, value), now), ids, ttl, now) <==> id !in ids
  {
    var mem' := Note(mem, PutValue(id, value), now);
    assert forall other :: mem'.Young(other, ttl, now) == (other == id || mem.Young(other, ttl, now));
  }

  // ---------------------------------------------------------------------------------------
  // Runs of commands: calls of any number of callers in any order, cut off anywhere

  datatype Timed<V> = Timed(at: int, cmd: Command<V>)

  predicate Ordered<V>(now: int, run: seq<Timed<V>>)
    decreases |run|
  {
    run == [] || (now <= run[0].at && Ordered(run[0].at, run[1..]))
  }

  /** The histories are right before and after each command. */
  ghost predicate AlwaysRight<V, M>(r: Redis<V>, mem: Memory<V>, l: Limits, now: int, run: seq<Timed<V>>,
                                    read: V -> seq<M>)
    decreases |run|
  {
    && HistoriesRight(r, mem, l, now, read)
    && (run == [] ||
        (&& HistoriesRight(r, mem, l, run[0].at, read)
         && AlwaysRight(Execute(r, run[0].cmd, l, run[0].at), Note(mem, run[0].cmd, run[0].at), l, run[0].at, run[1..],
                        read)))
  }

  /** The lists last up to each command, and each command spares what is missing. */
  ghost predicate AlwaysTimely<V>(r: Redis<V>, mem: Memory<V>, l: Limits, run: seq<Timed<V>>)
    decreases |run|
  {
    run == [] ||
    (&& ListsLast(r, mem, l, run[0].at) && Spares(r, mem, l, run[0].cmd, run[0].at)
     && AlwaysTimely(Execute(r, run[0].cmd, l, run[0].at), Note(mem, run[0].cmd, run[0].at), l, run[1..]))
  }

  predicate ReadCommands<V, M>(run: seq<Timed<V>>, read: V -> seq<M>) {
    forall i :: 0 <= i < |run| && run[i].cmd.PutValue? ==> |read(run[i].cmd.value)| == 1
  }

  lemma {:induction false} RightFrom<V, M>(r: Redis<V>, mem: Memory<V>, l: Limits, now: int, run: seq<Timed<V>>,
                                           read: V -> seq<M>)
    requires Aligned(r, mem, l) && AllRead(mem, read) && ReadCommands(run, read) && Ordered(now, run)
    requires HistoriesRight(r, mem, l, now, read)
    ensures AlwaysRight(r, mem, l, now, run, read) <==> AlwaysTimely(r, mem, l, run)
    decreases |run|
  {
    if run != [] {
      var cmd, at := run[0].cmd, run[0].at;
      var r', mem' := Execute(r, cmd, l, at), Note(mem, cmd, at);
      RightIsComplete(r, mem, l, now, read);
      RightIsComplete(r, mem, l, at, read);
      WaitKeepsComplete(r, mem, l, now, at);
      CommandAligns(r, mem, l, cmd, at);
      RightIsComplete(r', mem', l, at, read);
      assert forall i :: 0 <= i < |run[1..]| ==> run[1..][i] == run[i + 1];
      if HistoriesRight(r, mem, l, at, read) {
        CommandKeepsComplete(r, mem, l, cmd, at);
        if HistoriesRight(r', mem', l, at, read) {
          RightFrom(r', mem', l, at, run[1..], read);
        }
      }
    }
  }

  lemma NothingYet<V>(l: Limits, now: int)
    requires l.max > 0 && l.valueTTL > 0 && l.listTTL > 0
    ensures Aligned<V>(NoKeys(), NothingSent(), l) && Complete<V>(NoKeys(), NothingSent(), l, now)
  {
  }

  /** On any run of commands, in any order and at any times, every read of at most the window
      returns the messages of the last IDs pushed that have not expired, all the way, if and only
      if no list expires before its messages and no ID is used again that a read has lost. */
  lemma RedisHistoriesStayRight<V, M>(l: Limits, now: int, run: seq<Timed<V>>, read: V -> seq<M>)
    requires l.max > 0 && l.valueTTL > 0 && l.listTTL > 0 && ReadCommands(run, read) && Ordered(now, run)
    ensures AlwaysRight(NoKeys(), NothingSent(), l, now, run, read) <==> AlwaysTimely(NoKeys(), NothingSent(), l, run)
  {
    NothingYet<V>(l, now);
    RightIsComplete(NoKeys(), NothingSent(), l, now, read);
    RightFrom(NoKeys(), NothingSent(), l, now, run, read);
  }

  // ---------------------------------------------------------------------------------------
  // Calls that renew what they push

  datatype StoreCall<V> = StoreCall(id: string, context: Option<string>, value: V, at: int, replies: Replies)

  function AfterCall<V>(r: Redis<V>, call: StoreCall<V>, l: Limits): Redis<V> {
    AfterRedisStore(r, call.id, call.context, call.value, l, call.at, call.replies)
  }

  /** What a store adds to the memory: its value, and then its push, as far as they are executed. */
  function NoteCall<V>(mem: Memory<V>, call: StoreCall<V>): Memory<V> {
    var put := if call.replies.put.Executed() then Note(mem, PutValue(call.id, call.value), call.at) else mem;
    if !call.replies.put.Done? || call.context.None? || !call.replies.push.Executed() then put
    else Note(put, PushID(call.context.value, call.id), call.at)
  }

  /** The list outlives the value of this ID. */
  predicate Outlives<V>(r: Redis<V>, mem: Memory<V>, l: Limits, c: string, id: string) {
    id in mem.sent ==>
      Key(c) in r.lists
      && (r.lists[Key(c)].deadline.Some? ==> mem.sent[id].at + l.valueTTL <= r.lists[Key(c)].deadline.value)
  }

  ghost predicate Lasting<V>(r: Redis<V>, mem: Memory<V>, l: Limits) {
    forall c, i :: 0 <= i < |Tail(r, c, l)| ==> Outlives(r, mem, l, c, Tail(r, c, l)[i])
  }

  /** Between calls: nothing young is missing, and no list will expire before its messages. */
  ghost predicate Sound<V>(r: Redis<V>, mem: Memory<V>, l: Limits, now: int) {
    && Aligned(r, mem, l) && Complete(r, mem, l, now) && Lasting(r, mem, l)
    && forall id :: id in mem.sent ==> mem.sent[id].at <= now
  }

  lemma WaitKeepsSound<V>(r: Redis<V>, mem: Memory<V>, l: Limits, before: int, now: int)
    requires Sound(r, mem, l, before) && before <= now
    ensures Sound(r, mem, l, now)
  {
    forall c | Key(c) in r.lists && !r.lists[Key(c)].Alive(now) ensures NoneYoung(mem, Tail(r, c, l), l.valueTTL, now) {
      assert forall i :: 0 <= i < |Tail(r, c, l)| ==> Outlives(r, mem, l, c, Tail(r, c, l)[i]);
    }
    WaitKeepsComplete(r, mem, l, before, now);
  }

  /** No window lists the ID. */
  ghost predicate FreshID<V>(mem: Memory<V>, l: Limits, id: string) { forall c :: id !in Window(mem, c, l) }

  lemma InWindow<V>(r: Redis<V>, mem: Memory<V>, l: Limits, c: string, i: nat)
    requires Aligned(r, mem, l) && i < |Tail(r, c, l)|
    ensures Tail(r, c, l)[i] in Window(mem, c, l)
  {
    assert EndsIn(r, mem, c, l);
    var w := Window(mem, c, l);
    assert Tail(r, c, l)[i] == w[|w| - |Tail(r, c, l)| + i];
  }

  lemma PutKeepsSound<V>(r: Redis<V>, mem: Memory<V>, l: Limits, id: string, value: V, now: int)
    requires Sound(r, mem, l, now) && FreshID(mem, l, id)
    ensures Sound(Execute(r, PutValue(id, value), l, now), Note(mem, PutValue(id, value), now), l, now)
  {
    var put := PutValue(id, value);
    var r', mem' := Execute(r, put, l, now), Note(mem, put, now);
    CommandAligns(r, mem, l, put, now);
    forall c ensures id !in Missing(r, mem, c, l, now) {
      assert id !in Window(mem, c, l);
    }
    CommandKeepsComplete(r, mem, l, put, now);
    forall c, i | 0 <= i < |Tail(r', c, l)| ensures Outlives(r', mem', l, c, Tail(r', c, l)[i]) {
      assert Tail(r', c, l) == Tail(r, c, l);
      InWindow(r, mem, l, c, i);
      assert Outlives(r, mem, l, c, Tail(r, c, l)[i]);
    }
  }

  lemma PushAndRenewKeepSound<V>(r: Redis<V>, mem: Memory<V>, l: Limits, c: string, id: string, now: int)
    requires Sound(r, mem, l, now) && l.valueTTL <= l.listTTL
    ensures Sound(Execute(Execute(r, PushID(c, id), l, now), RenewList(c), l, now), Note(mem, PushID(c, id), now), l, now)
  {
    var push, renew := PushID(c, id), RenewList(c);
    var r1, mem' := Execute(r, push, l, now), Note(mem, push, now);
    var r2 := Execute(r1, renew, l, now);
    CommandAligns(r, mem, l, push, now);
    CommandAligns(r1, mem', l, renew, now);
    CommandKeepsComplete(r, mem, l, push, now);
    CommandKeepsComplete(r1, mem', l, renew, now);
    assert Note(mem', renew, now) == mem';
    forall d, i | 0 <= i < |Tail(r2, d, l)| ensures Outlives(r2, mem', l, d, Tail(r2, d, l)[i]) {
      PrefixesAreInjective(CONVERSATION_PREFIX, c, d);
      if d != c {
        assert Tail(r2, d, l) == Tail(r, d, l);
        assert Outlives(r, mem, l, d, Tail(r, d, l)[i]);
      }
    }
  }

  lemma TrimKeepsSound<V>(r: Redis<V>, mem: Memory<V>, l: Limits, c: string, now: int)
    requires Sound(r, mem, l, now)
    ensures Sound(Execute(r, TrimList(c), l, now), mem, l, now)
  {
    var trim := TrimList(c);
    var r' := Execute(r, trim, l, now);
    CommandAligns(r, mem, l, trim, now);
    CommandKeepsComplete(r, mem, l, trim, now);
    forall d, i | 0 <= i < |Tail(r', d, l)| ensures Outlives(r', mem, l, d, Tail(r', d, l)[i]) {
      TrimLeavesTails(r, l, c, d, now);
      assert Outlives(r, mem, l, d, Tail(r, d, l)[i]);
    }
  }

  lemma TrimLeavesTails<V>(r: Redis<V>, l: Limits, c: string, d: string, now: int)
    requires l.max > 0
    ensures var r' := Execute(r, TrimList(c), l, now);
      && Tail(r', d, l) == Tail(r, d, l)
      && (Tail(r', d, l) != [] && Key(d) in r.lists ==>
            Key(d) in r'.lists && r'.lists[Key(d)].deadline == r.lists[Key(d)].deadline)
  {
    TailAfter(r, TrimList(c), l, now, d);
    PrefixesAreInjective(CONVERSATION_PREFIX, c, d);
  }

  /** Whatever is pushed, the expiry of its list is renewed. */
  predicate Prompt<V>(call: StoreCall<V>) {
    call.replies.put.Done? && call.context.Some? && call.replies.push.Executed() ==>
      call.replies.push.Done? && call.replies.renew.Executed()
  }

  lemma StoreKeepsSound<V>(r: Redis<V>, mem: Memory<V>, l: Limits, before: int, call: StoreCall<V>)
    requires Sound(r, mem, l, before) && before <= call.at && l.valueTTL <= l.listTTL
    requires FreshID(mem, l, call.id) && Prompt(call)
    ensures Sound(AfterCall(r, call, l), NoteCall(mem, call), l, call.at)
  {
    WaitKeepsSound(r, mem, l, before, call.at);
    var id, o, now := call.id, call.replies, call.at;
    var put := PutValue(id, call.value);
    if o.put.Executed() {
      PutKeepsSound(r, mem, l, id, call.value, now);
    }
    if o.put.Done? && call.context.Some? && o.push.Done? {
      var c := call.context.value;
      var r1, mem1 := Execute(r, put, l, now), Note(mem, put, now);
      PushAndRenewKeepSound(r1, mem1, l, c, id, now);
      var r2 := Execute(Execute(r1, PushID(c, id), l, now), RenewList(c), l, now);
      TrimKeepsSound(r2, Note(mem1, PushID(c, id), now), l, c, now);
    }
  }

  function RunCalls<V>(r: Redis<V>, calls: seq<StoreCall<V>>, l: Limits): Redis<V>
    decreases |calls|
  {
    if calls == [] then r else RunCalls(AfterCall(r, calls[0], l), calls[1..], l)
  }

  function NoteCalls<V>(mem: Memory<V>, calls: seq<StoreCall<V>>): Memory<V>
    decreases |calls|
  {
    if calls == [] then mem else NoteCalls(NoteCall(mem, calls[0]), calls[1..])
  }

  /** One call after the other, each with an ID that no window lists, renewing what it pushes. */
  ghost predicate PromptCalls<V>(mem: Memory<V>, l: Limits, start: int, calls: seq<StoreCall<V>>, now: int)
    decreases |calls|
  {
    if calls == [] then start <= now
    else
      && start <= calls[0].at && FreshID(mem, l, calls[0].id) && Prompt(calls[0])
      && PromptCalls(NoteCall(mem, calls[0]), l, calls[0].at, calls[1..], now)
  }

  lemma {:induction false} CallsKeepSound<V>(r: Redis<V>, mem: Memory<V>, l: Limits, start: int,
                                             calls: seq<StoreCall<V>>, now: int)
    requires Sound(r, mem, l, start) && PromptCalls(mem, l, start, calls, now) && l.valueTTL <= l.listTTL
    ensures Sound(RunCalls(r, calls, l), NoteCalls(mem, calls), l, now)
    decreases |calls|
  {
    if calls == [] {
      WaitKeepsSound(r, mem, l, start, now);
    } else {
      StoreKeepsSound(r, mem, l, start, calls[0]);
      CallsKeepSound(AfterCall(r, calls[0], l), NoteCall(mem, calls[0]), l, calls[0].at, calls[1..], now);
    }
  }

  /** After stores with fresh IDs, whatever else failed as long as pushed lists were renewed, a
      read returns those of the last `n` messages pushed that have not expired. */
  lemma RenewedHistoriesAreRight<V, M>(l: Limits, start: int, calls: seq<StoreCall<V>>, c: string, n: int, now: int,
                                       answers: Answers, read: V -> seq<M>)
    requires l.max > 0 && 0 < l.valueTTL <= l.listTTL && c != "" && n <= l.max
    requires PromptCalls(NothingSent(), l, start, calls, now)
    ensures var mem := NoteCalls(NothingSent(), calls);
      RedisHistory(RunCalls(NoKeys(), calls, l), c, n, read, now, answers)
      == if !answers.count then Success([])
         else if !answers.range then Failure(RangeFailed)
         else Success(Visible(mem, Last(mem.Ids(c), n), answers.get, read, l.valueTTL, now))
  {
    NothingYet<V>(l, start);
    CallsKeepSound(NoKeys(), NothingSent(), l, start, calls, now);
    ReadsTheYoungEnd(RunCalls(NoKeys(), calls, l), NoteCalls(NothingSent(), calls), l, c, n, now, answers, read);
  }

  const ALL_DONE := Replies(Done, Done, Done, Done)

  /** A store whose renewal fails lets the list expire with the message of the store before. */
  lemma FailedRenewalLosesHistory<V, M>(a: string, b: string, value: V, max: nat, ttl: int, read: V -> seq<M>)
    requires a != b && max > 1 && ttl > 1
    ensures var l := Limits(max, ttl, ttl);
      var calls := [StoreCall(a, Some("c"), value, 0, ALL_DONE),
                    StoreCall(b, Some("c"), value, 1, ALL_DONE.(renew := Refused))];
      var mem := NoteCalls(NothingSent(), calls);
      && RedisHistory(RunCalls(NoKeys(), calls, l), "c", max, read, ttl, ALL_READ) == Success([])
      && mem.Ids("c") == [a, b] && mem.Young(b, ttl, ttl)
  {
    var l := Limits(max, ttl, ttl);
    var first := StoreCall(a, Some("c"), value, 0, ALL_DONE);
    var second := StoreCall(b, Some("c"), value, 1, ALL_DONE.(renew := Refused));
    TwoCalls(first, second, l);
    FirstStore(first, l);
    SecondStore(AfterCall(NoKeys(), first, l), a, second, l);
    NothingToRead(AfterCall(AfterCall(NoKeys(), first, l), second, l), "c", l, ttl, read);
  }

  /** Were a list given less time than its messages, its history would be lost before them. */
  lemma ShortListsLoseHistory<V, M>(a: string, value: V, l: Limits, read: V -> seq<M>)
    requires l.max > 0 && 0 < l.listTTL < l.valueTTL
    ensures var calls := [StoreCall(a, Some("c"), value, 0, ALL_DONE)];
      var mem := NoteCalls(NothingSent(), calls);
      && RedisHistory(RunCalls(NoKeys(), calls, l), "c", l.max, read, l.listTTL, ALL_READ) == Success([])
      && mem.Ids("c") == [a] && mem.Young(a, l.valueTTL, l.listTTL)
  {
    var call := StoreCall(a, Some("c"), value, 0, ALL_DONE);
    assert [call][1..] == [];
    FirstStore(call, l);
    NothingToRead(AfterCall(NoKeys(), call, l), "c", l, l.listTTL, read);
  }

  lemma FirstStore<V>(call: StoreCall<V>, l: Limits)
    requires call.context == Some("c") && call.at == 0 && call.replies == ALL_DONE && l.max > 0 && l.listTTL > 0
    ensures AfterCall(NoKeys(), call, l).lists == map[Key("c") := Entry([call.id], Some(l.listTTL))]
    ensures NoteCall(NothingSent(), call) == Memory(map["c" := [call.id]], map[call.id := Sent(call.value, 0)])
  {
    var key, list := Key("c"), [call.id];
    assert [] + list == list;
    var put := SetValue(NoKeys(), MESSAGE_PREFIX + call.id, call.value, l.valueTTL, 0);
    var pushed := Push(put, key, call.id, 0);
    assert pushed.lists == map[key := Entry(list, None)];
    var renewed := Renew(pushed, key, l.listTTL, 0);
    assert renewed.lists == map[key := Entry(list, Some(l.listTTL))];
    TrimKeepsTheEnd(list, l.max);
    assert Trim(renewed, key, -(l.max as int), -1, 0).lists == renewed.lists;
    assert NoteCall(NothingSent(), call).pushed == map["c" := list];
  }

  lemma SecondStore<V>(r: Redis<V>, id: string, call: StoreCall<V>, l: Limits)
    requires call.context == Some("c") && call.at == 1 && call.replies == ALL_DONE.(renew := Refused)
    requires l.max > 1 && l.listTTL > 1 && r.lists == map[Key("c") := Entry([id], Some(l.listTTL))]
    ensures AfterCall(r, call, l).lists == map[Key("c") := Entry([id, call.id], Some(l.listTTL))]
  {
    TrimKeepsTheEnd([id] + [call.id], l.max);
    assert [id] + [call.id] == [id, call.id];
  }

  lemma TwoCalls<V>(first: StoreCall<V>, second: StoreCall<V>, l: Limits)
    ensures RunCalls(NoKeys(), [first, second], l) == AfterCall(AfterCall(NoKeys(), first, l), second, l)
    ensures NoteCalls(NothingSent(), [first, second]) == NoteCall(NoteCall(NothingSent(), first), second)
  {
    assert [first, second][1..] == [second] && [second][1..] == [];
    var r1, mem1 := AfterCall(NoKeys(), first, l), NoteCall(NothingSent(), first);
    assert RunCalls(r1, [second], l) == RunCalls(AfterCall(r1, second, l), [], l);
    assert NoteCalls(mem1, [second]) == NoteCalls(NoteCall(mem1, second), []);
  }

  lemma NothingToRead<V, M>(r: Redis<V>, c: string, l: Limits, now: int, read: V -> seq<M>)
    requires !r.HasList(Key(c), now) && c != ""
    ensures RedisHistory(r, c, l.max, read, now, ALL_READ) == Success([])
  {
    ReadsTheEnd(r, c, l.max, now, ALL_READ, read);
  }
}
