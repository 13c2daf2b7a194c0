/**
 The two models of the manager meet.  A call of the lock-section machine that runs without another
 call in between does to tasks, lists, queues and closed flags what the registry's step does, and
 so runs in which calls take turns are runs of the registry.  `Meaning` is what a call still has
 to do, in one piece; steps of the call do not change it.
 */
module SerialRuns {
  import opened Wrappers
  import opened LockSections
  import P = Protocol
  import R = Registry
  import RegistryRuns

  datatype Seen = Seen(closed: bool, queued: nat)

  /** What one call can see: the shared state, and its own variables. */
  datatype View = View(
    capacity: nat, blocking: bool, tasks: set<TaskId>, lists: map<TaskId, seq<SubId>>, subs: seq<Seen>, once: bool,
    copied: seq<SubId>, failed: seq<SubId>, pending: seq<SubId>, made: Option<SubId>)

  function SeenIn(subs: seq<Sub>): (r: seq<Seen>)
    ensures |r| == |subs| && forall x :: 0 <= x < |subs| ==> r[x] == Seen(subs[x].closed, subs[x].queued)
  {
    seq(|subs|, x requires 0 <= x < |subs| => Seen(subs[x].closed, subs[x].queued))
  }

  function ViewOf(s: State, sh: Shared, lo: Local): View {
    View(s.capacity, s.blocking, sh.tasks, sh.registered, SeenIn(sh.subs), !sh.once.NotCalled?,
         lo.copied, lo.failed, Pending(lo), lo.made)
  }

  // ---------------------------------------------------------------------------------------
  // What instructions mean

  function ListOf(v: View, id: TaskId): seq<SubId> { if id in v.lists then v.lists[id] else [] }

  /** An event offered to a subscriber; a blocking send waits until the consumer makes room. */
  function Offered(v: View, x: SubId): View {
    if x >= |v.subs| || v.subs[x].closed then v.(failed := v.failed + [x])
    else if v.subs[x].queued < v.capacity then v.(subs := v.subs[x := Seen(false, v.subs[x].queued + 1)])
    else if v.blocking then v.(subs := v.subs[x := Seen(false, v.capacity)])
    else v.(failed := v.failed + [x])
  }

  function Offers(v: View, xs: seq<SubId>): View
    decreases |xs|
  {
    if xs == [] then v else Offers(Offered(v, xs[0]), xs[1..])
  }

  function Shut(v: View, x: SubId): View {
    if x < |v.subs| then v.(subs := v.subs[x := v.subs[x].(closed := true)]) else v
  }

  function Shuts(v: View, xs: seq<SubId>): View
    decreases |xs|
  {
    if xs == [] then v else Shuts(Shut(v, xs[0]), xs[1..])
  }

  function ShutPending(v: View): View { Shuts(v.(pending := []), v.pending) }

  function Copied(v: View, id: TaskId): View { v.(copied := ListOf(v, id), failed := []) }

  function Filtered(v: View, id: TaskId): View {
    v.(lists := SetList(v.lists, id, Select(ListOf(v, id), v.failed, false)),
       pending := v.pending + Select(ListOf(v, id), v.failed, true))
  }

  function NotifyRest(v: View, id: TaskId): View {
    var w := Offers(v.(copied := []), v.copied);
    if w.failed == [] then w else ShutPending(Filtered(w, id))
  }

  function Taken(v: View, id: TaskId): View {
    v.(lists := v.lists - {id}, pending := v.pending + ListOf(v, id))
  }

  function Dropped(v: View, id: TaskId): View { Taken(v, id).(tasks := v.tasks - {id}) }

  function DroppedAll(v: View, ids: seq<TaskId>): View
    decreases |ids|
  {
    if ids == [] then v else DroppedAll(Dropped(v, ids[0]), ids[1..])
  }

  function Made(v: View): View { v.(subs := v.subs + [Seen(false, 0)], made := Some(|v.subs|)) }

  function Listing(v: View, id: TaskId): View {
    if v.made.None? then v
    else v.(lists := v.lists[id := ListOf(v, id) + [v.made.value]], made := None)
  }

  function Notified(v: View, id: TaskId, final: bool): View {
    var w := NotifyRest(Copied(v, id), id);
    if final then ShutPending(Taken(w, id)) else w
  }

  function Means(v: View, i: Instr): View {
    match i
    case PutTask(id) => v.(tasks := v.tasks + {id})
    case UpdateTask(id, final) => if id in v.tasks then Notified(v, id, final) else v
    case CopySubscribers(id) => Copied(v, id)
    case NotifyNext(id) => NotifyRest(v, id)
    case SendCheck(x, _) => Offered(v, x)
    case SendRecheck(x, _) => Offered(v, x)
    case Enqueue(x) => Offered(v, x)
    case FilterFailed(id) => Filtered(v, id)
    case TakeSubscribers(id) => Taken(v, id)
    case DropExpired(id) => Dropped(v, id)
    case DropTask(id) => if id in v.tasks then ShutPending(Dropped(v, id)) else v
    case CheckTask(id) => if id in v.tasks then Listing(Made(v), id) else v
    case CreateSubscriber => Made(v)
    case RegisterMade(id) => Listing(v, id)
    case Resubscribe(id) =>
      if id !in v.tasks then v
      else v.(subs := v.subs + [Seen(false, 0)], lists := v.lists[id := ListOf(v, id) + [|v.subs|]])
    case CloseNext => ShutPending(v)
    case SwapFlag(x) => Shut(v, x)
    case EnterOnce(ids) => if v.once then v else ShutPending(DroppedAll(v.(once := true), ids))
    case LeaveOnce => v.(once := true)
    case _ => v
  }

  function Meaning(v: View, code: seq<Instr>): View
    decreases |code|
  {
    if code == [] then v else Meaning(Means(v, code[0]), code[1..])
  }

  lemma {:induction false} MeaningConcat(v: View, a: seq<Instr>, b: seq<Instr>)
    ensures Meaning(v, a + b) == Meaning(Meaning(v, a), b)
    decreases |a|
  {
    if a == [] {
      assert a + b == b;
    } else {
      assert (a + b)[1..] == a[1..] + b;
      MeaningConcat(Means(v, a[0]), a[1..], b);
    }
  }

  lemma {:induction false} MeaningFew(v: View, code: seq<Instr>)
    ensures |code| == 1 ==> Meaning(v, code) == Means(v, code[0])
    ensures |code| == 2 ==> Meaning(v, code) == Means(Means(v, code[0]), code[1])
    ensures |code| == 3 ==> Meaning(v, code) == Means(Means(Means(v, code[0]), code[1]), code[2])
    ensures |code| == 4 ==> Meaning(v, code) == Means(Means(Means(Means(v, code[0]), code[1]), code[2]), code[3])
    decreases |code|
  {
    if 0 < |code| <= 4 {
      MeaningFew(Means(v, code[0]), code[1..]);
    }
  }

  lemma {:induction false} SweepMeaning(v: View, ids: seq<TaskId>)
    ensures Meaning(v, SweepCode(ids)) == DroppedAll(v, ids)
    decreases |ids|
  {
    if ids != [] {
      assert SweepCode(ids)[1..] == SweepCode(ids[1..]);
      SweepMeaning(Dropped(v, ids[0]), ids[1..]);
    }
  }

  lemma SweepAllMeaning(v: View, ids: seq<TaskId>)
    ensures Meaning(v, SweepAllCode(ids)) == ShutPending(DroppedAll(v, ids))
  {
    var start, tail := [AcquireWrite(TaskMu)], [Release(TaskMu), CloseNext];
    MeaningFew(v, start);
    MeaningConcat(v, start, SweepCode(ids));
    SweepMeaning(v, ids);
    MeaningConcat(v, start + SweepCode(ids), tail);
    MeaningFew(DroppedAll(v, ids), tail);
  }

  lemma {:induction false} ShutsEffect(v: View, xs: seq<SubId>)
    ensures var w := Shuts(v, xs);
      && w == v.(subs := w.subs) && |w.subs| == |v.subs|
      && forall x :: 0 <= x < |v.subs| ==> w.subs[x] == Seen(v.subs[x].closed || x in xs, v.subs[x].queued)
    decreases |xs|
  {
    if xs != [] {
      ShutsEffect(Shut(v, xs[0]), xs[1..]);
      assert xs == [xs[0]] + xs[1..];
    }
  }

  /** The closing at the end of a call closes exactly what the call collected. */
  lemma ShutPendingEffect(v: View)
    ensures var w := ShutPending(v);
      && w == v.(subs := w.subs, pending := []) && |w.subs| == |v.subs|
      && forall x :: 0 <= x < |v.subs| ==> w.subs[x] == Seen(v.subs[x].closed || x in v.pending, v.subs[x].queued)
  {
    ShutsEffect(v.(pending := []), v.pending);
  }

  /** A sweep takes the lists of all its tasks and collects their members. */
  lemma {:induction false} DroppedAllEffect(v: View, ids: seq<TaskId>)
    ensures var w := DroppedAll(v, ids);
      && w == v.(tasks := v.tasks - Elements(ids), lists := v.lists - Elements(ids), pending := w.pending)
      && forall x :: x in w.pending <==> x in v.pending || exists id :: id in ids && x in ListOf(v, id)
    decreases |ids|
  {
    if ids == [] {
      assert v.tasks - Elements(ids) == v.tasks && v.lists - Elements(ids) == v.lists;
    } else {
      var u, id, rest := Dropped(v, ids[0]), ids[0], ids[1..];
      DroppedAllEffect(u, rest);
      assert Elements(ids) == {id} + Elements(rest);
      var w := DroppedAll(u, rest);
      assert w.tasks == v.tasks - Elements(ids) && w.lists == v.lists - Elements(ids);
      forall x ensures x in w.pending <==> x in v.pending || exists a :: a in ids && x in ListOf(v, a) {
        if x in ListOf(v, id) {
          assert id in ids && x in u.pending;
        }
        forall a | a in rest && x in ListOf(u, a) ensures a in ids && x in ListOf(v, a) {}
        forall a | a in ids && a != id && x in ListOf(v, a) ensures a in rest && x in ListOf(u, a) {}
      }
    }
  }

  /** The section of `i` and the closing after it. */
  lemma CriticalMeaning(v: View, l: Lock, i: Instr)
    ensures Meaning(v, Critical(l, i)) == Means(v, i)
    ensures Meaning(v, Critical(l, i) + [CloseNext]) == ShutPending(Means(v, i))
  {
    MeaningFew(v, Critical(l, i));
    MeaningConcat(v, Critical(l, i), [CloseNext]);
    MeaningFew(Means(v, i), [CloseNext]);
  }

  // ---------------------------------------------------------------------------------------
  // A step of a call does not change what the call means

  lemma NotifyMeaning(v: View, id: TaskId, final: bool)
    ensures Meaning(v, NotifyCode(id) + (if final then CleanSubscribersCode(id) else [])) == Notified(v, id, final)
  {
    var w := NotifyRest(Copied(v, id), id);
    MeaningFew(v, NotifyCode(id));
    MeaningConcat(v, NotifyCode(id), if final then CleanSubscribersCode(id) else []);
    CriticalMeaning(w, TaskMu, TakeSubscribers(id));
    TakenIsEmpty(w, id);
  }

  lemma TakenIsEmpty(v: View, id: TaskId)
    ensures SetList(v.lists, id, []) == v.lists - {id}
  {
  }

  lemma UpdateMeaning(v: View, id: TaskId, final: bool)
    ensures Meaning(v, [Release(TaskMu)]
              + (if id in v.tasks then NotifyCode(id) + (if final then CleanSubscribersCode(id) else []) else []))
         == Means(v, UpdateTask(id, final))
  {
    var code := if id in v.tasks then NotifyCode(id) + (if final then CleanSubscribersCode(id) else []) else [];
    MeaningFew(v, [Release(TaskMu)]);
    MeaningConcat(v, [Release(TaskMu)], code);
    NotifyMeaning(v, id, final);
  }

  lemma SubscribeMeaning(v: View, id: TaskId)
    ensures Meaning(v, [Release(TaskMu)]
              + (if id !in v.tasks then []
                 else [AcquireRead(ConversationMu), Work, Release(ConversationMu), CreateSubscriber]
                      + Critical(TaskMu, RegisterMade(id))))
         == if id in v.tasks then Listing(Made(v), id) else v
  {
    var look := [AcquireRead(ConversationMu), Work, Release(ConversationMu), CreateSubscriber];
    var code := if id !in v.tasks then [] else look + Critical(TaskMu, RegisterMade(id));
    MeaningFew(v, [Release(TaskMu)]);
    MeaningConcat(v, [Release(TaskMu)], code);
    assert Meaning(v, [Release(TaskMu)]) == v;
    CreationMeaning(v, id);
  }

  lemma CreationMeaning(v: View, id: TaskId)
    ensures Meaning(v, [AcquireRead(ConversationMu), Work, Release(ConversationMu), CreateSubscriber]
                       + Critical(TaskMu, RegisterMade(id))) == Listing(Made(v), id)
  {
    var look := [AcquireRead(ConversationMu), Work, Release(ConversationMu), CreateSubscriber];
    MeaningConcat(v, look, Critical(TaskMu, RegisterMade(id)));
    CriticalMeaning(Made(v), TaskMu, RegisterMade(id));
    assert Meaning(v, look) == Made(v) by {
      MeaningFew(v, look);
    }
  }

  lemma DropMeaning(v: View)
    ensures Meaning(v, [Release(TaskMu), CloseNext] + Critical(ManagerMu, Work)) == ShutPending(v)
  {
    MeaningFew(v, [Release(TaskMu), CloseNext]);
    MeaningConcat(v, [Release(TaskMu), CloseNext], Critical(ManagerMu, Work));
    CriticalMeaning(ShutPending(v), ManagerMu, Work);
  }

  lemma OnceMeaning(v: View, ids: seq<TaskId>)
    requires v.once
    ensures Meaning(v, [AwaitCleaner] + SweepAllCode(ids) + [LeaveOnce]) == ShutPending(DroppedAll(v, ids))
  {
    MeaningFew(v, [AwaitCleaner]);
    MeaningConcat(v, [AwaitCleaner], SweepAllCode(ids));
    SweepAllMeaning(v, ids);
    MeaningConcat(v, [AwaitCleaner] + SweepAllCode(ids), [LeaveOnce]);
    MeaningFew(ShutPending(DroppedAll(v, ids)), [LeaveOnce]);
    DroppedAllEffect(v, ids);
    ShutPendingEffect(DroppedAll(v, ids));
  }

  /** The instructions whose effect is more than locks, and not at a queue. */
  predicate Acts(i: Instr) { !Plain(i) && !i.AwaitCleaner? }

  /** What an instruction does, and then the instructions it puts in front, are what it means. */
  lemma EffectMeaning(s: State, sh: Shared, lo: Local, t: ThreadId, i: Instr)
    requires Acts(i)
    ensures var (sh', lo', code) := Effect(sh, lo, t, i);
      Meaning(ViewOf(s, sh', lo'), code) == Means(ViewOf(s, sh, lo), i)
  {
    match i {
      case UpdateTask(_, _) => SectionMeaning(s, sh, lo, t, i);
      case CheckTask(_) => SectionMeaning(s, sh, lo, t, i);
      case SendCheck(_, _) => SendMeaning(s, sh, lo, t, i);
      case SendRecheck(_, _) => SendMeaning(s, sh, lo, t, i);
      case EnterOnce(ids) => EnterMeaning(s, sh, lo, t, ids);
      case DropTask(id) => DropTaskMeaning(s, sh, lo, t, id);
      case NotifyNext(id) => NotifyNextMeaning(s, sh, lo, t, id);
      case CloseNext => CloseNextMeaning(s, sh, lo, t);
      case SwapFlag(x) => SwapMeaning(s, sh, lo, t, x);
      case CloseDone(x) => CloseDoneMeaning(s, sh, lo, t, x);
      case _ => OneEffectMeaning(s, sh, lo, t, i);
    }
  }

  lemma SectionMeaning(s: State, sh: Shared, lo: Local, t: ThreadId, i: Instr)
    requires i.UpdateTask? || i.CheckTask?
    ensures var (sh', lo', code) := Effect(sh, lo, t, i);
      Meaning(ViewOf(s, sh', lo'), code) == Means(ViewOf(s, sh, lo), i)
  {
    var v := ViewOf(s, sh, lo);
    if i.UpdateTask? {
      UpdateMeaning(v, i.id, i.final);
    } else {
      SubscribeMeaning(v, i.id);
    }
  }

  lemma SendMeaning(s: State, sh: Shared, lo: Local, t: ThreadId, i: Instr)
    requires i.SendCheck? || i.SendRecheck?
    ensures var (sh', lo', code) := Effect(sh, lo, t, i);
      Meaning(ViewOf(s, sh', lo'), code) == Offered(ViewOf(s, sh, lo), i.sub)
  {
    var (sh', lo', code) := Effect(sh, lo, t, i);
    MeaningFew(ViewOf(s, sh', lo'), code);
  }

  lemma OneEffectMeaning(s: State, sh: Shared, lo: Local, t: ThreadId, i: Instr)
    requires i.PutTask? || i.CopySubscribers? || i.FilterFailed? || i.TakeSubscribers? || i.DropExpired?
          || i.CreateSubscriber? || i.RegisterMade? || i.Resubscribe? || i.LeaveOnce?
    ensures var (sh', lo', code) := Effect(sh, lo, t, i);
      code == [] && ViewOf(s, sh', lo') == Means(ViewOf(s, sh, lo), i)
  {
    var (sh', lo', code) := Effect(sh, lo, t, i);
    if i.CreateSubscriber? || (i.Resubscribe? && i.id in sh.tasks) {
      assert SeenIn(sh'.subs) == SeenIn(sh.subs) + [Seen(false, 0)];
    }
  }

  lemma EnterMeaning(s: State, sh: Shared, lo: Local, t: ThreadId, ids: seq<TaskId>)
    ensures var (sh', lo', code) := Effect(sh, lo, t, EnterOnce(ids));
      Meaning(ViewOf(s, sh', lo'), code) == Means(ViewOf(s, sh, lo), EnterOnce(ids))
  {
    if sh.once.NotCalled? {
      OnceMeaning(ViewOf(s, sh, lo).(once := true), ids);
    }
  }

  lemma DropTaskMeaning(s: State, sh: Shared, lo: Local, t: ThreadId, id: TaskId)
    ensures var (sh', lo', code) := Effect(sh, lo, t, DropTask(id));
      Meaning(ViewOf(s, sh', lo'), code) == Means(ViewOf(s, sh, lo), DropTask(id))
  {
    var v := ViewOf(s, sh, lo);
    if id in sh.tasks {
      DropMeaning(Dropped(v, id));
    } else {
      MeaningFew(v, [Release(TaskMu)]);
    }
  }

  lemma NotifyNextMeaning(s: State, sh: Shared, lo: Local, t: ThreadId, id: TaskId)
    ensures var (sh', lo', code) := Effect(sh, lo, t, NotifyNext(id));
      Meaning(ViewOf(s, sh', lo'), code) == NotifyRest(ViewOf(s, sh, lo), id)
  {
    var v := ViewOf(s, sh, lo);
    if lo.copied == [] {
      LastOffer(v, id);
    } else if Get(sh, lo.copied[0]).closed {
      RefusedAtOnce(v, id);
    } else {
      NextOffer(v, id);
    }
  }

  lemma LastOffer(v: View, id: TaskId)
    requires v.copied == []
    ensures Meaning(v, if v.failed == [] then [] else Critical(TaskMu, FilterFailed(id)) + [CloseNext])
         == NotifyRest(v, id)
  {
    assert v.(copied := []) == v;
    assert Offers(v, []) == v;
    if v.failed != [] {
      CriticalMeaning(v, TaskMu, FilterFailed(id));
      assert Means(v, FilterFailed(id)) == Filtered(v, id);
    }
  }

  lemma RefusedAtOnce(v: View, id: TaskId)
    requires v.copied != [] && (v.copied[0] >= |v.subs| || v.subs[v.copied[0]].closed)
    ensures Meaning(v.(copied := v.copied[1..], failed := v.failed + [v.copied[0]]), [NotifyNext(id)])
         == NotifyRest(v, id)
  {
    OfferFirst(v, id);
    MeaningFew(v.(copied := v.copied[1..], failed := v.failed + [v.copied[0]]), [NotifyNext(id)]);
  }

  lemma NextOffer(v: View, id: TaskId)
    requires v.copied != []
    ensures Meaning(v.(copied := v.copied[1..]), [SendCheck(v.copied[0], false), NotifyNext(id)]) == NotifyRest(v, id)
  {
    OfferFirst(v, id);
    MeaningFew(v.(copied := v.copied[1..]), [SendCheck(v.copied[0], false), NotifyNext(id)]);
  }

  lemma OfferFirst(v: View, id: TaskId)
    requires v.copied != []
    ensures NotifyRest(v, id) == NotifyRest(Offered(v.(copied := v.copied[1..]), v.copied[0]), id)
  {
    var x, rest := v.copied[0], v.copied[1..];
    assert Offered(v.(copied := rest), x).(copied := []) == Offered(v.(copied := []), x);
  }

  lemma CloseNextMeaning(s: State, sh: Shared, lo: Local, t: ThreadId)
    ensures var (sh', lo', code) := Effect(sh, lo, t, CloseNext);
      Meaning(ViewOf(s, sh', lo'), code) == Means(ViewOf(s, sh, lo), CloseNext)
  {
    var (sh', lo', code) := Effect(sh, lo, t, CloseNext);
    var v := ViewOf(s, sh', lo');
    MeaningFew(v, code);
    if Pending(lo) != [] {
      SwapSeen(sh, Pending(lo)[0]);
      assert v.(pending := []) == Shut(ViewOf(s, sh, lo).(pending := []), Pending(lo)[0]);
    }
  }

  lemma SwapSeen(sh: Shared, x: SubId)
    ensures var seen := SeenIn(sh.subs);
      SeenIn(Swap(sh, x).0.subs) == if x < |seen| then seen[x := seen[x].(closed := true)] else seen
  {
  }

  lemma SwapMeaning(s: State, sh: Shared, lo: Local, t: ThreadId, x: SubId)
    ensures var (sh', lo', code) := Effect(sh, lo, t, SwapFlag(x));
      Meaning(ViewOf(s, sh', lo'), code) == Means(ViewOf(s, sh, lo), SwapFlag(x))
  {
    var (sh', lo', code) := Effect(sh, lo, t, SwapFlag(x));
    SwapSeen(sh, x);
    MeaningFew(ViewOf(s, sh', lo'), code);
  }

  lemma CloseDoneMeaning(s: State, sh: Shared, lo: Local, t: ThreadId, x: SubId)
    ensures var (sh', lo', code) := Effect(sh, lo, t, CloseDone(x));
      Meaning(ViewOf(s, sh', lo'), code) == ViewOf(s, sh, lo)
  {
    var (sh', lo', code) := Effect(sh, lo, t, CloseDone(x));
    assert SeenIn(sh'.subs) == SeenIn(sh.subs);
    CriticalMeaning(ViewOf(s, sh', lo'), SubscriberMu(x), Work);
  }

  // ---------------------------------------------------------------------------------------
  // A call alone

  /** Without calls in between an open subscriber is not done. */
  ghost predicate DoneAreClosed(sh: Shared) {
    forall x :: 0 <= x < |sh.subs| && sh.subs[x].done ==> sh.subs[x].closed
  }

  /** The call is at a queue only right after the look that found the subscriber open, and closes
      done only right after it set the flag. */
  predicate Later(i: Instr) {
    && !i.Enqueue? && !i.CloseDone?
    && (i.SendCheck? || i.SendRecheck? ==> !i.stores)
  }

  predicate AllLater(code: seq<Instr>) { forall k :: 0 <= k < |code| ==> Later(code[k]) }

  predicate HeadOk(sh: Shared, i: Instr) {
    if i.Enqueue? then !Get(sh, i.sub).closed else if i.CloseDone? then Get(sh, i.sub).closed else Later(i)
  }

  predicate AloneOk(sh: Shared, code: seq<Instr>) {
    code == [] || (HeadOk(sh, code[0]) && AllLater(code[1..]))
  }

  /** Steps of the call, the exit of the cleanup goroutine, and room made at the full queue that a
      blocking send of the call waits for. */
  predicate Alone(s: State, t: ThreadId, a: Action) {
    && t < |s.threads|
    && match a
       case Go(u, _) => u == t
       case CleanerExits => true
       case Consume(x) =>
         && s.blocking && s.threads[t].At(Enqueue(x))
         && Get(s.shared, x).queued >= s.capacity
       case Call(_, _) => false
  }

  function MeaningOf(s: State, t: ThreadId): View
    requires t < |s.threads|
  {
    Meaning(ViewOf(s, s.shared, s.threads[t].local), s.threads[t].code)
  }

  ghost predicate Calling(s: State, t: ThreadId) {
    t < |s.threads| && DoneAreClosed(s.shared) && AloneOk(s.shared, s.threads[t].code)
  }

  /** No step of the call, and nothing it may wait for, changes what the call means. */
  lemma StepKeepsMeaning(s: State, t: ThreadId, a: Action)
    requires Calling(s, t) && Enabled(s, a) && Alone(s, t, a)
    ensures Calling(Apply(s, a), t) && MeaningOf(Apply(s, a), t) == MeaningOf(s, t)
  {
    match a {
      case Go(_, o) =>
        GoKeepsMeaning(s, t, o);
        GoKeepsCalling(s, t, o);
      case Consume(x) => RoomKeepsMeaning(s, t, x);
      case CleanerExits =>
    }
  }

  lemma RoomKeepsMeaning(s: State, t: ThreadId, x: SubId)
    requires Calling(s, t) && Enabled(s, Consume(x)) && Alone(s, t, Consume(x))
    ensures Calling(Apply(s, Consume(x)), t) && MeaningOf(Apply(s, Consume(x)), t) == MeaningOf(s, t)
  {
    var s' := Apply(s, Consume(x));
    var lo := s.threads[t].local;
    var v, w := ViewOf(s, s.shared, lo), ViewOf(s', s'.shared, lo);
    assert w.subs == v.subs[x := Seen(false, v.subs[x].queued - 1)];
    assert Offered(w, x).subs == Offered(v, x).subs;
  }

  lemma GoKeepsMeaning(s: State, t: ThreadId, o: Outcome)
    requires Calling(s, t) && CanStep(s, t, o)
    ensures MeaningOf(Step(s, t, o), t) == MeaningOf(s, t)
  {
    var th := s.threads[t];
    var i, rest := th.code[0], th.code[1..];
    var v := ViewOf(s, s.shared, th.local);
    if i.Enqueue? {
      EnqueueKeepsMeaning(s, t, o);
    } else if Acts(i) {
      var (sh, lo, code) := Effect(s.shared, th.local, t, i);
      EffectMeaning(s, s.shared, th.local, t, i);
      MeaningConcat(ViewOf(s, sh, lo), code, rest);
      assert MeaningOf(Step(s, t, o), t) == Meaning(ViewOf(s, sh, lo), code + rest);
    } else {
      LocksMeanNothing(s, t, o);
    }
  }

  lemma LocksMeanNothing(s: State, t: ThreadId, o: Outcome)
    requires CanStep(s, t, o) && !Acts(s.threads[t].code[0]) && !s.threads[t].code[0].Enqueue?
    ensures MeaningOf(Step(s, t, o), t) == MeaningOf(s, t)
  {
    var th, th' := s.threads[t], Step(s, t, o).threads[t];
    var v := ViewOf(s, s.shared, th.local);
    assert ViewOf(s, Step(s, t, o).shared, th'.local) == v;
    if th.code[0].AcquireWrite? {
      assert th'.code[1..] == th.code[1..];
    } else {
      assert th'.code == th.code[1..];
    }
  }

  lemma EnqueueKeepsMeaning(s: State, t: ThreadId, o: Outcome)
    requires Calling(s, t) && CanStep(s, t, o) && s.threads[t].code[0].Enqueue?
    ensures MeaningOf(Step(s, t, o), t) == MeaningOf(s, t)
  {
    var th, s' := s.threads[t], Step(s, t, o);
    var x := th.code[0].sub;
    var v, w := ViewOf(s, s.shared, th.local), ViewOf(s', s'.shared, s'.threads[t].local);
    assert x < |s.shared.subs| && !s.shared.subs[x].done;
    if o.Sent? {
      assert w.subs == v.subs[x := Seen(false, v.subs[x].queued + 1)];
    } else {
      assert w.subs == v.subs && w.failed == v.failed + [x];
    }
    assert w == Offered(v, x);
    assert s'.threads[t].code == th.code[1..];
  }

  lemma GoKeepsCalling(s: State, t: ThreadId, o: Outcome)
    requires Calling(s, t) && CanStep(s, t, o)
    ensures Calling(Step(s, t, o), t)
  {
    var th, s' := s.threads[t], Step(s, t, o);
    EffectKeepsDone(s, t, o);
    if Plain(th.code[0]) {
      PlainKeepsAlone(s, t, o);
    } else {
      var (sh, lo, code) := Effect(s.shared, th.local, t, th.code[0]);
      FrontAlone(s.shared, th.local, t, th.code[0]);
      AloneConcat(sh, code, th.code[1..]);
      assert s'.threads[t].code == code + th.code[1..];
    }
  }

  lemma PlainKeepsAlone(s: State, t: ThreadId, o: Outcome)
    requires Calling(s, t) && CanStep(s, t, o) && Plain(s.threads[t].code[0])
    ensures AloneOk(Step(s, t, o).shared, Step(s, t, o).threads[t].code)
  {
    var code, code' := s.threads[t].code, Step(s, t, o).threads[t].code;
    assert code[0].AcquireWrite? ==> code'[1..] == code[1..];
    assert !code[0].AcquireWrite? ==> code' == code[1..];
  }

  lemma AloneConcat(sh: Shared, code: seq<Instr>, rest: seq<Instr>)
    requires AloneOk(sh, code) && AllLater(rest)
    ensures AloneOk(sh, code + rest)
  {
    if code == [] {
      assert code + rest == rest;
    } else {
      assert (code + rest)[1..] == code[1..] + rest;
      ConcatLater(code[1..], rest);
    }
  }

  lemma EffectKeepsDone(s: State, t: ThreadId, o: Outcome)
    requires Calling(s, t) && CanStep(s, t, o)
    ensures DoneAreClosed(Step(s, t, o).shared)
  {
  }

  lemma FrontAlone(sh: Shared, lo: Local, t: ThreadId, i: Instr)
    requires HeadOk(sh, i) && !Plain(i)
    ensures var (sh', _, code) := Effect(sh, lo, t, i); AloneOk(sh', code)
  {
    if i.EnterOnce? {
      OnceLater(i.ids);
    } else if GoesOn(i) {
      SectionsLater(sh, lo, t, i);
    } else {
      ShortLater(sh, lo, t, i);
    }
  }

  lemma ShortLater(sh: Shared, lo: Local, t: ThreadId, i: Instr)
    requires HeadOk(sh, i) && !Plain(i) && !i.EnterOnce? && !GoesOn(i)
    ensures var (sh', _, code) := Effect(sh, lo, t, i); AloneOk(sh', code)
  {
  }

  lemma ConcatLater(a: seq<Instr>, b: seq<Instr>)
    requires AllLater(a) && AllLater(b)
    ensures AllLater(a + b)
  {
  }

  lemma OnceLater(ids: seq<TaskId>)
    ensures AllLater(SweepAllCode(ids)) && AllLater([AwaitCleaner] + SweepAllCode(ids) + [LeaveOnce])
  {
    SweepLater(ids);
    ConcatLater([AcquireWrite(TaskMu)], SweepCode(ids));
    ConcatLater([AcquireWrite(TaskMu)] + SweepCode(ids), [Release(TaskMu), CloseNext]);
    ConcatLater([AwaitCleaner], SweepAllCode(ids));
    ConcatLater([AwaitCleaner] + SweepAllCode(ids), [LeaveOnce]);
  }

  lemma SectionsLater(sh: Shared, lo: Local, t: ThreadId, i: Instr)
    requires GoesOn(i)
    ensures AllLater(Effect(sh, lo, t, i).2)
  {
  }

  lemma {:induction false} SweepLater(ids: seq<TaskId>)
    ensures AllLater(SweepCode(ids))
    decreases |ids|
  {
    if ids != [] {
      SweepLater(ids[1..]);
    }
  }

  // ---------------------------------------------------------------------------------------
  // What the registry's step does

  ghost predicate SubsAgree<E>(v: View, subs: map<SubId, R.Subscriber<E>>) {
    && (forall x: SubId :: x in subs <==> x < |v.subs|)
    && forall x: SubId :: x in subs ==> SubAgrees(v, v.subs[x], subs[x])
  }

  ghost predicate SubAgrees<E>(v: View, seen: Seen, x: R.Subscriber<E>) {
    && seen == Seen(x.closed, |x.queue|) && |x.queue| <= x.capacity
    && x.capacity == v.capacity && x.blocking == v.blocking
  }

  /** The same tasks, lists, queue lengths and closed flags. */
  ghost predicate Agrees<E>(v: View, r: R.Registry<SubId, E>) {
    v.tasks == r.tasks.Keys && v.lists == r.subscribers && SubsAgree(v, r.subs)
  }

  ghost predicate Waits(wait: nat -> R.Wait) { forall i :: wait(i) == R.ConsumerReceives }

  /** The registry step that a call stands for, if any; an empty ID is refused before any lock is
      taken, and for it there is no call. */
  ghost predicate StandsFor<E>(v: View, op: Op, step: Option<R.Op<SubId, E>>, r: R.Registry<SubId, E>, c: R.Config) {
    match op
    case BuildTask(id) => step.Some? && step.value.BuildTask? && R.ActualID(step.value.id, step.value.freshID) == id
    case UpdateTaskState(id, final) =>
      && id != "" && step.Some? && step.value.UpdateTaskState? && step.value.id == Some(id)
      && final == R.IsFinalState(step.value.status.state) && Waits(step.value.wait)
    case AddArtifact(id) =>
      && id != "" && step.Some? && step.value.AddTaskArtifact? && step.value.id == Some(id) && Waits(step.value.wait)
    case SubscribeTask(id) =>
      if id in r.tasks then step.Some? && step.value.AddSubscriber? && Subscribes(v, id, step.value)
      else step.None?
    case OnResubscribe(id) => step.Some? && step.value.Resubscribe? && Subscribes(v, id, step.value)
    case CleanTask(id) => id != "" && step == Some(R.CleanTask(Some(id)))
    case OnCancelTask(id) => id != "" && step == Some(R.CleanTask(Some(id)))
    case CleanExpiredTasks(ids) => Sweeps(ids, step, r, c)
    case CleanerTick(ids) => Sweeps(ids, step, r, c)
    case ManagerClose(ids) =>
      if v.once then step.None?
      else step == Some(R.CloseManager) && Elements(ids) == r.tasks.Keys + r.subscribers.Keys
    case PushConfig => step.Some? ==> step.value.SetPush?
    case Close(x) => step == Some(R.CloseSubscriber(x))
    case OnGetTask(_) => step.None?
    case StoreMessage => step.None?
    case ReadHistory => step.None?
    case Send(_, _) => false
  }

  ghost predicate Subscribes<E>(v: View, id: TaskId, step: R.Op<SubId, E>)
    requires step.AddSubscriber? || step.Resubscribe?
  {
    step.taskID == id && step.sub == |v.subs|
  }

  ghost predicate Sweeps<E>(ids: seq<TaskId>, step: Option<R.Op<SubId, E>>, r: R.Registry<SubId, E>, c: R.Config) {
    && step.Some? && step.value.CleanExpiredTasks?
    && Elements(ids) == (if step.value.maxAge <= 0 then {}
                         else R.ExpiredTasks(r.tasks, step.value.now, step.value.maxAge, c))
  }

  ghost function Stepped<E>(r: R.Registry<SubId, E>, step: Option<R.Op<SubId, E>>, c: R.Config): R.Registry<SubId, E>
    requires step.Some? ==> R.Lists(r) && R.Allowed(r, step.value, c)
  {
    if step.None? then r else R.Step(r, step.value, c)
  }

  lemma {:induction false} OffersLast(v: View, xs: seq<SubId>, x: SubId)
    ensures Offers(v, xs + [x]) == Offered(Offers(v, xs), x)
    decreases |xs|
  {
    if xs == [] {
      assert [x][1..] == [];
      assert xs + [x] == [x];
    } else {
      assert (xs + [x])[1..] == xs[1..] + [x];
      OffersLast(Offered(v, xs[0]), xs[1..], x);
    }
  }

  /** The send loop of the machine and the delivery of the registry. */
  lemma {:induction false} OffersAreDelivered<E>(v: View, subs: map<SubId, R.Subscriber<E>>, event: P.Event,
                                                 targets: seq<SubId>, e: E, wait: nat -> R.Wait)
    requires SubsAgree(v, subs) && R.AllIn(targets, subs) && Waits(wait) && v.failed == []
    ensures var w, d := Offers(v, targets), R.Deliver(subs, event, targets, e, wait);
      && w == v.(subs := w.subs, failed := d.failed) && SubsAgree(w, d.subs)
    decreases |targets|
  {
    if targets != [] {
      var n := |targets| - 1;
      var front, x := targets[..n], targets[n];
      assert targets == front + [x];
      OffersLast(v, front, x);
      OffersAreDelivered(v, subs, event, front, e, wait);
      OfferIsSent(Offers(v, front), R.Deliver(subs, event, front, e, wait), x, e, wait(n));
    }
  }

  lemma OfferIsSent<E>(v: View, d: R.Delivery<SubId, E>, x: SubId, e: E, wait: R.Wait)
    requires SubsAgree(v, d.subs) && v.failed == d.failed && x in d.subs && wait == R.ConsumerReceives
    ensures var w, s := Offered(v, x), d.subs[x];
      && w == v.(subs := w.subs, failed := if R.Rejects(s, wait) then d.failed + [x] else d.failed)
      && SubsAgree(w, d.subs[x := R.Sent(s, e, wait)])
  {
    assert SubAgrees(v, v.subs[x], d.subs[x]);
  }

  lemma {:induction false} SelectIsWithin(xs: seq<SubId>, gone: seq<SubId>)
    ensures Select(xs, gone, true) == R.Within(xs, gone) && Select(xs, gone, false) == R.Without(xs, gone)
    decreases |xs|
  {
    if xs != [] {
      var front, x := xs[..|xs| - 1], xs[|xs| - 1];
      SelectIsWithin(front, gone);
      assert xs == front + [x];
      SelectLast(front, x, gone, true);
      SelectLast(front, x, gone, false);
      assert R.Within(xs, gone) == R.Within(front, gone) + if x in gone then [x] else [];
      assert R.Without(xs, gone) == R.Without(front, gone) + if x in gone then [] else [x];
    }
  }

  lemma {:induction false} SelectLast(xs: seq<SubId>, x: SubId, gone: seq<SubId>, keep: bool)
    ensures Select(xs + [x], gone, keep) == Select(xs, gone, keep) + if (x in gone) == keep then [x] else []
    decreases |xs|
  {
    if xs != [] {
      assert (xs + [x])[1..] == xs[1..] + [x];
      SelectLast(xs[1..], x, gone, keep);
    } else {
      assert [x][1..] == [];
    }
  }

  /** Closing what was collected, in the machine and in the registry. */
  lemma ClosedAgree<E>(v: View, subs: map<SubId, R.Subscriber<E>>, after: map<SubId, R.Subscriber<E>>)
    requires SubsAgree(v, subs) && after.Keys == subs.Keys
    requires forall x :: x in subs ==> after[x] == if x in v.pending then subs[x].(closed := true) else subs[x]
    ensures var w := ShutPending(v); w == v.(subs := w.subs, pending := []) && SubsAgree(w, after)
  {
    ShutPendingEffect(v);
    var w := ShutPending(v);
    forall x: SubId | x in after ensures SubAgrees(w, w.subs[x], after[x]) {
      assert SubAgrees(v, v.subs[x], subs[x]);
    }
  }

  /** A notification is one step of the registry. */
  lemma NotifiedIsPublished<E>(v: View, r: R.Registry<SubId, E>, id: TaskId, e: E, event: P.Event, wait: nat -> R.Wait)
    requires Agrees(v, r) && v.pending == [] && R.Lists(r) && R.AllIn(r.Listed(id), r.subs) && Waits(wait)
    ensures var w := NotifyRest(Copied(v, id), id);
      w.pending == [] && Agrees(w, R.Publish(r, id, e, event, wait))
  {
    var u, xs := Copied(v, id).(copied := []), r.Listed(id);
    OffersAreDelivered(u, r.subs, event, xs, e, wait);
    var w, d := Offers(u, xs), R.Deliver(r.subs, event, xs, e, wait);
    var sent := r.(subs := d.subs, events := r.events[e := d.event], log := r.log[id := r.Log(id) + [e]]);
    FilteredIsDropped(w, sent, id);
  }

  lemma FilteredIsDropped<E>(w: View, r: R.Registry<SubId, E>, id: TaskId)
    requires Agrees(w, r) && w.pending == [] && (id in r.subscribers ==> r.subscribers[id] != [])
    ensures var after := R.DropFailed(r, id, w.failed);
      && (w.failed == [] ==> Agrees(w, after))
      && var closed := ShutPending(Filtered(w, id)); closed.pending == [] && Agrees(closed, after)
  {
    var u, after := Filtered(w, id), R.DropFailed(r, id, w.failed);
    FilteredLists(w, r, id);
    RegistryRuns.WithoutMembers(r.Listed(id), w.failed);
    ClosedAgree(u, r.subs, after.subs);
    if w.failed == [] {
      RegistryRuns.NoneDropped(r, id);
    }
  }

  lemma FilteredLists<E>(w: View, r: R.Registry<SubId, E>, id: TaskId)
    requires Agrees(w, r) && w.pending == [] && (id in r.subscribers ==> r.subscribers[id] != [])
    ensures var u, after := Filtered(w, id), R.DropFailed(r, id, w.failed);
      && u == w.(lists := after.subscribers, pending := R.Within(r.Listed(id), w.failed))
      && after.tasks == r.tasks
  {
    SelectIsWithin(r.Listed(id), w.failed);
    ListsAfterFilter(w.lists, id, r.Listed(id), w.failed);
  }

  lemma ListsAfterFilter(lists: map<TaskId, seq<SubId>>, id: TaskId, xs: seq<SubId>, failed: seq<SubId>)
    requires if id in lists then xs == lists[id] != [] else xs == []
    ensures SetList(lists, id, R.Without(xs, failed)) == R.ListsAfter(lists, id, xs, failed)
  {
    NothingWithin(xs, failed);
    if R.Within(xs, failed) == [] {
      assert SetList(lists, id, xs) == lists;
    }
  }

  lemma NothingWithin(xs: seq<SubId>, gone: seq<SubId>)
    ensures R.Within(xs, gone) == [] ==> R.Without(xs, gone) == xs
  {
    RegistryRuns.WithoutMembers(xs, gone);
  }

  // ---------------------------------------------------------------------------------------
  // Each call is its step

  lemma RemovedAgree<E>(v: View, r: R.Registry<SubId, E>, ids: seq<TaskId>)
    requires Agrees(v, r) && v.pending == []
    ensures var w := ShutPending(DroppedAll(v, ids)); w.pending == [] && Agrees(w, R.RemoveTasks(r, Elements(ids)))
  {
    var u, after := DroppedAll(v, ids), R.RemoveTasks(r, Elements(ids));
    DroppedAllEffect(v, ids);
    forall x | x in r.subs
      ensures after.subs[x] == if x in u.pending then r.subs[x].(closed := true) else r.subs[x]
    {
      assert forall id :: ListOf(v, id) == r.Listed(id);
      assert x in u.pending <==> R.InLists(r, Elements(ids), x);
    }
    ClosedAgree(u, r.subs, after.subs);
    assert after.tasks.Keys == r.tasks.Keys - Elements(ids);
  }

  lemma TakenAgree<E>(v: View, r: R.Registry<SubId, E>, id: TaskId)
    requires Agrees(v, r) && v.pending == []
    ensures var w := ShutPending(Taken(v, id)); w.pending == [] && Agrees(w, R.CloseLists(r, {id}))
  {
    var u, after := Taken(v, id), R.CloseLists(r, {id});
    forall x | x in r.subs
      ensures after.subs[x] == if x in u.pending then r.subs[x].(closed := true) else r.subs[x]
    {
      assert id in {id};
      assert x in u.pending <==> R.InLists(r, {id}, x);
    }
    ClosedAgree(u, r.subs, after.subs);
  }

  lemma OneDropped(v: View, id: TaskId)
    ensures DroppedAll(v, [id]) == Dropped(v, id) && Elements([id]) == {id}
  {
    assert [id][1..] == [];
  }

  /** New subscribers have room for as many events as the machine's. */
  predicate Fits(v: View, c: R.Config) {
    && v.capacity == (if c.bufferSize <= 0 then R.DEFAULT_SUBSCRIBER_BUFFER_SIZE else c.bufferSize)
    && v.blocking == c.blocking
  }

  lemma AttachedAgree<E>(v: View, r: R.Registry<SubId, E>, id: TaskId, context: string, c: R.Config)
    requires Agrees(v, r) && Fits(v, c)
    ensures var x := R.NewSubscriber(id, c.bufferSize, c.blocking, context, |r.Log(id)|);
      Agrees(v.(subs := v.subs + [Seen(false, 0)], lists := v.lists[id := ListOf(v, id) + [|v.subs|]]),
             R.Attach(r, id, |v.subs|, x))
  {
    assert forall x :: x in r.subs ==> SubAgrees(v, v.subs[x], r.subs[x]);
  }

  lemma UpdateAgrees<E>(v: View, r: R.Registry<SubId, E>, id: TaskId, status: P.TaskStatus, now: int, e: E,
                        wait: nat -> R.Wait)
    requires Agrees(v, r) && v.pending == [] && R.Lists(r) && id in r.tasks && Waits(wait)
    requires R.AllIn(r.Listed(id), r.subs)
    ensures var w := Notified(v, id, R.IsFinalState(status.state));
      w.pending == [] && Agrees(w, R.Update(r, id, status, now, e, wait))
  {
    var written := R.WriteStatus(r, id, status, now);
    var event := R.StatusUpdate(written.tasks[id].task);
    ListsFrame(r, written);
    NotifiedIsPublished(v, written, id, e, event, wait);
    TakenAgree(NotifyRest(Copied(v, id), id), R.Publish(written, id, e, event, wait), id);
  }

  lemma ListsFrame<E>(r: R.Registry<SubId, E>, r': R.Registry<SubId, E>)
    requires R.Lists(r) && r'.subscribers == r.subscribers && r'.subs == r.subs
    ensures R.Lists(r')
  {
    forall id | id in r'.subscribers ensures R.ListOk(r', id, r'.subscribers[id]) {
      assert R.ListOk(r, id, r.subscribers[id]);
    }
  }

  lemma ArtifactAgrees<E>(v: View, r: R.Registry<SubId, E>, id: TaskId, a: P.Artifact, isFinal: bool, more: bool, e: E,
                          wait: nat -> R.Wait)
    requires Agrees(v, r) && v.pending == [] && R.Lists(r) && id in r.tasks && Waits(wait)
    requires R.AllIn(r.Listed(id), r.subs)
    ensures var w := Notified(v, id, false);
      w.pending == [] && Agrees(w, R.ArtifactAdded(r, id, a, isFinal, more, e, wait))
  {
    var added := R.WithArtifact(r, id, a);
    ListsFrame(r, added);
    NotifiedIsPublished(v, added, id, e, R.ArtifactUpdate(id, r.tasks[id].task.contextID, a, isFinal, more), wait);
  }

  /** What the code of a call means, in one piece. */
  function OpMeans(v: View, op: Op): View {
    match op
    case BuildTask(id) => Means(v, PutTask(id))
    case UpdateTaskState(id, final) => Means(v, UpdateTask(id, final))
    case AddArtifact(id) => Means(v, UpdateTask(id, false))
    case SubscribeTask(id) => Means(v, CheckTask(id))
    case OnResubscribe(id) => Means(v, Resubscribe(id))
    case CleanTask(id) => Means(v, DropTask(id))
    case OnCancelTask(id) => Means(v, DropTask(id))
    case CleanExpiredTasks(ids) => ShutPending(DroppedAll(v, ids))
    case CleanerTick(ids) => ShutPending(DroppedAll(v, ids))
    case ManagerClose(ids) => Means(v, EnterOnce(ids))
    case Close(x) => Means(v, SwapFlag(x))
    case Send(x, stores) => Means(v, SendCheck(x, stores))
    case _ => v
  }

  lemma CodeMeans(v: View, op: Op)
    ensures Meaning(v, OpCode(op)) == OpMeans(v, op)
  {
    match op {
      case BuildTask(id) => CriticalMeaning(v, TaskMu, PutTask(id));
      case OnResubscribe(id) => CriticalMeaning(v, TaskMu, Resubscribe(id));
      case StoreMessage => CriticalMeaning(v, ConversationMu, Work);
      case PushConfig => CriticalMeaning(v, ManagerMu, Work);
      case OnCancelTask(id) => LongCodeMeans(v, op);
      case OnGetTask(_) => LongCodeMeans(v, op);
      case CleanExpiredTasks(_) => LongCodeMeans(v, op);
      case CleanerTick(_) => LongCodeMeans(v, op);
      case _ => MeaningFew(v, OpCode(op));
    }
  }

  lemma LongCodeMeans(v: View, op: Op)
    requires Composite(op)
    ensures Meaning(v, OpCode(op)) == OpMeans(v, op)
  {
    match op {
      case OnCancelTask(id) =>
        CriticalMeaning(v, TaskMu, Work);
        MeaningConcat(v, Critical(TaskMu, Work), CleanTaskCode(id));
        MeaningFew(v, CleanTaskCode(id));
      case OnGetTask(_) =>
        MeaningFew(v, OpCode(op)[..3]);
        MeaningFew(v, OpCode(op)[3..]);
        MeaningConcat(v, OpCode(op)[..3], OpCode(op)[3..]);
        assert OpCode(op) == OpCode(op)[..3] + OpCode(op)[3..];
      case CleanExpiredTasks(ids) => SweepAndWorkMeans(v, ids);
      case CleanerTick(ids) =>
        CriticalMeaning(v, ConversationMu, Work);
        SweepAndWorkMeans(v, ids);
        MeaningConcat(v, Critical(ConversationMu, Work), SweepAllCode(ids) + Critical(ManagerMu, Work));
    }
  }

  lemma SweepAndWorkMeans(v: View, ids: seq<TaskId>)
    ensures Meaning(v, SweepAllCode(ids) + Critical(ManagerMu, Work)) == ShutPending(DroppedAll(v, ids))
  {
    SweepAllMeaning(v, ids);
    MeaningConcat(v, SweepAllCode(ids), Critical(ManagerMu, Work));
    CriticalMeaning(ShutPending(DroppedAll(v, ids)), ManagerMu, Work);
  }

  ghost predicate Ready<E>(v: View, op: Op, step: Option<R.Op<SubId, E>>, r: R.Registry<SubId, E>, c: R.Config) {
    && Agrees(v, r) && v.pending == [] && Fits(v, c) && R.Lists(r)
    && (step.Some? ==> R.Allowed(r, step.value, c))
    && StandsFor(v, op, step, r, c)
  }

  /** The view after is what the registry's step leaves, and the call has closed all it collected. */
  ghost predicate Done<E>(w: View, r: R.Registry<SubId, E>) { w.pending == [] && Agrees(w, r) }

  ghost predicate CanTake<E>(v: View, step: R.Op<SubId, E>, r: R.Registry<SubId, E>, c: R.Config) {
    Agrees(v, r) && v.pending == [] && Fits(v, c) && R.Lists(r) && R.Allowed(r, step, c)
  }

  lemma SameSubs<E>(v: View, w: View, subs: map<SubId, R.Subscriber<E>>)
    requires SubsAgree(v, subs) && w.subs == v.subs && w.capacity == v.capacity && w.blocking == v.blocking
    ensures SubsAgree(w, subs)
  {
  }

  lemma BuildAgrees<E>(v: View, r: R.Registry<SubId, E>, id: TaskId, context: string, now: int, c: R.Config)
    requires Agrees(v, r)
    ensures Agrees(v.(tasks := v.tasks + {id}), R.Build(r, id, context, now, c))
  {
    SameSubs(v, v.(tasks := v.tasks + {id}), r.subs);
  }

  lemma BuildStep<E>(v: View, id: TaskId, step: R.Op<SubId, E>, r: R.Registry<SubId, E>, c: R.Config)
    requires CanTake(v, step, r, c) && step.BuildTask? && id == R.ActualID(step.id, step.freshID)
    ensures Done(Means(v, PutTask(id)), R.Step(r, step, c))
  {
    if id in r.tasks {
      assert v.tasks + {id} == v.tasks;
    } else {
      BuildAgrees(v, r, id, if step.context.Some? then step.context.value else "", step.now, c);
    }
  }

  lemma UpdateStep<E>(v: View, id: TaskId, step: R.Op<SubId, E>, r: R.Registry<SubId, E>, c: R.Config)
    requires CanTake(v, step, r, c) && step.UpdateTaskState? && step.id == Some(id) && id != "" && Waits(step.wait)
    ensures Done(Means(v, UpdateTask(id, R.IsFinalState(step.status.state))), R.Step(r, step, c))
  {
    if id in r.tasks {
      RegistryRuns.ListedAreThere(r, id);
      UpdateAgrees(v, r, id, step.status, step.now, step.event, step.wait);
    }
  }

  lemma ArtifactStep<E>(v: View, id: TaskId, step: R.Op<SubId, E>, r: R.Registry<SubId, E>, c: R.Config)
    requires CanTake(v, step, r, c) && step.AddTaskArtifact? && step.id == Some(id) && id != "" && Waits(step.wait)
    ensures Done(Means(v, UpdateTask(id, false)), R.Step(r, step, c))
  {
    if id in r.tasks {
      RegistryRuns.ListedAreThere(r, id);
      ArtifactAgrees(v, r, id, step.artifact, step.isFinal, step.needMoreData, step.event, step.wait);
    }
  }

  lemma SubscribeStep<E>(v: View, id: TaskId, step: R.Op<SubId, E>, r: R.Registry<SubId, E>, c: R.Config)
    requires CanTake(v, step, r, c) && id in r.tasks && step.AddSubscriber? && Subscribes(v, id, step)
    ensures Done(Means(v, CheckTask(id)), R.Step(r, step, c))
  {
    AttachedAgree(v, r, id, step.hookContext, c);
  }

  lemma ResubscribeStep<E>(v: View, id: TaskId, step: R.Op<SubId, E>, r: R.Registry<SubId, E>, c: R.Config)
    requires CanTake(v, step, r, c) && step.Resubscribe? && Subscribes(v, id, step)
    ensures Done(Means(v, Resubscribe(id)), R.Step(r, step, c))
  {
    AttachedAgree(v, r, id, id, c);
  }

  lemma CleanStep<E>(v: View, id: TaskId, step: R.Op<SubId, E>, r: R.Registry<SubId, E>, c: R.Config)
    requires CanTake(v, step, r, c) && step == R.CleanTask(Some(id)) && id != ""
    ensures Done(Means(v, DropTask(id)), R.Step(r, step, c))
  {
    OneDropped(v, id);
    RemovedAgree(v, r, [id]);
  }

  lemma NoElements(ids: seq<TaskId>)
    ensures ids != [] ==> Elements(ids) != {}
  {
    if ids != [] {
      assert ids[0] in Elements(ids);
    }
  }

  lemma SweepStep<E>(v: View, ids: seq<TaskId>, step: R.Op<SubId, E>, r: R.Registry<SubId, E>, c: R.Config)
    requires CanTake(v, step, r, c) && Sweeps(ids, Some(step), r, c)
    ensures Done(ShutPending(DroppedAll(v, ids)), R.Step(r, step, c))
  {
    if step.maxAge <= 0 {
      NoElements(ids);
      assert DroppedAll(v, []) == v && ShutPending(v) == v;
    } else {
      RemovedAgree(v, r, ids);
    }
  }

  lemma ShutdownAgrees<E>(v: View, ids: seq<TaskId>, r: R.Registry<SubId, E>)
    requires Agrees(v, r) && v.pending == [] && Elements(ids) == r.tasks.Keys + r.subscribers.Keys
    ensures Done(ShutPending(DroppedAll(v.(once := true), ids)), R.Shutdown(r))
  {
    SameSubs(v, v.(once := true), r.subs);
    RemovedAgree(v.(once := true), r, ids);
  }

  lemma ShutdownStep<E>(v: View, ids: seq<TaskId>, r: R.Registry<SubId, E>, c: R.Config)
    requires CanTake(v, R.CloseManager, r, c) && !v.once && Elements(ids) == r.tasks.Keys + r.subscribers.Keys
    ensures Done(Means(v, EnterOnce(ids)), R.Step(r, R.CloseManager, c))
  {
    ShutdownAgrees(v, ids, r);
  }

  lemma CloseStep<E>(v: View, x: SubId, r: R.Registry<SubId, E>, c: R.Config)
    requires CanTake(v, R.CloseSubscriber(x), r, c)
    ensures Done(Means(v, SwapFlag(x)), R.Step(r, R.CloseSubscriber(x), c))
  {
    assert forall y :: y in r.subs ==> SubAgrees(v, v.subs[y], r.subs[y]);
  }

  predicate Removes(op: Op) {
    op.CleanTask? || op.OnCancelTask? || op.CleanExpiredTasks? || op.CleanerTick? || op.ManagerClose?
  }

  /** A call means the registry step it stands for. */
  lemma CallIsItsStep<E>(v: View, op: Op, step: Option<R.Op<SubId, E>>, r: R.Registry<SubId, E>, c: R.Config)
    requires Ready(v, op, step, r, c)
    ensures Done(OpMeans(v, op), Stepped(r, step, c))
  {
    match op {
      case BuildTask(id) => BuildStep(v, id, step.value, r, c);
      case UpdateTaskState(id, _) => UpdateStep(v, id, step.value, r, c);
      case AddArtifact(id) => ArtifactStep(v, id, step.value, r, c);
      case SubscribeTask(id) =>
        if id in r.tasks { SubscribeStep(v, id, step.value, r, c); }
      case OnResubscribe(id) => ResubscribeStep(v, id, step.value, r, c);
      case Close(x) => CloseStep(v, x, r, c);
      case _ => if Removes(op) { RemovalIsItsStep(v, op, step, r, c); }
    }
  }

  lemma RemovalIsItsStep<E>(v: View, op: Op, step: Option<R.Op<SubId, E>>, r: R.Registry<SubId, E>, c: R.Config)
    requires Ready(v, op, step, r, c) && Removes(op)
    ensures Done(OpMeans(v, op), Stepped(r, step, c))
  {
    match op {
      case CleanTask(id) => CleanStep(v, id, step.value, r, c);
      case OnCancelTask(id) => CleanStep(v, id, step.value, r, c);
      case CleanExpiredTasks(ids) => SweepStep(v, ids, step.value, r, c);
      case CleanerTick(ids) => SweepStep(v, ids, step.value, r, c);
      case ManagerClose(ids) =>
        if !v.once { ShutdownStep(v, ids, r, c); }
    }
  }

  // ---------------------------------------------------------------------------------------
  // Runs in which calls take turns

  /** One call with the actions until it returns and the registry step it stands for, or an event
      taken from a queue while no call is under way. */
  datatype Turn<E> = CallOf(t: ThreadId, op: Op, acts: seq<Action>, step: Option<R.Op<SubId, E>>) | TakeFrom(sub: SubId)

  ghost predicate AllAlone(s: State, t: ThreadId, acts: seq<Action>)
    requires Legal(s, acts)
    decreases |acts|
  {
    acts == [] || (Alone(s, t, acts[0]) && AllAlone(Apply(s, acts[0]), t, acts[1..]))
  }

  /** However the steps of a call go, it means at the end what it meant at the start. */
  lemma {:induction false} RunKeepsMeaning(s: State, t: ThreadId, acts: seq<Action>)
    requires Calling(s, t) && Legal(s, acts) && AllAlone(s, t, acts)
    ensures Calling(Run(s, acts), t) && MeaningOf(Run(s, acts), t) == MeaningOf(s, t)
    ensures OthersRest(s, t) ==> OthersRest(Run(s, acts), t)
    ensures Run(s, acts).capacity == s.capacity && Run(s, acts).blocking == s.blocking
    decreases |acts|
  {
    if acts != [] {
      StepKeepsMeaning(s, t, acts[0]);
      RunKeepsMeaning(Apply(s, acts[0]), t, acts[1..]);
    }
  }

  predicate AtRest(th: Thread) { th.code == [] && Pending(th.local) == [] }

  ghost predicate OthersRest(s: State, t: ThreadId) {
    forall u: ThreadId :: u < |s.threads| && u != t ==> AtRest(s.threads[u])
  }

  ghost predicate Idle(s: State) {
    DoneAreClosed(s.shared) && forall u: ThreadId :: u < |s.threads| ==> AtRest(s.threads[u])
  }

  /** Between calls: no thread has anything to close, so the variables of which does not matter. */
  function Shown(s: State): View { ViewOf(s, s.shared, Local([], [], None, None)) }

  ghost predicate Matches<E>(s: State, r: R.Registry<SubId, E>, c: R.Config) {
    Idle(s) && Agrees(Shown(s), r) && Fits(Shown(s), c)
  }

  /** From the call to its return, alone. */
  ghost predicate CallOk(s: State, t: ThreadId, op: Op, acts: seq<Action>) {
    && Enabled(s, Call(t, op))
    && var s1 := Apply(s, Call(t, op));
       Legal(s1, acts) && AllAlone(s1, t, acts) && t < |Run(s1, acts).threads| && Run(s1, acts).threads[t].code == []
  }

  ghost predicate TurnOk<E>(s: State, r: R.Registry<SubId, E>, turn: Turn<E>, c: R.Config) {
    match turn
    case CallOf(t, op, acts, step) =>
      CallOk(s, t, op, acts) && StandsFor(Shown(s), op, step, r, c) && (step.Some? ==> R.Allowed(r, step.value, c))
    case TakeFrom(x) => Enabled(s, Consume(x))
  }

  ghost function AfterTurn<E>(s: State, r: R.Registry<SubId, E>, turn: Turn<E>, c: R.Config): State
    requires TurnOk(s, r, turn, c)
  {
    match turn
    case CallOf(t, op, acts, _) => Run(Apply(s, Call(t, op)), acts)
    case TakeFrom(x) => Apply(s, Consume(x))
  }

  ghost function StepOf<E>(turn: Turn<E>): Option<R.Op<SubId, E>> {
    match turn
    case CallOf(_, _, _, step) => step
    case TakeFrom(x) => Some(R.Receive(x))
  }

  /** However its steps go, a call that returns leaves what its code means. */
  lemma CallLeavesItsMeaning(s: State, t: ThreadId, op: Op, acts: seq<Action>)
    requires Idle(s) && CallOk(s, t, op, acts) && !op.Send?
    ensures var s' := Run(Apply(s, Call(t, op)), acts);
      && OthersRest(s', t) && DoneAreClosed(s'.shared) && s'.capacity == s.capacity && s'.blocking == s.blocking
      && ViewOf(s', s'.shared, s'.threads[t].local) == OpMeans(ViewOf(s, s.shared, s.threads[t].local), op)
  {
    var s1 := Apply(s, Call(t, op));
    OpIsAlone(s.shared, op);
    RunKeepsMeaning(s1, t, acts);
    CodeMeans(ViewOf(s, s.shared, s.threads[t].local), op);
  }

  /** Whatever the steps of a call, and whatever it finds, it leaves what the registry's step
      leaves: the same tasks, lists, queue lengths and closed flags. */
  lemma CallsAreSteps<E>(s: State, t: ThreadId, op: Op, acts: seq<Action>, step: Option<R.Op<SubId, E>>,
                         r: R.Registry<SubId, E>, c: R.Config)
    requires Matches(s, r, c) && R.Lists(r) && (step.Some? ==> R.Allowed(r, step.value, c))
    requires CallOk(s, t, op, acts) && StandsFor(Shown(s), op, step, r, c)
    ensures Matches(Run(Apply(s, Call(t, op)), acts), Stepped(r, step, c), c)
  {
    var v := ViewOf(s, s.shared, s.threads[t].local);
    var s' := Run(Apply(s, Call(t, op)), acts);
    CallLeavesItsMeaning(s, t, op, acts);
    SameView(Shown(s), v, op, step, r, c);
    CallIsItsStep(v, op, step, r, c);
    SameSubs(OpMeans(v, op), Shown(s'), Stepped(r, step, c).subs);
  }

  lemma SameView<E>(v: View, w: View, op: Op, step: Option<R.Op<SubId, E>>, r: R.Registry<SubId, E>, c: R.Config)
    requires w == v.(copied := w.copied, failed := w.failed, made := w.made)
    requires Agrees(v, r) && StandsFor(v, op, step, r, c) && Fits(v, c)
    ensures Agrees(w, r) && StandsFor(w, op, step, r, c) && Fits(w, c)
  {
    SameSubs(v, w, r.subs);
  }

  lemma OpIsAlone(sh: Shared, op: Op)
    requires !op.Send?
    ensures AloneOk(sh, OpCode(op))
  {
    if op.CleanExpiredTasks? || op.CleanerTick? {
      SweepOpLater(op.ids);
    }
  }

  lemma SweepOpLater(ids: seq<TaskId>)
    ensures AllLater(OpCode(CleanExpiredTasks(ids))) && AllLater(OpCode(CleanerTick(ids)))
  {
    OnceLater(ids);
    ConcatLater(SweepAllCode(ids), Critical(ManagerMu, Work));
    ConcatLater(Critical(ConversationMu, Work), SweepAllCode(ids) + Critical(ManagerMu, Work));
  }

  lemma ReceivedAgree<E>(v: View, w: View, x: SubId, subs: map<SubId, R.Subscriber<E>>)
    requires SubsAgree(v, subs) && x in subs && v.subs[x].queued > 0
    requires w == v.(subs := v.subs[x := Seen(v.subs[x].closed, v.subs[x].queued - 1)])
    ensures SubsAgree(w, subs[x := R.Received(subs[x])])
  {
    assert SubAgrees(v, v.subs[x], subs[x]);
    assert SubAgrees(w, w.subs[x], R.Received(subs[x]));
  }

  lemma ConsumedView(s: State, x: SubId)
    requires Enabled(s, Consume(x))
    ensures var v, w := Shown(s), Shown(Apply(s, Consume(x)));
      w == v.(subs := v.subs[x := Seen(v.subs[x].closed, v.subs[x].queued - 1)])
    ensures Idle(s) ==> Idle(Apply(s, Consume(x)))
  {
    var v, w := Shown(s), Shown(Apply(s, Consume(x)));
    assert w.subs == v.subs[x := Seen(v.subs[x].closed, v.subs[x].queued - 1)];
  }

  lemma TakingIsReceiving<E>(s: State, x: SubId, r: R.Registry<SubId, E>, c: R.Config)
    requires Matches(s, r, c) && R.Lists(r) && Enabled(s, Consume(x))
    ensures R.Allowed(r, R.Receive(x), c)
    ensures Matches(Apply(s, Consume(x)), R.Step(r, R.Receive(x), c), c)
  {
    ConsumedView(s, x);
    ReceivedAgree(Shown(s), Shown(Apply(s, Consume(x))), x, r.subs);
  }

  lemma TurnKeepsMatch<E>(s: State, r: R.Registry<SubId, E>, turn: Turn<E>, c: R.Config)
    requires Matches(s, r, c) && R.Lists(r) && TurnOk(s, r, turn, c)
    ensures StepOf(turn).Some? ==> R.Allowed(r, StepOf(turn).value, c)
    ensures Matches(AfterTurn(s, r, turn, c), Stepped(r, StepOf(turn), c), c)
  {
    match turn {
      case CallOf(t, op, acts, step) => CallsAreSteps(s, t, op, acts, step, r, c);
      case TakeFrom(x) => TakingIsReceiving(s, x, r, c);
    }
  }

  ghost predicate TurnsOk<E>(s: State, r: R.Registry<SubId, E>, turns: seq<Turn<E>>, c: R.Config)
    decreases |turns|
  {
    turns == []
    || (TurnOk(s, r, turns[0], c)
        && (Steps(r, turns[0], c) ==>
              TurnsOk(AfterTurn(s, r, turns[0], c), Stepped(r, StepOf(turns[0]), c), turns[1..], c)))
  }

  /** Holds of every turn on a registry that matches, by TurnKeepsMatch. */
  ghost predicate Steps<E>(r: R.Registry<SubId, E>, turn: Turn<E>, c: R.Config) {
    R.Lists(r) && (StepOf(turn).Some? ==> R.Allowed(r, StepOf(turn).value, c))
  }

  ghost function AfterTurns<E>(s: State, r: R.Registry<SubId, E>, turns: seq<Turn<E>>, c: R.Config): State
    requires TurnsOk(s, r, turns, c)
    decreases |turns|
  {
    if turns == [] || !Steps(r, turns[0], c) then s
    else AfterTurns(AfterTurn(s, r, turns[0], c), Stepped(r, StepOf(turns[0]), c), turns[1..], c)
  }

  ghost function StepsOf<E>(turns: seq<Turn<E>>): seq<R.Op<SubId, E>> {
    if turns == [] then []
    else (if StepOf(turns[0]).Some? then [StepOf(turns[0]).value] else []) + StepsOf(turns[1..])
  }

  lemma TurnKeepsInv<E>(r: R.Registry<SubId, E>, turn: Turn<E>, c: R.Config)
    requires R.Inv(r, c) && Steps(r, turn, c)
    ensures R.Inv(Stepped(r, StepOf(turn), c), c)
  {
    if StepOf(turn).Some? {
      RegistryRuns.StepInv(r, StepOf(turn).value, c);
    }
  }

  lemma FirstStep<E>(r: R.Registry<SubId, E>, turns: seq<Turn<E>>, c: R.Config)
    requires turns != [] && Steps(r, turns[0], c)
    requires RegistryRuns.Legal(Stepped(r, StepOf(turns[0]), c), StepsOf(turns[1..]), c)
    ensures RegistryRuns.Legal(r, StepsOf(turns), c)
    ensures RegistryRuns.Run(r, StepsOf(turns), c)
         == RegistryRuns.Run(Stepped(r, StepOf(turns[0]), c), StepsOf(turns[1..]), c)
  {
    var ops := StepsOf(turns[1..]);
    if StepOf(turns[0]).Some? {
      var op := StepOf(turns[0]).value;
      assert StepsOf(turns) == [op] + ops;
      assert ([op] + ops)[1..] == ops;
    } else {
      assert StepsOf(turns) == ops;
    }
  }

  /** Runs in which calls take turns are runs of the registry. */
  lemma {:induction false} TurnsAreSteps<E>(s: State, r: R.Registry<SubId, E>, turns: seq<Turn<E>>, c: R.Config)
    requires Matches(s, r, c) && R.Inv(r, c) && TurnsOk(s, r, turns, c)
    ensures RegistryRuns.Legal(r, StepsOf(turns), c)
    ensures Matches(AfterTurns(s, r, turns, c), RegistryRuns.Run(r, StepsOf(turns), c), c)
    decreases |turns|
  {
    if turns != [] {
      TurnKeepsMatch(s, r, turns[0], c);
      assert Steps(r, turns[0], c);
      TurnKeepsInv(r, turns[0], c);
      TurnsAreSteps(AfterTurn(s, r, turns[0], c), Stepped(r, StepOf(turns[0]), c), turns[1..], c);
      FirstStep(r, turns, c);
    }
  }

  /** From the empty manager: any calls that take turns, each with any steps, in any order and with
      any reads in between, do what the registry's steps do. */
  lemma SerialRunsAreRegistryRuns<E>(s: State, turns: seq<Turn<E>>, c: R.Config)
    requires Initial(s) && Fits(Shown(s), c) && TurnsOk(s, R.Empty(), turns, c)
    ensures RegistryRuns.Legal(R.Empty(), StepsOf(turns), c)
    ensures Matches(AfterTurns(s, R.Empty(), turns, c), RegistryRuns.Run(R.Empty(), StepsOf(turns), c), c)
  {
    TurnsAreSteps(s, R.Empty(), turns, c);
  }

  /** A call alone does not get stuck: it can go on itself, or the cleanup goroutine it waits for
      can exit, or the consumer can make the room it waits for. */
  lemma AloneGoesOn(s: State, t: ThreadId) returns (a: Action)
    requires Inv(s) && OthersRest(s, t) && t < |s.threads| && s.threads[t].code != []
    ensures Enabled(s, a) && Alone(s, t, a)
  {
    if CleanerCanExit(s) {
      a := CleanerExits;
    } else if CanStep(s, t, Sent) {
      a := Go(t, Sent);
    } else if CanStep(s, t, Refused) {
      a := Go(t, Refused);
    } else {
      StuckThread(s, t);
      a := Consume(s.threads[t].code[0].sub);
    }
  }
}
