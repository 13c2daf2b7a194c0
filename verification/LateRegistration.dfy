/**
 SubscribeTask looks for its task in one lock section and registers its subscriber in another.
 When exactly that leaves a list without a task, and a run on which it does.
 */
module LateRegistration {
  import opened Wrappers
  import opened LockSections

  /** Every list belongs to a task that is there. */
  ghost predicate Live(sh: Shared) { forall id :: id in sh.registered ==> id in sh.tasks }

  /** The thread is about to register a subscriber whose task has gone since it looked. */
  predicate Orphans(s: State, t: ThreadId) {
    && t < |s.threads| && s.threads[t].code != [] && s.threads[t].code[0].RegisterMade?
    && s.threads[t].code[0].id !in s.shared.tasks && s.threads[t].local.made.Some?
  }

  /** That step, and no other, leaves a list without its task. */
  lemma OnlyLateRegistrationsOrphan(s: State, a: Action)
    requires Enabled(s, a) && Live(s.shared)
    ensures Live(Apply(s, a).shared) <==> !(a.Go? && Orphans(s, a.t))
  {
    if a.Go? {
      EffectLive(s.shared, s.threads[a.t].local, a.t, s.threads[a.t].code[0]);
    }
  }

  lemma EffectLive(sh: Shared, lo: Local, t: ThreadId, i: Instr)
    requires Live(sh)
    ensures Live(Effect(sh, lo, t, i).0) <==> !(i.RegisterMade? && i.id !in sh.tasks && lo.made.Some?)
  {
    if i.RegisterMade? && lo.made.Some? {
      assert i.id in Effect(sh, lo, t, i).0.registered;
    }
  }

  ghost predicate AlwaysLive(s: State, acts: seq<Action>)
    requires Legal(s, acts)
    decreases |acts|
  {
    Live(s.shared) && (acts == [] || AlwaysLive(Apply(s, acts[0]), acts[1..]))
  }

  ghost predicate NeverOrphans(s: State, acts: seq<Action>)
    requires Legal(s, acts)
    decreases |acts|
  {
    acts == [] || (!(acts[0].Go? && Orphans(s, acts[0].t)) && NeverOrphans(Apply(s, acts[0]), acts[1..]))
  }

  /** All lists belong to live tasks throughout a run if and only if no call registers late. */
  lemma {:induction false} ListsStayLive(s: State, acts: seq<Action>)
    requires Live(s.shared) && Legal(s, acts)
    ensures AlwaysLive(s, acts) <==> NeverOrphans(s, acts)
    decreases |acts|
  {
    if acts != [] {
      OnlyLateRegistrationsOrphan(s, acts[0]);
      if Live(Apply(s, acts[0]).shared) {
        ListsStayLive(Apply(s, acts[0]), acts[1..]);
      }
    }
  }

  // ---------------------------------------------------------------------------------------
  // A run that does it

  ghost predicate Leads(s: State, acts: seq<Action>, s': State) { Legal(s, acts) && Run(s, acts) == s' }

  ghost predicate Reaches(s: State, s': State) { exists acts :: Leads(s, acts, s') }

  lemma {:induction false} LeadsOn(s: State, acts: seq<Action>, s': State, more: seq<Action>, s'': State)
    requires Leads(s, acts, s') && Leads(s', more, s'')
    ensures Leads(s, acts + more, s'')
    decreases |acts|
  {
    if acts == [] {
      assert acts + more == more;
    } else {
      assert (acts + more)[1..] == acts[1..] + more;
      LeadsOn(Apply(s, acts[0]), acts[1..], s', more, s'');
    }
  }

  lemma Onward(s: State, s': State, s'': State)
    requires Reaches(s, s') && Reaches(s', s'')
    ensures Reaches(s, s'')
  {
    var acts, more :| Leads(s, acts, s') && Leads(s', more, s'');
    LeadsOn(s, acts, s', more, s'');
  }

  lemma FarOnward(s: State, s1: State, s2: State, s3: State, s4: State, s5: State)
    returns (acts: seq<Action>)
    requires Reaches(s, s1) && Reaches(s1, s2) && Reaches(s2, s3) && Reaches(s3, s4) && Reaches(s4, s5)
    ensures Leads(s, acts, s5)
  {
    Onward(s, s1, s2);
    Onward(s, s2, s3);
    Onward(s, s3, s4);
    Onward(s, s4, s5);
    acts :| Leads(s, acts, s5);
  }

  lemma OneAction(s: State, a: Action, s': State)
    requires Enabled(s, a) && Apply(s, a) == s'
    ensures Reaches(s, s')
  {
    assert [a][1..] == [];
    assert Leads(s', [], s');
    assert Leads(s, [a], s');
  }

  lemma OneStep(s: State, t: ThreadId, s': State)
    requires CanStep(s, t, Sent) && Step(s, t, Sent) == s'
    ensures Reaches(s, s')
  {
    OneAction(s, Go(t, Sent), s');
  }

  /** The state after thread `t` has gone on to `code` with these locks and local variables. */
  function GoneOn(s: State, t: ThreadId, sh: Shared, code: seq<Instr>, r: set<Lock>, w: set<Lock>, lo: Local): State
    requires t < |s.threads|
  {
    s.(shared := sh, threads := s.threads[t := Thread(code, r, w, lo)])
  }

  /** Nobody holds the lock or waits to write. */
  predicate Unused(s: State, l: Lock) { NoWriter(s, l) && Free(s, l) }

  predicate Takes(i: Instr) {
    || i.AcquireRead? || i.AcquireWrite? || i.AwaitWrite? || i.Release? || i.Enqueue?
    || i.EnterOnce? || i.AwaitCleaner?
  }

  lemma Acquires(s: State, t: ThreadId, l: Lock, rest: seq<Instr>)
    requires t < |s.threads| && Unused(s, l)
    requires s.threads[t] == Thread([AcquireWrite(l)] + rest, {}, {}, s.threads[t].local)
    ensures Reaches(s, GoneOn(s, t, s.shared, rest, {}, {l}, s.threads[t].local))
  {
    var lo := s.threads[t].local;
    var waiting := GoneOn(s, t, s.shared, [AwaitWrite(l)] + rest, {}, {}, lo);
    var holding := GoneOn(s, t, s.shared, rest, {}, {l}, lo);
    assert ([AcquireWrite(l)] + rest)[1..] == rest == ([AwaitWrite(l)] + rest)[1..];
    OneStep(s, t, waiting);
    assert Free(waiting, l) && {} + {l} == {l};
    assert waiting.threads[t := Thread(rest, {}, {l}, lo)] == holding.threads;
    OneStep(waiting, t, holding);
    Onward(s, waiting, holding);
  }

  lemma AcquiresRead(s: State, t: ThreadId, l: Lock, rest: seq<Instr>)
    requires t < |s.threads| && Unused(s, l)
    requires s.threads[t] == Thread([AcquireRead(l)] + rest, {}, {}, s.threads[t].local)
    ensures Reaches(s, GoneOn(s, t, s.shared, rest, {l}, {}, s.threads[t].local))
  {
    assert ([AcquireRead(l)] + rest)[1..] == rest && {} + {l} == {l};
    OneStep(s, t, GoneOn(s, t, s.shared, rest, {l}, {}, s.threads[t].local));
  }

  /** An instruction that takes no lock; `code` is what it puts in front. */
  lemma Executes(s: State, t: ThreadId, i: Instr, rest: seq<Instr>, sh: Shared, lo: Local, code: seq<Instr>)
    requires t < |s.threads| && s.threads[t].code == [i] + rest && !Takes(i)
    requires Effect(s.shared, s.threads[t].local, t, i) == (sh, lo, code)
    ensures Reaches(s, GoneOn(s, t, sh, code + rest, s.threads[t].readLocks, s.threads[t].writeLocks, lo))
  {
    assert ([i] + rest)[1..] == rest;
    OneStep(s, t, GoneOn(s, t, sh, code + rest, s.threads[t].readLocks, s.threads[t].writeLocks, lo));
  }

  lemma Releases(s: State, t: ThreadId, l: Lock, rest: seq<Instr>)
    requires t < |s.threads| && s.threads[t].code == [Release(l)] + rest
    requires s.threads[t].readLocks <= {l} && s.threads[t].writeLocks <= {l}
    ensures Reaches(s, GoneOn(s, t, s.shared, rest, {}, {}, s.threads[t].local))
  {
    assert ([Release(l)] + rest)[1..] == rest;
    assert s.threads[t].readLocks - {l} == {} && s.threads[t].writeLocks - {l} == {};
    OneStep(s, t, GoneOn(s, t, s.shared, rest, {}, {}, s.threads[t].local));
  }

  lemma GoneOnTwice(s: State, t: ThreadId, s': State, sh: Shared, code: seq<Instr>, r: set<Lock>,
                                       w: set<Lock>, lo: Local)
    requires t < |s.threads| && exists sh', code', r', w', lo' :: s' == GoneOn(s, t, sh', code', r', w', lo')
    ensures t < |s'.threads| && GoneOn(s', t, sh, code, r, w, lo) == GoneOn(s, t, sh, code, r, w, lo)
  {
  }

  /** A section under a write lock that nobody disturbs. */
  lemma WriteSection(s: State, t: ThreadId, l: Lock, i: Instr, rest: seq<Instr>, sh: Shared, lo: Local)
    requires t < |s.threads| && Unused(s, l) && !Takes(i) && Effect(s.shared, s.threads[t].local, t, i) == (sh, lo, [])
    requires s.threads[t] == Thread(Critical(l, i) + rest, {}, {}, s.threads[t].local)
    ensures Reaches(s, GoneOn(s, t, sh, rest, {}, {}, lo))
  {
    var lo0, tail := s.threads[t].local, [Release(l)] + rest;
    assert Critical(l, i) + rest == [AcquireWrite(l)] + ([i] + tail);
    Acquires(s, t, l, [i] + tail);
    var s1 := GoneOn(s, t, s.shared, [i] + tail, {}, {l}, lo0);
    Executes(s1, t, i, tail, sh, lo, []);
    assert [] + tail == tail;
    GoneOnTwice(s, t, s1, sh, tail, {}, {l}, lo);
    var s2 := GoneOn(s, t, sh, tail, {}, {l}, lo);
    Releases(s2, t, l, rest);
    GoneOnTwice(s, t, s2, sh, rest, {}, {}, lo);
    Onward(s, s1, s2);
    Onward(s, s2, GoneOn(s, t, sh, rest, {}, {}, lo));
  }

  /** A section under a read lock that only puts `code` in front. */
  lemma ReadSection(s: State, t: ThreadId, l: Lock, i: Instr, code: seq<Instr>, rest: seq<Instr>)
    requires t < |s.threads| && Unused(s, l) && !Takes(i)
    requires Effect(s.shared, s.threads[t].local, t, i) == (s.shared, s.threads[t].local, code)
    requires s.threads[t].readLocks == {} && s.threads[t].writeLocks == {}
    requires exists tail :: s.threads[t].code == [AcquireRead(l)] + ([i] + tail) && code + tail == [Release(l)] + rest
    ensures Reaches(s, GoneOn(s, t, s.shared, rest, {}, {}, s.threads[t].local))
  {
    var lo := s.threads[t].local;
    var tail :| s.threads[t].code == [AcquireRead(l)] + ([i] + tail) && code + tail == [Release(l)] + rest;
    AcquiresRead(s, t, l, [i] + tail);
    var s1 := GoneOn(s, t, s.shared, [i] + tail, {l}, {}, lo);
    Executes(s1, t, i, tail, s.shared, lo, code);
    GoneOnTwice(s, t, s1, s.shared, code + tail, {l}, {}, lo);
    var s2 := GoneOn(s, t, s.shared, [Release(l)] + rest, {l}, {}, lo);
    Releases(s2, t, l, rest);
    GoneOnTwice(s, t, s2, s.shared, rest, {}, {}, lo);
    Onward(s, s1, s2);
    Onward(s, s2, GoneOn(s, t, s.shared, rest, {}, {}, lo));
  }

  const NO_LOCALS := Local([], [], None, None)

  /** Two threads that hold no lock; the second may have made a subscriber. */
  function Two(sh: Shared, first: seq<Instr>, second: seq<Instr>, made: Option<SubId>): State {
    State(1, false, sh, [Thread(first, {}, {}, NO_LOCALS), Thread(second, {}, {}, NO_LOCALS.(made := made))])
  }

  const NOTHING := Shared({}, map[], [], [], NotCalled, NoCleaner)
  const BUILT := Shared({"a"}, map[], [], [], NotCalled, NoCleaner)
  const MADE := Shared({"a"}, map[], [Sub(false, false, 0)], [Creating(1)], NotCalled, NoCleaner)
  const DROPPED := Shared({}, map[], [Sub(false, false, 0)], [Creating(1)], NotCalled, NoCleaner)
  const ORPHANED := Shared({}, map["a" := [0]], [Sub(false, false, 0)], [Registered("a")], NotCalled, NoCleaner)

  function Registration(): seq<Instr> { Critical(TaskMu, RegisterMade("a")) }

  lemma BuildRuns()
    ensures Reaches(Two(NOTHING, [], [], None), Two(BUILT, [], [], None))
  {
    var none: seq<Instr> := [];
    var s0, s1 := Two(NOTHING, none, none, None), Two(NOTHING, Critical(TaskMu, PutTask("a")), none, None);
    var s2 := Two(BUILT, none, none, None);
    OneAction(s0, Call(0, BuildTask("a")), s1);
    assert Critical(TaskMu, PutTask("a")) + none == Critical(TaskMu, PutTask("a")) && {} + {"a"} == {"a"};
    WriteSection(s1, 0, TaskMu, PutTask("a"), none, BUILT, NO_LOCALS);
    assert GoneOn(s1, 0, BUILT, none, {}, {}, NO_LOCALS) == s2;
    Onward(s0, s1, s2);
  }

  /** After the first section of SubscribeTask. */
  function Looked(): State {
    Two(BUILT, [], [AcquireRead(ConversationMu), Work, Release(ConversationMu), CreateSubscriber] + Registration(), None)
  }

  lemma LookRuns()
    ensures Reaches(Two(BUILT, [], [], None), Looked())
  {
    var s0, s1 := Two(BUILT, [], [], None), Two(BUILT, [], [AcquireRead(TaskMu), CheckTask("a")], None);
    var next := [AcquireRead(ConversationMu), Work, Release(ConversationMu), CreateSubscriber] + Registration();
    OneAction(s0, Call(1, SubscribeTask("a")), s1);
    var none: seq<Instr> := [];
    assert s1.threads[1].code == [AcquireRead(TaskMu)] + ([CheckTask("a")] + none);
    assert [Release(TaskMu)] + next + none == [Release(TaskMu)] + next;
    ReadSection(s1, 1, TaskMu, CheckTask("a"), [Release(TaskMu)] + next, next);
    assert GoneOn(s1, 1, BUILT, next, {}, {}, NO_LOCALS) == Two(BUILT, [], next, None);
    Onward(s0, s1, Two(BUILT, [], next, None));
  }

  /** Reading the context of the request. */
  lemma ContextRuns()
    ensures Reaches(Looked(), Two(BUILT, [], [CreateSubscriber] + Registration(), None))
  {
    var create := [CreateSubscriber] + Registration();
    var tail, none: seq<Instr> := [Release(ConversationMu)] + create, [];
    var s0 := Looked();
    assert s0.threads[1].code == [AcquireRead(ConversationMu)] + ([Work] + tail) && none + tail == tail;
    ReadSection(s0, 1, ConversationMu, Work, none, create);
    assert GoneOn(s0, 1, BUILT, create, {}, {}, NO_LOCALS) == Two(BUILT, [], create, None);
  }

  lemma CreateRuns()
    ensures Reaches(Two(BUILT, [], [CreateSubscriber] + Registration(), None), Two(MADE, [], Registration(), Some(0)))
  {
    var s, none: seq<Instr> := Two(BUILT, [], [CreateSubscriber] + Registration(), None), [];
    assert [] + [Sub(false, false, 0)] == [Sub(false, false, 0)] && [] + [Creating(1)] == [Creating(1)];
    assert Effect(BUILT, NO_LOCALS, 1, CreateSubscriber) == (MADE, NO_LOCALS.(made := Some(0)), none);
    Executes(s, 1, CreateSubscriber, Registration(), MADE, NO_LOCALS.(made := Some(0)), none);
    assert none + Registration() == Registration();
    assert GoneOn(s, 1, MADE, Registration(), {}, {}, NO_LOCALS.(made := Some(0))) == Two(MADE, [], Registration(), Some(0));
  }

  lemma DropEffect()
    ensures Effect(MADE, NO_LOCALS, 0, DropTask("a"))
         == (DROPPED, NO_LOCALS.(toClose := Some([])), [Release(TaskMu), CloseNext] + Critical(ManagerMu, Work))
  {
    var none: seq<SubId> := [];
    assert none + none == none && Listed(MADE, "a") == none;
    assert Reassign(MADE.owner, none, Closing(0)) == MADE.owner;
    assert MADE.registered - {"a"} == map[] && MADE.tasks - {"a"} == {};
  }

  /** The thread of CleanTask while the other one waits to register. */
  function Cleaning(sh: Shared, code: seq<Instr>, w: set<Lock>, toClose: Option<seq<SubId>>): State {
    GoneOn(Two(sh, [], Registration(), Some(0)), 0, sh, code, {}, w, NO_LOCALS.(toClose := toClose))
  }

  /** The section of CleanTask under the task lock. */
  lemma DropRuns()
    ensures Reaches(Cleaning(MADE, [AcquireWrite(TaskMu), DropTask("a")], {}, None),
                    Cleaning(DROPPED, [CloseNext] + Critical(ManagerMu, Work), {}, Some([])))
  {
    var tail, none: seq<Instr> := [CloseNext] + Critical(ManagerMu, Work), [];
    var s0 := Cleaning(MADE, [AcquireWrite(TaskMu), DropTask("a")], {}, None);
    var s1 := Cleaning(MADE, [DropTask("a")], {TaskMu}, None);
    var s2 := Cleaning(DROPPED, [Release(TaskMu)] + tail, {TaskMu}, Some([]));
    var s3 := Cleaning(DROPPED, tail, {}, Some([]));
    assert s0.threads[0].code == [AcquireWrite(TaskMu)] + [DropTask("a")];
    Acquires(s0, 0, TaskMu, [DropTask("a")]);
    assert GoneOn(s0, 0, MADE, [DropTask("a")], {}, {TaskMu}, NO_LOCALS) == s1;
    DropEffect();
    var code := [Release(TaskMu), CloseNext] + Critical(ManagerMu, Work);
    assert s1.threads[0].code == [DropTask("a")] + none && code + none == [Release(TaskMu)] + tail;
    Executes(s1, 0, DropTask("a"), none, DROPPED, NO_LOCALS.(toClose := Some([])), code);
    assert GoneOn(s1, 0, DROPPED, code + none, {}, {TaskMu}, NO_LOCALS.(toClose := Some([]))) == s2;
    Releases(s2, 0, TaskMu, tail);
    assert GoneOn(s2, 0, DROPPED, tail, {}, {}, NO_LOCALS.(toClose := Some([]))) == s3;
    Onward(s0, s1, s2);
    Onward(s0, s2, s3);
  }

  /** What follows it: nothing to close. */
  lemma CloseRuns()
    ensures Reaches(Cleaning(DROPPED, [CloseNext] + Critical(ManagerMu, Work), {}, Some([])),
                    Cleaning(DROPPED, Critical(ManagerMu, Work), {}, None))
  {
    var push, none: seq<Instr> := Critical(ManagerMu, Work), [];
    var s := Cleaning(DROPPED, [CloseNext] + push, {}, Some([]));
    assert Effect(DROPPED, NO_LOCALS.(toClose := Some([])), 0, CloseNext) == (DROPPED, NO_LOCALS, none);
    Executes(s, 0, CloseNext, push, DROPPED, NO_LOCALS, none);
    assert none + push == push;
    assert GoneOn(s, 0, DROPPED, push, {}, {}, NO_LOCALS) == Cleaning(DROPPED, push, {}, None);
  }

  /** The push configuration goes. */
  lemma PushRuns()
    ensures Reaches(Cleaning(DROPPED, Critical(ManagerMu, Work), {}, None), Cleaning(DROPPED, [], {}, None))
  {
    var push, none: seq<Instr> := Critical(ManagerMu, Work), [];
    var s := Cleaning(DROPPED, push, {}, None);
    assert push + none == push;
    WriteSection(s, 0, ManagerMu, Work, none, DROPPED, NO_LOCALS);
    assert GoneOn(s, 0, DROPPED, none, {}, {}, NO_LOCALS) == Cleaning(DROPPED, [], {}, None);
  }

  lemma CleanRuns()
    ensures Reaches(Two(MADE, [], Registration(), Some(0)), Two(DROPPED, [], Registration(), Some(0)))
  {
    var s0, s1 := Two(MADE, [], Registration(), Some(0)), Cleaning(MADE, [AcquireWrite(TaskMu), DropTask("a")], {}, None);
    var s2 := Cleaning(DROPPED, [CloseNext] + Critical(ManagerMu, Work), {}, Some([]));
    OneAction(s0, Call(0, CleanTask("a")), s1);
    DropRuns();
    CloseRuns();
    PushRuns();
    assert Cleaning(DROPPED, [], {}, None) == Two(DROPPED, [], Registration(), Some(0));
    var s3, s4 := Cleaning(DROPPED, Critical(ManagerMu, Work), {}, None), Cleaning(DROPPED, [], {}, None);
    Onward(s0, s1, s2);
    Onward(s0, s2, s3);
    Onward(s0, s3, s4);
  }

  lemma RegisterRuns()
    ensures Reaches(Two(DROPPED, [], Registration(), Some(0)), Two(ORPHANED, [], [], None))
  {
    var s := Two(DROPPED, [], Registration(), Some(0));
    assert Registration() + [] == Registration() && [] + [0] == [0];
    assert Reassign([Creating(1)], [0], Registered("a")) == [Registered("a")];
    WriteSection(s, 1, TaskMu, RegisterMade("a"), [], ORPHANED, NO_LOCALS);
    assert GoneOn(s, 1, ORPHANED, [], {}, {}, NO_LOCALS) == Two(ORPHANED, [], [], None);
  }

  /** A subscription that overlaps with CleanTask: the task is removed between the two sections,
      and at the end, with every call returned, an open subscriber is listed for no task. */
  lemma AnOrphanIsLeft() returns (s: State, acts: seq<Action>)
    ensures Initial(s) && Legal(s, acts)
    ensures var e := Run(s, acts);
      && (forall t :: 0 <= t < |e.threads| ==> e.threads[t].code == [])
      && e.shared.registered == map["a" := [0]] && e.shared.tasks == {}
      && |e.shared.subs| == 1 && !e.shared.subs[0].closed
  {
    s := Two(NOTHING, [], [], None);
    BuildRuns();
    LookRuns();
    ContextRuns();
    CreateRuns();
    Onward(Looked(), Two(BUILT, [], [CreateSubscriber] + Registration(), None), Two(MADE, [], Registration(), Some(0)));
    CleanRuns();
    RegisterRuns();
    acts := FarOnward(s, Two(BUILT, [], [], None), Looked(), Two(MADE, [], Registration(), Some(0)),
                      Two(DROPPED, [], Registration(), Some(0)), Two(ORPHANED, [], [], None));
  }
}
