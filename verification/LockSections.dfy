/**
 The operations of the in-memory task manager as sequences of lock sections, run by any number
 of threads in any interleaving.  A thread is a list of instructions still to execute; an
 instruction either takes or releases a lock, or does what one section of the source does and
 puts the instructions that follow in front.  The machine answers two questions: who owns each
 subscriber while operations overlap, and where threads can get stuck.
 */
module LockSections {
  import opened Wrappers

  type ThreadId = nat
  type TaskId = string
  type SubId = nat

  datatype Lock = TaskMu | ConversationMu | ManagerMu | SubscriberMu(sub: SubId)

  datatype Instr =
    | AcquireRead(lock: Lock)
    | AcquireWrite(lock: Lock)                         // announces the writer, then becomes AwaitWrite
    | AwaitWrite(lock: Lock)
    | Release(lock: Lock)
    | Work                                     // touches nothing this machine keeps
    // sections under TaskMu
    | PutTask(id: TaskId)
    | UpdateTask(id: TaskId, final: bool)      // status write or artifact append, then notify
    | CopySubscribers(id: TaskId)
    | FilterFailed(id: TaskId)
    | TakeSubscribers(id: TaskId)
    | DropTask(id: TaskId)                     // CleanTask: drop if present, then close
    | DropExpired(id: TaskId)                  // one task of a sweep
    | CheckTask(id: TaskId)                    // SubscribeTask: look, then create and register
    | RegisterMade(id: TaskId)
    | Resubscribe(id: TaskId)
    // outside every lock
    | CreateSubscriber
    | NotifyNext(id: TaskId)
    | SendCheck(sub: SubId, stores: bool)
    | CloseNext                                // closes what the call has collected
    | SwapFlag(sub: SubId)                     // a close from outside the manager
    | CloseDone(sub: SubId)
    | EnterOnce(ids: seq<TaskId>)              // the manager's Close; a second caller waits for the first
    | AwaitCleaner                             // waits for the cleanup goroutine to exit
    | LeaveOnce
    // under a subscriber's read lock
    | SendRecheck(sub: SubId, stores: bool)
    | Enqueue(sub: SubId)

  /** `queued` counts the events in the queue. */
  datatype Sub = Sub(closed: bool, done: bool, queued: nat)

  /** History: where a subscriber is kept. */
  datatype Owner = Creating(t: ThreadId) | Registered(id: TaskId) | Closing(t: ThreadId) | Gone

  /** The once of the manager's Close. */
  datatype Once = NotCalled | Running(t: ThreadId) | Finished

  /** The thread of the cleanup goroutine, if there is one, and whether it was told to stop. */
  datatype Cleaner = NoCleaner | Cleaning(t: ThreadId, told: bool) | Exited(t: ThreadId)

  datatype Shared = Shared(
    tasks: set<TaskId>,
    registered: map<TaskId, seq<SubId>>,
    subs: seq<Sub>,
    owner: seq<Owner>,
    once: Once,
    cleaner: Cleaner)

  /** The local variables of the call a thread runs. */
  datatype Local = Local(
    copied: seq<SubId>,
    failed: seq<SubId>,
    toClose: Option<seq<SubId>>,
    made: Option<SubId>)

  datatype Thread = Thread(code: seq<Instr>, readLocks: set<Lock>, writeLocks: set<Lock>, local: Local) {
    predicate Holds(l: Lock) { l in readLocks || l in writeLocks }
    predicate At(i: Instr) { code != [] && code[0] == i }
  }

  datatype State = State(capacity: nat, blocking: bool, shared: Shared, threads: seq<Thread>)

  // ---------------------------------------------------------------------------------------
  // The operations

  datatype Op =
    | BuildTask(id: TaskId)
    | UpdateTaskState(id: TaskId, final: bool)
    | AddArtifact(id: TaskId)
    | SubscribeTask(id: TaskId)
    | OnResubscribe(id: TaskId)
    | CleanTask(id: TaskId)
    | OnCancelTask(id: TaskId)
    | OnGetTask(id: TaskId)
    | CleanExpiredTasks(ids: seq<TaskId>)
    | CleanerTick(ids: seq<TaskId>)
    | ManagerClose(ids: seq<TaskId>)
    | StoreMessage
    | ReadHistory
    | PushConfig
    | Send(sub: SubId, stores: bool)
    | Close(sub: SubId)

  function Critical(l: Lock, body: Instr): seq<Instr> { [AcquireWrite(l), body, Release(l)] }

  function NotifyCode(id: TaskId): seq<Instr> {
    [AcquireRead(TaskMu), CopySubscribers(id), Release(TaskMu), NotifyNext(id)]
  }

  function CleanSubscribersCode(id: TaskId): seq<Instr> {
    Critical(TaskMu, TakeSubscribers(id)) + [CloseNext]
  }

  function CleanTaskCode(id: TaskId): seq<Instr> { [AcquireWrite(TaskMu), DropTask(id)] }

  function SweepCode(ids: seq<TaskId>): seq<Instr> {
    if ids == [] then [] else [DropExpired(ids[0])] + SweepCode(ids[1..])
  }

  function SweepAllCode(ids: seq<TaskId>): seq<Instr> {
    [AcquireWrite(TaskMu)] + SweepCode(ids) + [Release(TaskMu), CloseNext]
  }

  function OpCode(op: Op): seq<Instr> {
    match op
    case BuildTask(id) => Critical(TaskMu, PutTask(id))
    case UpdateTaskState(id, final) => [AcquireWrite(TaskMu), UpdateTask(id, final)]
    case AddArtifact(id) => [AcquireWrite(TaskMu), UpdateTask(id, false)]
    case SubscribeTask(id) => [AcquireRead(TaskMu), CheckTask(id)]
    case OnResubscribe(id) => Critical(TaskMu, Resubscribe(id))
    case CleanTask(id) => CleanTaskCode(id)
    case OnCancelTask(id) => Critical(TaskMu, Work) + CleanTaskCode(id)
    case OnGetTask(id) =>
      [AcquireRead(TaskMu), Work, Release(TaskMu), AcquireRead(ConversationMu), Work, Release(ConversationMu)]
    case CleanExpiredTasks(ids) => SweepAllCode(ids) + Critical(ManagerMu, Work)
    case CleanerTick(ids) => Critical(ConversationMu, Work) + (SweepAllCode(ids) + Critical(ManagerMu, Work))
    case ManagerClose(ids) => [EnterOnce(ids)]
    case StoreMessage => Critical(ConversationMu, Work)
    case ReadHistory => [AcquireRead(ConversationMu), Work, Release(ConversationMu)]
    case PushConfig => Critical(ManagerMu, Work)
    case Send(s, stores) => [SendCheck(s, stores)]
    case Close(s) => [SwapFlag(s)]
  }

  // ---------------------------------------------------------------------------------------
  // What one instruction does, locks aside

  function Get(sh: Shared, s: SubId): Sub {
    if s < |sh.subs| then sh.subs[s] else Sub(true, true, 0)
  }

  function Put(sh: Shared, s: SubId, sub: Sub): Shared {
    if s < |sh.subs| then sh.(subs := sh.subs[s := sub]) else sh
  }

  function Listed(sh: Shared, id: TaskId): seq<SubId> {
    if id in sh.registered then sh.registered[id] else []
  }

  function Pending(lo: Local): seq<SubId> {
    if lo.toClose.Some? then lo.toClose.value else []
  }

  function Reassign(owner: seq<Owner>, list: seq<SubId>, to: Owner): (r: seq<Owner>)
    ensures |r| == |owner|
    ensures forall s :: 0 <= s < |owner| ==> r[s] == if s in list then to else owner[s]
  {
    seq(|owner|, i requires 0 <= i < |owner| => if i in list then to else owner[i])
  }

  function SetList(registered: map<TaskId, seq<SubId>>, id: TaskId, list: seq<SubId>): map<TaskId, seq<SubId>> {
    if list == [] then registered - {id} else registered[id := list]
  }

  /** Moves `taken` from the list of `id` to the to-close list of the running call. */
  function Collect(sh: Shared, lo: Local, t: ThreadId, id: TaskId, taken: seq<SubId>, kept: seq<SubId>): (Shared,
                   Local) {
    (sh.(registered := SetList(sh.registered, id, kept), owner := Reassign(sh.owner, taken, Closing(t))),
     lo.(toClose := Some(Pending(lo) + taken)))
  }

  function Create(sh: Shared, owner: Owner): Shared {
    sh.(subs := sh.subs + [Sub(false, false, 0)], owner := sh.owner + [owner])
  }

  /** The compare-and-swap that starts a close; the winner goes on to close done and the queue. */
  function Swap(sh: Shared, s: SubId): (Shared, seq<Instr>) {
    if Get(sh, s).closed then (sh, [])
    else (Put(sh, s, Get(sh, s).(closed := true)), [CloseDone(s)])
  }

  /** The new shared and local state, and the instructions that replace the executed one. */
  function Effect(sh: Shared, lo: Local, t: ThreadId, i: Instr): (Shared, Local, seq<Instr>) {
    match i
    case PutTask(id) => (sh.(tasks := sh.tasks + {id}), lo, [])
    case UpdateTask(id, final) =>
      (sh, lo, [Release(TaskMu)]
               + (if id in sh.tasks then NotifyCode(id) + (if final then CleanSubscribersCode(id) else []) else []))
    case CopySubscribers(id) => (sh, lo.(copied := Listed(sh, id), failed := []), [])
    case NotifyNext(id) =>
      if lo.copied == [] then
        (sh, lo, if lo.failed == [] then [] else Critical(TaskMu, FilterFailed(id)) + [CloseNext])
      else
        var s := lo.copied[0];
        var lo' := lo.(copied := lo.copied[1..]);
        if Get(sh, s).closed then (sh, lo'.(failed := lo.failed + [s]), [NotifyNext(id)])
        else (sh, lo', [SendCheck(s, false), NotifyNext(id)])
    case SendCheck(s, stores) =>
      if Get(sh, s).closed then (sh, lo.(failed := lo.failed + [s]), [])
      else (sh, lo, [AcquireRead(SubscriberMu(s)), SendRecheck(s, stores), Release(SubscriberMu(s))])
    case SendRecheck(s, stores) =>
      if Get(sh, s).closed then (sh, lo.(failed := lo.failed + [s]), [])
      else (sh, lo, (if stores then Critical(ConversationMu, Work) else []) + [Enqueue(s)])
    case FilterFailed(id) =>
      var list := Listed(sh, id);
      var (sh', lo') := Collect(sh, lo, t, id, Select(list, lo.failed, true), Select(list, lo.failed, false));
      (sh', lo', [])
    case TakeSubscribers(id) =>
      var (sh', lo') := Collect(sh, lo, t, id, Listed(sh, id), []);
      (sh', lo', [])
    case DropExpired(id) =>
      var (sh', lo') := Collect(sh, lo, t, id, Listed(sh, id), []);
      (sh'.(tasks := sh.tasks - {id}), lo', [])
    case DropTask(id) =>
      if id !in sh.tasks then (sh, lo, [Release(TaskMu)])
      else
        var (sh', lo') := Collect(sh, lo, t, id, Listed(sh, id), []);
        (sh'.(tasks := sh.tasks - {id}), lo', [Release(TaskMu), CloseNext] + Critical(ManagerMu, Work))
    case CheckTask(id) =>
      (sh, lo, [Release(TaskMu)]
               + (if id !in sh.tasks then []
                  else [AcquireRead(ConversationMu), Work, Release(ConversationMu), CreateSubscriber]
                       + Critical(TaskMu, RegisterMade(id))))
    case CreateSubscriber => (Create(sh, Creating(t)), lo.(made := Some(|sh.subs|)), [])
    case RegisterMade(id) =>
      if lo.made.None? then (sh, lo, [])
      else
        (sh.(registered := sh.registered[id := Listed(sh, id) + [lo.made.value]],
             owner := Reassign(sh.owner, [lo.made.value], Registered(id))),
         lo.(made := None), [])
    case Resubscribe(id) =>
      if id !in sh.tasks then (sh, lo, [])
      else
        (Create(sh, Registered(id)).(registered := sh.registered[id := Listed(sh, id) + [|sh.subs|]]), lo, [])
    case CloseNext =>
      if Pending(lo) == [] then (sh, lo.(toClose := None), [])
      else
        var s := Pending(lo)[0];
        var (sh', code) := Swap(sh, s);
        (sh'.(owner := Reassign(sh.owner, [s], Gone)), lo.(toClose := Some(Pending(lo)[1..])), code + [CloseNext])
    case SwapFlag(s) =>
      var (sh', code) := Swap(sh, s);
      (sh', lo, code)
    case CloseDone(s) => (Put(sh, s, Get(sh, s).(done := true)), lo, Critical(SubscriberMu(s), Work))
    case EnterOnce(ids) =>
      if !sh.once.NotCalled? then (sh, lo, [])
      else (sh.(once := Running(t), cleaner := Told(sh.cleaner)), lo, [AwaitCleaner] + SweepAllCode(ids) + [LeaveOnce])
    case LeaveOnce => (sh.(once := Finished), lo, [])
    case _ => (sh, lo, [])
  }

  function Told(c: Cleaner): Cleaner { if c.Cleaning? then c.(told := true) else c }

  // ---------------------------------------------------------------------------------------
  // Steps

  /** A reader gets in when no writer holds the lock or waits for it; a writer may announce
      itself under the same condition, and gets the lock once nobody holds it. */
  predicate NoWriter(s: State, l: Lock) {
    forall u :: 0 <= u < |s.threads| ==> l !in s.threads[u].writeLocks && !s.threads[u].At(AwaitWrite(l))
  }

  predicate Free(s: State, l: Lock) {
    forall u :: 0 <= u < |s.threads| ==> !s.threads[u].Holds(l)
  }

  /** How a select at the queue ends; in a full queue without done, a blocking send waits. */
  datatype Outcome = Sent | Refused

  predicate CanEnqueue(s: State, sub: SubId, o: Outcome) {
    var b := Get(s.shared, sub);
    match o
    case Sent => b.queued < s.capacity
    case Refused => b.done || (b.queued >= s.capacity && !s.blocking)
  }

  predicate CanStep(s: State, t: ThreadId, o: Outcome) {
    && t < |s.threads| && s.threads[t].code != []
    && match s.threads[t].code[0]
       case AcquireRead(l) => NoWriter(s, l)
       case AcquireWrite(l) => NoWriter(s, l)
       case AwaitWrite(l) => Free(s, l)
       case Enqueue(sub) => CanEnqueue(s, sub, o)
       case EnterOnce(_) => !s.shared.once.Running?
       case AwaitCleaner => !s.shared.cleaner.Cleaning?
       case _ => true
  }

  predicate CanMove(s: State, t: ThreadId) { CanStep(s, t, Sent) || CanStep(s, t, Refused) }

  /** The thread after its step, given the effect of the instruction. */
  function NextThread(th: Thread, o: Outcome, lo: Local, code: seq<Instr>): Thread
    requires th.code != []
  {
    var rest := th.code[1..];
    match th.code[0]
    case AcquireRead(l) => th.(code := rest, readLocks := th.readLocks + {l})
    case AcquireWrite(l) => th.(code := [AwaitWrite(l)] + rest)
    case AwaitWrite(l) => th.(code := rest, writeLocks := th.writeLocks + {l})
    case Release(l) => th.(code := rest, readLocks := th.readLocks - {l}, writeLocks := th.writeLocks - {l})
    case Enqueue(sub) =>
      if o.Sent? then th.(code := rest)
      else th.(code := rest, local := th.local.(failed := th.local.failed + [sub]))
    case _ => th.(code := code + rest, local := lo)
  }

  function NextShared(s: State, i: Instr, o: Outcome, sh: Shared): Shared {
    if i.Enqueue? && o.Sent? then
      var b := Get(s.shared, i.sub);
      Put(s.shared, i.sub, b.(queued := b.queued + 1))
    else sh
  }

  function Step(s: State, t: ThreadId, o: Outcome): State
    requires CanStep(s, t, o)
  {
    var th := s.threads[t];
    var (sh, lo, code) := Effect(s.shared, th.local, t, th.code[0]);
    s.(shared := NextShared(s, th.code[0], o, sh), threads := s.threads[t := NextThread(th, o, lo, code)])
  }

  datatype Action =
    | Call(t: ThreadId, op: Op)
    | Go(t: ThreadId, o: Outcome)
    | Consume(sub: SubId)
    | CleanerExits

  /** The cleanup goroutine does nothing but its ticks. */
  predicate MayCall(c: Cleaner, t: ThreadId, op: Op) {
    match c
    case NoCleaner => true
    case Cleaning(u, _) => t == u ==> op.CleanerTick?
    case Exited(u) => t != u
  }

  predicate Enabled(s: State, a: Action) {
    match a
    case Call(t, op) => t < |s.threads| && s.threads[t].code == [] && MayCall(s.shared.cleaner, t, op)
    case Go(t, o) => CanStep(s, t, o)
    case Consume(sub) => sub < |s.shared.subs| && s.shared.subs[sub].queued > 0
    case CleanerExits => CleanerCanExit(s)
  }

  predicate CleanerCanExit(s: State) {
    s.shared.cleaner.Cleaning? && s.shared.cleaner.told
    && s.shared.cleaner.t < |s.threads| && s.threads[s.shared.cleaner.t].code == []
  }

  function Apply(s: State, a: Action): State
    requires Enabled(s, a)
  {
    match a
    case Call(t, op) => s.(threads := s.threads[t := s.threads[t].(code := OpCode(op))])
    case Go(t, o) => Step(s, t, o)
    case Consume(sub) =>
      var b := s.shared.subs[sub];
      s.(shared := Put(s.shared, sub, b.(queued := b.queued - 1)))
    case CleanerExits => s.(shared := s.shared.(cleaner := Exited(s.shared.cleaner.t)))
  }

  ghost predicate Initial(s: State) {
    && s.capacity > 0
    && s.shared == Shared({}, map[], [], [], NotCalled, s.shared.cleaner)
    && (s.shared.cleaner == NoCleaner
        || (s.shared.cleaner == Cleaning(s.shared.cleaner.t, false) && s.shared.cleaner.t < |s.threads|))
    && forall t :: 0 <= t < |s.threads| ==> s.threads[t] == Thread([], {}, {}, Local([], [], None, None))
  }

  ghost predicate Legal(s: State, acts: seq<Action>)
    decreases |acts|
  {
    acts == [] || (Enabled(s, acts[0]) && Legal(Apply(s, acts[0]), acts[1..]))
  }

  ghost function Run(s: State, acts: seq<Action>): State
    requires Legal(s, acts)
    decreases |acts|
  {
    if acts == [] then s else Run(Apply(s, acts[0]), acts[1..])
  }

  // ---------------------------------------------------------------------------------------
  // The lock discipline

  /** What a thread holds and carries: locks, a subscriber not yet registered, a to-close list. */
  datatype Shape = Shape(readLocks: set<Lock>, writeLocks: set<Lock>, made: bool, closing: bool) {
    predicate Bare() { readLocks == {} && writeLocks == {} }
    predicate UnderTaskMu() {
      (readLocks == {TaskMu} && writeLocks == {}) || (readLocks == {} && writeLocks == {TaskMu})
    }
    predicate Reading(sub: SubId) { readLocks == {SubscriberMu(sub)} && writeLocks == {} }
  }

  const AT_REST := Shape({}, {}, false, false)

  /** The discipline: a thread takes a lock only when it holds none, except the conversation
      lock under one subscriber's read lock; waits for room only under that read lock; and
      ends with nothing held, nothing unregistered and nothing left to close. */
  ghost function After(sh: Shape, i: Instr): Option<Shape> {
    match i
    case AcquireRead(l) =>
      if sh.Bare() then Some(sh.(readLocks := {l})) else None
    case AcquireWrite(l) => AfterWrite(sh, l)
    case AwaitWrite(l) => AfterWrite(sh, l)
    case Release(l) =>
      if l in sh.readLocks || l in sh.writeLocks then
        Some(sh.(readLocks := Without(sh.readLocks, l), writeLocks := Without(sh.writeLocks, l)))
      else None
    case Work => Some(sh)
    case PutTask(_) => if sh.UnderTaskMu() then Some(sh) else None
    case CopySubscribers(_) => if sh.UnderTaskMu() then Some(sh) else None
    case Resubscribe(_) => if sh.UnderTaskMu() then Some(sh) else None
    case UpdateTask(_, _) => if sh.UnderTaskMu() && !sh.closing then Some(sh.(readLocks := {}, writeLocks := {})) else None
    case FilterFailed(_) => if sh.UnderTaskMu() then Some(sh.(closing := true)) else None
    case TakeSubscribers(_) => if sh.UnderTaskMu() then Some(sh.(closing := true)) else None
    case DropExpired(_) => if sh.UnderTaskMu() then Some(sh.(closing := true)) else None
    case DropTask(_) => if sh.UnderTaskMu() && !sh.closing then Some(sh.(readLocks := {}, writeLocks := {})) else None
    case CheckTask(_) => if sh.UnderTaskMu() && !sh.made then Some(sh.(readLocks := {}, writeLocks := {})) else None
    case RegisterMade(_) => if sh.UnderTaskMu() && sh.made then Some(sh.(made := false)) else None
    case CreateSubscriber => if sh.Bare() && !sh.made then Some(sh.(made := true)) else None
    case NotifyNext(_) => if sh.Bare() && !sh.closing then Some(sh) else None
    case SendCheck(_, _) => if sh.Bare() then Some(sh) else None
    case SendRecheck(sub, _) => if sh.Reading(sub) then Some(sh) else None
    case Enqueue(sub) => if sh.Reading(sub) then Some(sh) else None
    case CloseNext => if sh.Bare() then Some(sh.(closing := false)) else None
    case SwapFlag(_) => if sh.Bare() then Some(sh) else None
    case CloseDone(_) => if sh.Bare() then Some(sh) else None
    case EnterOnce(_) => if sh == AT_REST then Some(sh) else None
    case AwaitCleaner => if sh.Bare() then Some(sh) else None
    case LeaveOnce => if sh.Bare() then Some(sh) else None
  }

  ghost function Without(locks: set<Lock>, l: Lock): (r: set<Lock>)
    ensures r == locks - {l}
  {
    if locks <= {l} then {} else locks - {l}
  }

  ghost function AfterWrite(sh: Shape, l: Lock): Option<Shape> {
    if sh.Bare() || (l == ConversationMu && exists sub :: sh.Reading(sub)) then
      Some(sh.(writeLocks := {l}))
    else None
  }

  ghost function AfterAll(sh: Shape, code: seq<Instr>): Option<Shape>
    decreases |code|
  {
    if code == [] then Some(sh)
    else
      var next := After(sh, code[0]);
      if next.None? then None else AfterAll(next.value, code[1..])
  }

  ghost function ShapeOf(th: Thread): Shape {
    Shape(th.readLocks, th.writeLocks, th.local.made.Some?, th.local.toClose.Some?)
  }

  ghost predicate Disciplined(th: Thread) { AfterAll(ShapeOf(th), th.code) == Some(AT_REST) }

  lemma {:induction false} AfterConcat(sh: Shape, a: seq<Instr>, b: seq<Instr>)
    requires AfterAll(sh, a).Some?
    ensures AfterAll(sh, a + b) == AfterAll(AfterAll(sh, a).value, b)
    decreases |a|
  {
    if a == [] {
      assert a + b == b;
    } else {
      assert (a + b)[1..] == a[1..] + b;
      AfterConcat(After(sh, a[0]).value, a[1..], b);
    }
  }

  lemma {:induction false} SweepShape(sh: Shape, ids: seq<TaskId>)
    requires sh.UnderTaskMu()
    ensures AfterAll(sh, SweepCode(ids)) == Some(if ids == [] then sh else sh.(closing := true))
    decreases |ids|
  {
    if ids != [] {
      SweepShape(sh.(closing := true), ids[1..]);
      assert SweepCode(ids)[1..] == SweepCode(ids[1..]);
    }
  }

  ghost function Then(o: Option<Shape>, i: Instr): Option<Shape> {
    if o.None? then None else After(o.value, i)
  }

  lemma {:induction false} AfterFew(sh: Shape, code: seq<Instr>)
    ensures |code| == 1 ==> AfterAll(sh, code) == After(sh, code[0])
    ensures |code| == 2 ==> AfterAll(sh, code) == Then(After(sh, code[0]), code[1])
    ensures |code| == 3 ==> AfterAll(sh, code) == Then(Then(After(sh, code[0]), code[1]), code[2])
    ensures |code| == 4 ==>
      AfterAll(sh, code) == Then(Then(Then(After(sh, code[0]), code[1]), code[2]), code[3])
    decreases |code|
  {
    if 0 < |code| && After(sh, code[0]).Some? {
      AfterFew(After(sh, code[0]).value, code[1..]);
    }
  }

  lemma SweepOpShape(ids: seq<TaskId>)
    ensures AfterAll(AT_REST, SweepAllCode(ids)) == Some(AT_REST)
  {
    var held := AT_REST.(writeLocks := {TaskMu});
    var closing := if ids == [] then held else held.(closing := true);
    var start, tail := [AcquireWrite(TaskMu)], [Release(TaskMu), CloseNext];
    AfterFew(AT_REST, start);
    SweepShape(held, ids);
    AfterConcat(AT_REST, start, SweepCode(ids));
    AfterFew(closing, tail);
    AfterConcat(AT_REST, start + SweepCode(ids), tail);
  }

  lemma SweepAndWorkShape(ids: seq<TaskId>)
    ensures AfterAll(AT_REST, SweepAllCode(ids) + Critical(ManagerMu, Work)) == Some(AT_REST)
  {
    SweepOpShape(ids);
    CriticalShape(ManagerMu, Work, AT_REST);
    AfterConcat(AT_REST, SweepAllCode(ids), Critical(ManagerMu, Work));
  }

  /** What the caller that enters the once goes on with. */
  lemma OnceShape(ids: seq<TaskId>)
    ensures AfterAll(AT_REST, [AwaitCleaner] + SweepAllCode(ids) + [LeaveOnce]) == Some(AT_REST)
  {
    AfterFew(AT_REST, [AwaitCleaner]);
    SweepOpShape(ids);
    AfterConcat(AT_REST, [AwaitCleaner], SweepAllCode(ids));
    AfterFew(AT_REST, [LeaveOnce]);
    AfterConcat(AT_REST, [AwaitCleaner] + SweepAllCode(ids), [LeaveOnce]);
  }

  lemma CriticalShape(l: Lock, i: Instr, sh: Shape)
    requires sh.Bare()
    requires After(sh.(writeLocks := {l}), i).Some?
    requires After(sh.(writeLocks := {l}), i).value.writeLocks == {l}
    requires After(sh.(writeLocks := {l}), i).value.readLocks == {}
    ensures AfterAll(sh, Critical(l, i)) == Some(After(sh.(writeLocks := {l}), i).value.(writeLocks := {}))
  {
    AfterFew(sh, Critical(l, i));
  }

  lemma ReadShape(l: Lock, sh: Shape)
    requires sh.Bare()
    ensures AfterAll(sh, [AcquireRead(l), Work, Release(l)]) == Some(sh)
  {
    AfterFew(sh, [AcquireRead(l), Work, Release(l)]);
  }

  lemma SectionShape(i: Instr)
    requires After(AT_REST.(writeLocks := {TaskMu}), i) == Some(AT_REST)
    ensures AfterAll(AT_REST, [AcquireWrite(TaskMu), i]) == Some(AT_REST)
  {
    AfterFew(AT_REST, [AcquireWrite(TaskMu), i]);
  }

  /** The operations that are more than one section, or a sweep. */
  predicate Composite(op: Op) { op.CleanExpiredTasks? || op.CleanerTick? || op.OnCancelTask? || op.OnGetTask? }

  lemma CompositeShape(op: Op)
    requires Composite(op)
    ensures AfterAll(AT_REST, OpCode(op)) == Some(AT_REST)
  {
    match op
    case CleanExpiredTasks(ids) => SweepAndWorkShape(ids);
    case CleanerTick(ids) =>
      CriticalShape(ConversationMu, Work, AT_REST);
      SweepAndWorkShape(ids);
      AfterConcat(AT_REST, Critical(ConversationMu, Work), SweepAllCode(ids) + Critical(ManagerMu, Work));
    case OnCancelTask(id) =>
      CriticalShape(TaskMu, Work, AT_REST);
      SectionShape(DropTask(id));
      AfterConcat(AT_REST, Critical(TaskMu, Work), CleanTaskCode(id));
    case OnGetTask(_) =>
      ReadShape(TaskMu, AT_REST);
      ReadShape(ConversationMu, AT_REST);
      AfterConcat(AT_REST, [AcquireRead(TaskMu), Work, Release(TaskMu)],
                  [AcquireRead(ConversationMu), Work, Release(ConversationMu)]);
      assert OpCode(op) == [AcquireRead(TaskMu), Work, Release(TaskMu)]
                           + [AcquireRead(ConversationMu), Work, Release(ConversationMu)];
  }

  lemma OpShape(op: Op)
    ensures AfterAll(AT_REST, OpCode(op)) == Some(AT_REST)
  {
    match op
    case BuildTask(id) => CriticalShape(TaskMu, PutTask(id), AT_REST);
    case UpdateTaskState(id, final) => SectionShape(UpdateTask(id, final));
    case AddArtifact(id) => SectionShape(UpdateTask(id, false));
    case SubscribeTask(id) => AfterFew(AT_REST, [AcquireRead(TaskMu), CheckTask(id)]);
    case OnResubscribe(id) => CriticalShape(TaskMu, Resubscribe(id), AT_REST);
    case CleanTask(id) => SectionShape(DropTask(id));
    case StoreMessage => CriticalShape(ConversationMu, Work, AT_REST);
    case ReadHistory => ReadShape(ConversationMu, AT_REST);
    case PushConfig => CriticalShape(ManagerMu, Work, AT_REST);
    case Send(s, stores) => AfterFew(AT_REST, [SendCheck(s, stores)]);
    case Close(s) => AfterFew(AT_REST, [SwapFlag(s)]);
    case ManagerClose(ids) => AfterFew(AT_REST, [EnterOnce(ids)]);
    case _ => CompositeShape(op);
  }

  /** Instructions that take or release a lock, or wait for room, and put nothing in front. */
  predicate Plain(i: Instr) {
    i.AcquireRead? || i.AcquireWrite? || i.AwaitWrite? || i.Release? || i.Work? || i.Enqueue?
  }

  lemma ReleaseShape(sh: Shape, code: seq<Instr>)
    requires sh.UnderTaskMu()
    ensures AfterAll(sh, [Release(TaskMu)] + code) == AfterAll(sh.(readLocks := {}, writeLocks := {}), code)
  {
    AfterFew(sh, [Release(TaskMu)]);
    AfterConcat(sh, [Release(TaskMu)], code);
  }

  lemma NotifyShape(sh: Shape, id: TaskId)
    requires sh.Bare() && !sh.closing
    ensures AfterAll(sh, NotifyCode(id)) == Some(sh)
  {
    AfterFew(sh, NotifyCode(id));
  }

  /** A section under the task lock that collects subscribers, and the closing after it. */
  lemma CollectShape(sh: Shape, i: Instr)
    requires sh.Bare() && (i.TakeSubscribers? || i.FilterFailed?)
    ensures AfterAll(sh, Critical(TaskMu, i) + [CloseNext]) == Some(sh.(closing := false))
  {
    CriticalShape(TaskMu, i, sh);
    AfterFew(sh.(closing := true), [CloseNext]);
    AfterConcat(sh, Critical(TaskMu, i), [CloseNext]);
  }

  lemma UpdateShape(sh: Shape, id: TaskId, final: bool)
    requires sh.Bare() && !sh.closing
    ensures AfterAll(sh, NotifyCode(id) + (if final then CleanSubscribersCode(id) else [])) == Some(sh)
  {
    NotifyShape(sh, id);
    CollectShape(sh, TakeSubscribers(id));
    AfterConcat(sh, NotifyCode(id), if final then CleanSubscribersCode(id) else []);
  }

  lemma DropShape(sh: Shape)
    requires sh.Bare()
    ensures AfterAll(sh, [CloseNext] + Critical(ManagerMu, Work)) == Some(sh.(closing := false))
  {
    AfterFew(sh, [CloseNext]);
    CriticalShape(ManagerMu, Work, sh.(closing := false));
    AfterConcat(sh, [CloseNext], Critical(ManagerMu, Work));
  }

  lemma SubscribeShape(sh: Shape, id: TaskId)
    requires sh.Bare() && !sh.made
    ensures AfterAll(sh, [AcquireRead(ConversationMu), Work, Release(ConversationMu), CreateSubscriber]
                         + Critical(TaskMu, RegisterMade(id))) == Some(sh)
  {
    AfterFew(sh, [AcquireRead(ConversationMu), Work, Release(ConversationMu), CreateSubscriber]);
    CriticalShape(TaskMu, RegisterMade(id), sh.(made := true));
    AfterConcat(sh, [AcquireRead(ConversationMu), Work, Release(ConversationMu), CreateSubscriber],
                Critical(TaskMu, RegisterMade(id)));
  }

  lemma RecheckShape(sh: Shape, sub: SubId, stores: bool)
    requires sh.Reading(sub)
    ensures AfterAll(sh, (if stores then Critical(ConversationMu, Work) else []) + [Enqueue(sub)]) == Some(sh)
  {
    AfterFew(sh, (if stores then Critical(ConversationMu, Work) else []) + [Enqueue(sub)]);
  }

  lemma SendShape(sh: Shape, sub: SubId, stores: bool)
    requires sh.Bare()
    ensures AfterAll(sh, [AcquireRead(SubscriberMu(sub)), SendRecheck(sub, stores), Release(SubscriberMu(sub))])
         == Some(sh)
  {
    AfterFew(sh, [AcquireRead(SubscriberMu(sub)), SendRecheck(sub, stores), Release(SubscriberMu(sub))]);
  }

  /** The instructions that end a section under the task lock and go on with others. */
  predicate GoesOn(i: Instr) { i.UpdateTask? || i.DropTask? || i.CheckTask? }

  lemma GoesOnShape(sh: Shared, th: Thread, t: ThreadId, i: Instr)
    requires GoesOn(i) && After(ShapeOf(th), i).Some?
    ensures var (_, lo, code) := Effect(sh, th.local, t, i);
            AfterAll(ShapeOf(th.(local := lo)), code) == After(ShapeOf(th), i)
  {
    var (_, lo, code) := Effect(sh, th.local, t, i);
    var shape := ShapeOf(th.(local := lo));
    var bare := shape.(readLocks := {}, writeLocks := {});
    ReleaseShape(shape, code[1..]);
    assert code == [Release(TaskMu)] + code[1..];
    match i {
      case UpdateTask(id, final) => UpdateShape(bare, id, final);
      case DropTask(id) => DropShape(bare);
      case CheckTask(id) => SubscribeShape(bare, id);
    }
  }

  /** The instructions an instruction puts in front leave the thread in the shape the
      discipline promises for the instruction itself. */
  lemma EffectShape(sh: Shared, th: Thread, t: ThreadId, i: Instr)
    requires !Plain(i)
    requires After(ShapeOf(th), i).Some?
    ensures var (_, lo, code) := Effect(sh, th.local, t, i);
            AfterAll(ShapeOf(th.(local := lo)), code) == After(ShapeOf(th), i)
  {
    if GoesOn(i) {
      GoesOnShape(sh, th, t, i);
    } else if i.NotifyNext? || i.SendRecheck? || i.SendCheck? || i.CloseDone? {
      SendingShape(sh, th, t, i);
    } else if i.EnterOnce? {
      OnceShape(i.ids);
    } else {
      var (_, lo, code) := Effect(sh, th.local, t, i);
      AfterFew(ShapeOf(th.(local := lo)), code);
    }
  }

  lemma SendingShape(sh: Shared, th: Thread, t: ThreadId, i: Instr)
    requires i.NotifyNext? || i.SendRecheck? || i.SendCheck? || i.CloseDone?
    requires After(ShapeOf(th), i).Some?
    ensures var (_, lo, code) := Effect(sh, th.local, t, i);
            AfterAll(ShapeOf(th.(local := lo)), code) == After(ShapeOf(th), i)
  {
    var (_, lo, code) := Effect(sh, th.local, t, i);
    var shape := ShapeOf(th.(local := lo));
    match i {
      case NotifyNext(id) =>
        CollectShape(shape, FilterFailed(id));
        AfterFew(shape, code);
      case SendRecheck(sub, stores) => RecheckShape(shape, sub, stores);
      case SendCheck(sub, stores) => SendShape(shape, sub, stores);
      case CloseDone(sub) => CriticalShape(SubscriberMu(sub), Work, shape);
    }
  }

  lemma PlainShape(th: Thread, o: Outcome, lo: Local, code: seq<Instr>)
    requires Disciplined(th) && th.code != [] && Plain(th.code[0])
    requires th.code[0].Work? ==> lo == th.local && code == []
    ensures Disciplined(NextThread(th, o, lo, code))
  {
    var i, rest := th.code[0], th.code[1..];
    var th' := NextThread(th, o, lo, code);
    assert After(ShapeOf(th), i).Some? && AfterAll(After(ShapeOf(th), i).value, rest) == Some(AT_REST);
    if i.AcquireWrite? {
      assert th'.code[0] == AwaitWrite(i.lock) && th'.code[1..] == rest;
      assert ShapeOf(th') == ShapeOf(th);
    } else {
      assert th'.code == rest;
      assert ShapeOf(th') == After(ShapeOf(th), i).value;
    }
  }

  lemma StepDisciplined(s: State, t: ThreadId, o: Outcome)
    requires CanStep(s, t, o) && Disciplined(s.threads[t])
    ensures Disciplined(Step(s, t, o).threads[t])
  {
    var th := s.threads[t];
    var (sh, lo, code) := Effect(s.shared, th.local, t, th.code[0]);
    if Plain(th.code[0]) {
      PlainShape(th, o, lo, code);
    } else {
      EffectShape(s.shared, th, t, th.code[0]);
      AfterConcat(ShapeOf(th.(local := lo)), code, th.code[1..]);
    }
  }

  // ---------------------------------------------------------------------------------------
  // Locks exclude each other, and a subscriber's write lock is asked for after done is closed

  ghost predicate Exclusive(s: State) {
    forall t, u, l | 0 <= t < |s.threads| && 0 <= u < |s.threads| ::
      l in s.threads[t].writeLocks && s.threads[u].Holds(l) ==> t == u
  }

  lemma StepExclusive(s: State, t: ThreadId, o: Outcome)
    requires CanStep(s, t, o) && Exclusive(s)
    ensures Exclusive(Step(s, t, o))
  {
  }

  ghost predicate AfterDone(sh: Shared, i: Instr) {
    match i
    case CloseDone(sub) => sub < |sh.subs|
    case AcquireWrite(SubscriberMu(sub)) => sub < |sh.subs| && sh.subs[sub].done
    case AwaitWrite(SubscriberMu(sub)) => sub < |sh.subs| && sh.subs[sub].done
    case _ => true
  }

  ghost predicate AllAfterDone(sh: Shared, code: seq<Instr>) {
    forall k :: 0 <= k < |code| ==> AfterDone(sh, code[k])
  }

  /** Subscribers are only added, and done stays closed. */
  ghost predicate Grows(sh: Shared, sh': Shared) {
    && |sh.subs| <= |sh'.subs|
    && forall s :: 0 <= s < |sh.subs| && sh.subs[s].done ==> sh'.subs[s].done
  }

  lemma EffectGrows(sh: Shared, lo: Local, t: ThreadId, i: Instr)
    ensures Grows(sh, Effect(sh, lo, t, i).0)
  {
  }

  lemma EffectAfterDone(sh: Shared, lo: Local, t: ThreadId, i: Instr)
    requires AfterDone(sh, i)
    ensures var (sh', _, code) := Effect(sh, lo, t, i); AllAfterDone(sh', code)
  {
    if i.CloseNext? || i.SwapFlag? || i.CloseDone? {
      CloserAfterDone(sh, lo, t, i);
    } else if i.EnterOnce? {
      var sh' := Effect(sh, lo, t, i).0;
      SweepAllAfterDone(sh', i.ids);
      ConcatAfterDone(sh', [AwaitCleaner], SweepAllCode(i.ids));
      ConcatAfterDone(sh', [AwaitCleaner] + SweepAllCode(i.ids), [LeaveOnce]);
    } else {
      var code := Effect(sh, lo, t, i).2;
      forall k | 0 <= k < |code| ensures !code[k].CloseDone? && !TakesSubscriber(code[k]) {
        OthersTakeNone(sh, lo, t, i, k);
      }
    }
  }

  /** The instructions that ask for a subscriber's write lock. */
  predicate TakesSubscriber(i: Instr) { (i.AcquireWrite? || i.AwaitWrite?) && i.lock.SubscriberMu? }

  lemma OthersTakeNone(sh: Shared, lo: Local, t: ThreadId, i: Instr, k: nat)
    requires !i.CloseNext? && !i.SwapFlag? && !i.CloseDone? && !i.EnterOnce? && k < |Effect(sh, lo, t, i).2|
    ensures var j := Effect(sh, lo, t, i).2[k]; !j.CloseDone? && !TakesSubscriber(j)
  {
  }

  lemma CloserAfterDone(sh: Shared, lo: Local, t: ThreadId, i: Instr)
    requires AfterDone(sh, i) && (i.CloseNext? || i.SwapFlag? || i.CloseDone?)
    ensures var (sh', _, code) := Effect(sh, lo, t, i); AllAfterDone(sh', code)
  {
  }

  lemma GrowsKeeps(sh: Shared, sh': Shared, code: seq<Instr>)
    requires Grows(sh, sh') && AllAfterDone(sh, code)
    ensures AllAfterDone(sh', code)
  {
    forall k | 0 <= k < |code| ensures AfterDone(sh', code[k]) {
      assert AfterDone(sh, code[k]);
    }
  }

  lemma OpAfterDone(sh: Shared, op: Op)
    ensures AllAfterDone(sh, OpCode(op))
  {
    if op.CleanExpiredTasks? || op.CleanerTick? {
      SweepAllAfterDone(sh, op.ids);
      ConcatAfterDone(sh, SweepAllCode(op.ids), Critical(ManagerMu, Work));
      ConcatAfterDone(sh, Critical(ConversationMu, Work), SweepAllCode(op.ids) + Critical(ManagerMu, Work));
    }
  }

  lemma ConcatAfterDone(sh: Shared, a: seq<Instr>, b: seq<Instr>)
    requires AllAfterDone(sh, a) && AllAfterDone(sh, b)
    ensures AllAfterDone(sh, a + b)
  {
  }

  lemma SweepAllAfterDone(sh: Shared, ids: seq<TaskId>)
    ensures AllAfterDone(sh, SweepAllCode(ids))
  {
    SweepAfterDone(sh, ids);
    ConcatAfterDone(sh, [AcquireWrite(TaskMu)], SweepCode(ids));
    ConcatAfterDone(sh, [AcquireWrite(TaskMu)] + SweepCode(ids), [Release(TaskMu), CloseNext]);
  }

  lemma {:induction false} SweepAfterDone(sh: Shared, ids: seq<TaskId>)
    ensures AllAfterDone(sh, SweepCode(ids))
    decreases |ids|
  {
    if ids != [] {
      SweepAfterDone(sh, ids[1..]);
    }
  }

  lemma NextAfterDone(sh: Shared, th: Thread, o: Outcome, lo: Local, code: seq<Instr>)
    requires th.code != [] && AllAfterDone(sh, th.code) && AllAfterDone(sh, code)
    ensures AllAfterDone(sh, NextThread(th, o, lo, code).code)
  {
    var next := NextThread(th, o, lo, code).code;
    forall k | 0 <= k < |next| ensures AfterDone(sh, next[k]) {
      if th.code[0].AcquireWrite? && k == 0 {
        assert AfterDone(sh, th.code[0]);
      } else {
        assert next[k] in code || next[k] in th.code;
      }
    }
  }

  lemma NextSharedGrows(s: State, t: ThreadId, o: Outcome)
    requires CanStep(s, t, o)
    ensures Grows(Effect(s.shared, s.threads[t].local, t, s.threads[t].code[0]).0, Step(s, t, o).shared)
    ensures Grows(s.shared, Step(s, t, o).shared)
  {
    EffectGrows(s.shared, s.threads[t].local, t, s.threads[t].code[0]);
  }

  lemma StepAfterDone(s: State, t: ThreadId, o: Outcome)
    requires CanStep(s, t, o)
    requires forall u :: 0 <= u < |s.threads| ==> AllAfterDone(s.shared, s.threads[u].code)
    ensures forall u :: 0 <= u < |s.threads| ==> AllAfterDone(Step(s, t, o).shared, Step(s, t, o).threads[u].code)
  {
    var th, s' := s.threads[t], Step(s, t, o);
    var (sh, lo, code) := Effect(s.shared, th.local, t, th.code[0]);
    assert AllAfterDone(s.shared, th.code) && AfterDone(s.shared, th.code[0]);
    EffectAfterDone(s.shared, th.local, t, th.code[0]);
    NextSharedGrows(s, t, o);
    GrowsKeeps(sh, s'.shared, code);
    forall u | 0 <= u < |s.threads| ensures AllAfterDone(s'.shared, s'.threads[u].code) {
      assert AllAfterDone(s.shared, s.threads[u].code);
      GrowsKeeps(s.shared, s'.shared, s.threads[u].code);
      if u == t {
        NextAfterDone(s'.shared, th, o, lo, code);
      }
    }
  }

  // ---------------------------------------------------------------------------------------
  // Ownership

  predicate OwnedBy(sh: Shared, x: SubId, o: Owner) { x < |sh.owner| && sh.owner[x] == o }

  ghost predicate SharedOwns(sh: Shared) {
    && |sh.owner| == |sh.subs|
    && (forall x :: 0 <= x < |sh.subs| && !sh.subs[x].closed ==> sh.owner[x] != Gone)
    && (forall id :: Distinct(Listed(sh, id)))
    && (forall id, x: SubId :: x in Listed(sh, id) <==> OwnedBy(sh, x, Registered(id)))
  }

  ghost predicate LocalOwns(sh: Shared, lo: Local, t: ThreadId) {
    && Distinct(Pending(lo))
    && (forall x: SubId :: x in Pending(lo) <==> OwnedBy(sh, x, Closing(t)))
    && (forall x: SubId :: lo.made == Some(x) <==> OwnedBy(sh, x, Creating(t)))
  }

  /** What the other threads own is left alone. */
  ghost predicate OthersKeep(sh: Shared, sh': Shared, t: ThreadId) {
    forall u: ThreadId, x: SubId | u != t ::
      && (OwnedBy(sh, x, Closing(u)) <==> OwnedBy(sh', x, Closing(u)))
      && (OwnedBy(sh, x, Creating(u)) <==> OwnedBy(sh', x, Creating(u)))
  }

  ghost predicate EffectOwns(sh: Shared, lo: Local, t: ThreadId, sh': Shared, lo': Local) {
    SharedOwns(sh') && LocalOwns(sh', lo', t) && OthersKeep(sh, sh', t)
  }

  lemma ConcatDistinct(a: seq<SubId>, b: seq<SubId>)
    requires Distinct(a) && Distinct(b)
    requires forall x :: x in a ==> x !in b
    ensures Distinct(a + b)
  {
    forall i, j | 0 <= i < j < |a + b| ensures (a + b)[i] != (a + b)[j] {
      if i < |a| <= j {
        assert a[i] in a && b[j - |a|] in b;
      }
    }
  }

  lemma CollectOwns(sh: Shared, lo: Local, t: ThreadId, id: TaskId, taken: seq<SubId>, kept: seq<SubId>)
    requires SharedOwns(sh) && LocalOwns(sh, lo, t)
    requires Distinct(taken) && Distinct(kept)
    requires forall x :: x in Listed(sh, id) <==> x in taken || x in kept
    requires forall x :: x in taken ==> x !in kept
    ensures var (sh', lo') := Collect(sh, lo, t, id, taken, kept); EffectOwns(sh, lo, t, sh', lo')
  {
    var (sh', lo') := Collect(sh, lo, t, id, taken, kept);
    assert Listed(sh', id) == kept;
    assert forall other | other != id :: Listed(sh', other) == Listed(sh, other);
    assert forall x | x in taken :: x in Listed(sh, id) && OwnedBy(sh, x, Registered(id));
    assert forall x | x in taken :: x !in Pending(lo);
    ConcatDistinct(Pending(lo), taken);
    assert forall x: SubId, o: Owner ::
      OwnedBy(sh', x, o) <==> if x in taken then o == Closing(t) else OwnedBy(sh, x, o);
  }

  lemma RegisterOwns(sh: Shared, lo: Local, t: ThreadId, id: TaskId)
    requires SharedOwns(sh) && LocalOwns(sh, lo, t)
    ensures var (sh', lo', _) := Effect(sh, lo, t, RegisterMade(id)); EffectOwns(sh, lo, t, sh', lo')
  {
    if lo.made.Some? {
      var (sh', lo', _) := Effect(sh, lo, t, RegisterMade(id));
      var made := lo.made.value;
      assert OwnedBy(sh, made, Creating(t));
      assert Listed(sh', id) == Listed(sh, id) + [made];
      assert forall other | other != id :: Listed(sh', other) == Listed(sh, other);
      ConcatDistinct(Listed(sh, id), [made]);
      assert forall x: SubId, o: Owner ::
        OwnedBy(sh', x, o) <==> if x == made then o == Registered(id) else OwnedBy(sh, x, o);
    }
  }

  lemma CreateOwns(sh: Shared, lo: Local, t: ThreadId)
    requires SharedOwns(sh) && LocalOwns(sh, lo, t) && lo.made.None?
    ensures var (sh', lo', _) := Effect(sh, lo, t, CreateSubscriber); EffectOwns(sh, lo, t, sh', lo')
  {
    var (sh', lo', _) := Effect(sh, lo, t, CreateSubscriber);
    assert forall id :: Listed(sh', id) == Listed(sh, id);
    assert forall x: SubId, o: Owner ::
      OwnedBy(sh', x, o) <==> if x == |sh.subs| then o == Creating(t) else OwnedBy(sh, x, o);
    assert !OwnedBy(sh, |sh.subs|, Creating(t));
  }

  lemma ResubscribeOwns(sh: Shared, lo: Local, t: ThreadId, id: TaskId)
    requires SharedOwns(sh) && LocalOwns(sh, lo, t)
    ensures var (sh', lo', _) := Effect(sh, lo, t, Resubscribe(id)); EffectOwns(sh, lo, t, sh', lo')
  {
    if id in sh.tasks {
      var (sh', lo', _) := Effect(sh, lo, t, Resubscribe(id));
      var x := |sh.subs|;
      assert !OwnedBy(sh, x, Registered(id));
      assert Listed(sh', id) == Listed(sh, id) + [x];
      assert forall other | other != id :: Listed(sh', other) == Listed(sh, other);
      ConcatDistinct(Listed(sh, id), [x]);
      assert forall y: SubId, o: Owner ::
        OwnedBy(sh', y, o) <==> if y == x then o == Registered(id) else OwnedBy(sh, y, o);
    }
  }

  lemma CloseNextOwns(sh: Shared, lo: Local, t: ThreadId)
    requires SharedOwns(sh) && LocalOwns(sh, lo, t)
    ensures var (sh', lo', _) := Effect(sh, lo, t, CloseNext); EffectOwns(sh, lo, t, sh', lo')
  {
    if Pending(lo) != [] {
      var (sh', lo', _) := Effect(sh, lo, t, CloseNext);
      var x := Pending(lo)[0];
      assert OwnedBy(sh, x, Closing(t));
      assert forall id :: Listed(sh', id) == Listed(sh, id);
      assert forall y: SubId, o: Owner ::
        OwnedBy(sh', y, o) <==> if y == x then o == Gone else OwnedBy(sh, y, o);
      assert forall y :: y in Pending(lo) <==> y == x || y in Pending(lo');
    }
  }

  lemma EffectOwnership(sh: Shared, lo: Local, t: ThreadId, i: Instr)
    requires SharedOwns(sh) && LocalOwns(sh, lo, t)
    requires i.CreateSubscriber? ==> lo.made.None?
    ensures var (sh', lo', _) := Effect(sh, lo, t, i); EffectOwns(sh, lo, t, sh', lo')
  {
    match i
    case RegisterMade(id) => RegisterOwns(sh, lo, t, id);
    case CreateSubscriber => CreateOwns(sh, lo, t);
    case Resubscribe(id) => ResubscribeOwns(sh, lo, t, id);
    case CloseNext => CloseNextOwns(sh, lo, t);
    case FilterFailed(id) => FilterOwns(sh, lo, t, id);
    case TakeSubscribers(id) => TakeOwns(sh, lo, t, id);
    case DropExpired(id) => DropOwns(sh, lo, t, id);
    case DropTask(id) => DropTaskOwns(sh, lo, t, id);
    case _ => QuietOwns(sh, lo, t, i);
  }

  lemma FilterOwns(sh: Shared, lo: Local, t: ThreadId, id: TaskId)
    requires SharedOwns(sh) && LocalOwns(sh, lo, t)
    ensures var (sh', lo', _) := Effect(sh, lo, t, FilterFailed(id)); EffectOwns(sh, lo, t, sh', lo')
  {
    var list := Listed(sh, id);
    SelectDistinct(list, lo.failed, true);
    SelectDistinct(list, lo.failed, false);
    CollectOwns(sh, lo, t, id, Select(list, lo.failed, true), Select(list, lo.failed, false));
  }

  lemma TakeOwns(sh: Shared, lo: Local, t: ThreadId, id: TaskId)
    requires SharedOwns(sh) && LocalOwns(sh, lo, t)
    ensures var (sh', lo', _) := Effect(sh, lo, t, TakeSubscribers(id)); EffectOwns(sh, lo, t, sh', lo')
  {
    CollectOwns(sh, lo, t, id, Listed(sh, id), []);
  }

  lemma DropTaskOwns(sh: Shared, lo: Local, t: ThreadId, id: TaskId)
    requires SharedOwns(sh) && LocalOwns(sh, lo, t)
    ensures var (sh', lo', _) := Effect(sh, lo, t, DropTask(id)); EffectOwns(sh, lo, t, sh', lo')
  {
    if id in sh.tasks {
      DropOwns(sh, lo, t, id);
      var (sh', lo', _) := Effect(sh, lo, t, DropExpired(id));
      assert Effect(sh, lo, t, DropTask(id)).0 == sh' && Effect(sh, lo, t, DropTask(id)).1 == lo';
    } else {
      QuietDrop(sh, lo, t, id);
    }
  }

  lemma QuietDrop(sh: Shared, lo: Local, t: ThreadId, id: TaskId)
    requires SharedOwns(sh) && LocalOwns(sh, lo, t) && id !in sh.tasks
    ensures EffectOwns(sh, lo, t, Effect(sh, lo, t, DropTask(id)).0, Effect(sh, lo, t, DropTask(id)).1)
  {
  }

  lemma DropOwns(sh: Shared, lo: Local, t: ThreadId, id: TaskId)
    requires SharedOwns(sh) && LocalOwns(sh, lo, t)
    ensures var (sh', lo', _) := Effect(sh, lo, t, DropExpired(id)); EffectOwns(sh, lo, t, sh', lo')
  {
    CollectOwns(sh, lo, t, id, Listed(sh, id), []);
    var (sh', lo') := Collect(sh, lo, t, id, Listed(sh, id), []);
    var (sh'', _, _) := Effect(sh, lo, t, DropExpired(id));
    assert forall other :: Listed(sh'', other) == Listed(sh', other);
  }

  /** The instructions that move no subscriber. */
  lemma QuietOwns(sh: Shared, lo: Local, t: ThreadId, i: Instr)
    requires SharedOwns(sh) && LocalOwns(sh, lo, t)
    requires !i.RegisterMade? && !i.CreateSubscriber? && !i.Resubscribe? && !i.CloseNext?
    requires !i.FilterFailed? && !i.TakeSubscribers? && !i.DropExpired? && !i.DropTask?
    ensures var (sh', lo', _) := Effect(sh, lo, t, i); EffectOwns(sh, lo, t, sh', lo')
  {
    var (sh', lo', _) := Effect(sh, lo, t, i);
    assert sh'.owner == sh.owner && sh'.registered == sh.registered;
    assert forall id :: Listed(sh', id) == Listed(sh, id);
    assert Pending(lo') == Pending(lo) && lo'.made == lo.made;
  }

  // ---------------------------------------------------------------------------------------
  // The manager's Close and the cleanup goroutine

  /** What a sweep consists of: it waits for locks and for nothing else. */
  predicate Sweeping(i: Instr) {
    || i.AcquireRead? || i.AcquireWrite? || i.AwaitWrite? || i.Release? || i.Work?
    || i.DropExpired? || i.CloseNext? || i.CloseDone?
  }

  predicate AllSweeping(code: seq<Instr>) { forall k :: 0 <= k < |code| ==> Sweeping(code[k]) }

  /** The code of the caller inside the once: a sweep, perhaps after the wait for the cleanup
      goroutine, and the way out. */
  predicate InsideOnce(code: seq<Instr>) {
    && code != [] && code[|code| - 1] == LeaveOnce
    && BodyOk(code[..|code| - 1])
  }

  predicate BodyOk(body: seq<Instr>) {
    AllSweeping(if body != [] && body[0] == AwaitCleaner then body[1..] else body)
  }

  /** Nothing to do with the once. */
  predicate Ordinary(i: Instr) { !i.EnterOnce? && !i.AwaitCleaner? && !i.LeaveOnce? }

  predicate AllOrdinary(code: seq<Instr>) { forall k :: 0 <= k < |code| ==> Ordinary(code[k]) }

  predicate OutsideOnce(code: seq<Instr>) { AllOrdinary(code) || (|code| == 1 && code[0].EnterOnce?) }

  predicate IsCleaner(sh: Shared, t: ThreadId) { sh.cleaner.Cleaning? && sh.cleaner.t == t }

  predicate CodeOk(sh: Shared, t: ThreadId, code: seq<Instr>) {
    && (if sh.once == Running(t) then InsideOnce(code) && !IsCleaner(sh, t) else OutsideOnce(code))
    && (IsCleaner(sh, t) ==> AllSweeping(code))
    && (sh.cleaner == Exited(t) ==> code == [])
  }

  ghost predicate Stops(s: State) {
    && (forall t: ThreadId :: t < |s.threads| ==> CodeOk(s.shared, t, s.threads[t].code))
    && (s.shared.once.Running? ==> s.shared.once.t < |s.threads|)
    && (s.shared.cleaner.Cleaning? ==>
          s.shared.cleaner.t < |s.threads| && (!s.shared.once.NotCalled? ==> s.shared.cleaner.told))
  }

  lemma {:induction false} SweepIsSweeping(ids: seq<TaskId>)
    ensures AllSweeping(SweepCode(ids))
    decreases |ids|
  {
    if ids != [] {
      SweepIsSweeping(ids[1..]);
    }
  }

  lemma ConcatSweeping(a: seq<Instr>, b: seq<Instr>)
    ensures AllSweeping(a + b) <==> AllSweeping(a) && AllSweeping(b)
    ensures AllOrdinary(a + b) <==> AllOrdinary(a) && AllOrdinary(b)
  {
    assert forall k :: 0 <= k < |a| ==> a[k] == (a + b)[k];
    assert forall k :: 0 <= k < |b| ==> b[k] == (a + b)[|a| + k];
  }

  lemma SweepingIsOrdinary(code: seq<Instr>)
    requires AllSweeping(code)
    ensures AllOrdinary(code)
  {
  }

  lemma SweepAllIsSweeping(ids: seq<TaskId>)
    ensures AllSweeping(SweepAllCode(ids))
    ensures AllSweeping(SweepAllCode(ids) + Critical(ManagerMu, Work)) && AllSweeping(OpCode(CleanerTick(ids)))
  {
    SweepIsSweeping(ids);
    ConcatSweeping([AcquireWrite(TaskMu)], SweepCode(ids));
    ConcatSweeping([AcquireWrite(TaskMu)] + SweepCode(ids), [Release(TaskMu), CloseNext]);
    ConcatSweeping(SweepAllCode(ids), Critical(ManagerMu, Work));
    ConcatSweeping(Critical(ConversationMu, Work), SweepAllCode(ids) + Critical(ManagerMu, Work));
  }

  lemma OpOutsideOnce(op: Op)
    ensures OutsideOnce(OpCode(op))
    ensures op.CleanerTick? ==> AllSweeping(OpCode(op))
  {
    if op.CleanExpiredTasks? || op.CleanerTick? {
      SweepAllIsSweeping(op.ids);
      SweepingIsOrdinary(OpCode(op));
    }
  }

  lemma CallStops(s: State, t: ThreadId, op: Op)
    requires Stops(s) && Enabled(s, Call(t, op))
    ensures Stops(Apply(s, Call(t, op)))
  {
    var s' := Apply(s, Call(t, op));
    OpOutsideOnce(op);
    forall u: ThreadId | u < |s.threads| ensures CodeOk(s'.shared, u, s'.threads[u].code) {
      assert CodeOk(s.shared, u, s.threads[u].code);
    }
  }

  lemma ExitStops(s: State)
    requires Stops(s) && CleanerCanExit(s)
    ensures Stops(Apply(s, CleanerExits))
  {
    var s' := Apply(s, CleanerExits);
    forall u: ThreadId | u < |s.threads| ensures CodeOk(s'.shared, u, s'.threads[u].code) {
      assert CodeOk(s.shared, u, s.threads[u].code);
    }
  }

  /** What a step puts in the place of its instruction. */
  function Front(sh: Shared, lo: Local, t: ThreadId, i: Instr): seq<Instr> {
    if i.AcquireWrite? then [AwaitWrite(i.lock)] else Effect(sh, lo, t, i).2
  }

  lemma NextCode(s: State, t: ThreadId, o: Outcome)
    requires CanStep(s, t, o)
    ensures Step(s, t, o).threads[t].code
         == Front(s.shared, s.threads[t].local, t, s.threads[t].code[0]) + s.threads[t].code[1..]
  {
    assert [] + s.threads[t].code[1..] == s.threads[t].code[1..];
  }

  lemma FrontSweeps(sh: Shared, lo: Local, t: ThreadId, i: Instr)
    requires Sweeping(i)
    ensures AllSweeping(Front(sh, lo, t, i))
  {
  }

  lemma FrontIsOrdinary(sh: Shared, lo: Local, t: ThreadId, i: Instr)
    requires Ordinary(i)
    ensures AllOrdinary(Front(sh, lo, t, i))
  {
    forall k | 0 <= k < |Front(sh, lo, t, i)| ensures Ordinary(Front(sh, lo, t, i)[k]) {
      if GoesOn(i) {
        GoesOnIsOrdinary(sh, lo, t, i, k);
      } else {
        FrontIsOrdinaryAt(sh, lo, t, i, k);
      }
    }
  }

  lemma GoesOnIsOrdinary(sh: Shared, lo: Local, t: ThreadId, i: Instr, k: nat)
    requires GoesOn(i) && k < |Front(sh, lo, t, i)|
    ensures Ordinary(Front(sh, lo, t, i)[k])
  {
  }

  lemma FrontIsOrdinaryAt(sh: Shared, lo: Local, t: ThreadId, i: Instr, k: nat)
    requires Ordinary(i) && !GoesOn(i) && k < |Front(sh, lo, t, i)|
    ensures Ordinary(Front(sh, lo, t, i)[k])
  {
  }

  lemma OrdinaryGoesOn(sh: Shared, lo: Local, t: ThreadId, code: seq<Instr>)
    requires code != [] && AllOrdinary(code)
    ensures AllOrdinary(Front(sh, lo, t, code[0]) + code[1..])
    ensures AllSweeping(code) ==> AllSweeping(Front(sh, lo, t, code[0]) + code[1..])
  {
    FrontIsOrdinary(sh, lo, t, code[0]);
    ConcatSweeping(Front(sh, lo, t, code[0]), code[1..]);
    if AllSweeping(code) {
      FrontSweeps(sh, lo, t, code[0]);
    }
  }

  lemma InsideOf(body: seq<Instr>)
    ensures InsideOnce(body + [LeaveOnce]) <==> BodyOk(body)
  {
    assert (body + [LeaveOnce])[..|body|] == body;
  }

  lemma InsideGoesOn(sh: Shared, lo: Local, t: ThreadId, code: seq<Instr>)
    requires InsideOnce(code) && code[0] != LeaveOnce
    ensures InsideOnce(Front(sh, lo, t, code[0]) + code[1..])
  {
    var front, body := Front(sh, lo, t, code[0]), code[..|code| - 1];
    assert body[0] == code[0];
    assert front + code[1..] == (front + body[1..]) + [LeaveOnce];
    BodyGoesOn(sh, lo, t, body);
    InsideOf(front + body[1..]);
  }

  lemma BodyGoesOn(sh: Shared, lo: Local, t: ThreadId, body: seq<Instr>)
    requires body != [] && BodyOk(body)
    ensures BodyOk(Front(sh, lo, t, body[0]) + body[1..])
  {
    var front := Front(sh, lo, t, body[0]);
    if body[0] == AwaitCleaner {
      assert front + body[1..] == body[1..];
      SweepsOn(body[1..]);
    } else {
      FrontSweeps(sh, lo, t, body[0]);
      ConcatSweeping(front, body[1..]);
      SweepsOn(front + body[1..]);
    }
  }

  lemma SweepsOn(body: seq<Instr>)
    requires AllSweeping(body)
    ensures BodyOk(body)
  {
  }

  lemma EntryIsInside(ids: seq<TaskId>)
    ensures InsideOnce([AwaitCleaner] + SweepAllCode(ids) + [LeaveOnce])
  {
    SweepAllIsSweeping(ids);
    assert ([AwaitCleaner] + SweepAllCode(ids))[1..] == SweepAllCode(ids);
    InsideOf([AwaitCleaner] + SweepAllCode(ids));
  }

  /** The step of the thread itself. */
  lemma OwnCode(s: State, t: ThreadId, o: Outcome)
    requires Stops(s) && CanStep(s, t, o)
    ensures CodeOk(Step(s, t, o).shared, t, Step(s, t, o).threads[t].code)
  {
    var sh, lo, code := s.shared, s.threads[t].local, s.threads[t].code;
    assert CodeOk(sh, t, code);
    NextCode(s, t, o);
    StepStop(s, t, o);
    if code[0].EnterOnce? {
      EntryIsInside(code[0].ids);
      var entry := [AwaitCleaner] + SweepAllCode(code[0].ids) + [LeaveOnce];
      assert entry + [] == entry;
    } else if sh.once == Running(t) {
      if code[0] == LeaveOnce {
        LeavingIsLast(code);
      } else {
        InsideGoesOn(sh, lo, t, code);
      }
    } else {
      OrdinaryGoesOn(sh, lo, t, code);
    }
  }

  lemma InsideHead(code: seq<Instr>)
    requires InsideOnce(code) && |code| > 1
    ensures code[0] == AwaitCleaner || Sweeping(code[0])
  {
    assert code[..|code| - 1][0] == code[0];
  }

  lemma LeavingIsLast(code: seq<Instr>)
    requires InsideOnce(code) && code[0] == LeaveOnce
    ensures code[1..] == []
  {
    if |code| > 1 {
      InsideHead(code);
    }
  }

  /** How a step changes the once and the cleanup goroutine. */
  lemma StepStop(s: State, t: ThreadId, o: Outcome)
    requires CanStep(s, t, o)
    ensures var i := s.threads[t].code[0]; var sh' := Step(s, t, o).shared;
      && sh'.once == (if i.EnterOnce? && s.shared.once.NotCalled? then Running(t)
                      else if i.LeaveOnce? then Finished else s.shared.once)
      && sh'.cleaner == (if i.EnterOnce? && s.shared.once.NotCalled? then Told(s.shared.cleaner) else s.shared.cleaner)
  {
  }

  lemma StepStops(s: State, t: ThreadId, o: Outcome)
    requires Stops(s) && CanStep(s, t, o)
    ensures Stops(Step(s, t, o))
  {
    var s' := Step(s, t, o);
    OwnCode(s, t, o);
    StepStop(s, t, o);
    assert CodeOk(s.shared, t, s.threads[t].code);
    forall u: ThreadId | u < |s.threads| ensures CodeOk(s'.shared, u, s'.threads[u].code) {
      assert CodeOk(s.shared, u, s.threads[u].code);
    }
  }

  // ---------------------------------------------------------------------------------------
  // Every reachable state

  ghost predicate Owned(s: State) {
    && SharedOwns(s.shared)
    && (forall t :: 0 <= t < |s.threads| ==> LocalOwns(s.shared, s.threads[t].local, t))
    && (forall x: SubId, t: ThreadId ::
          OwnedBy(s.shared, x, Creating(t)) || OwnedBy(s.shared, x, Closing(t)) ==> t < |s.threads|)
  }

  ghost predicate Inv(s: State) {
    && s.capacity > 0
    && (forall t :: 0 <= t < |s.threads| ==> Disciplined(s.threads[t]))
    && (forall t :: 0 <= t < |s.threads| ==> AllAfterDone(s.shared, s.threads[t].code))
    && Exclusive(s)
    && Owned(s)
    && Stops(s)
  }

  /** Only queue lengths and done flags differ, as far as ownership goes. */
  lemma OwnedFrame(s: State, s': State)
    requires Owned(s) && |s'.threads| == |s.threads|
    requires s'.shared.owner == s.shared.owner && s'.shared.registered == s.shared.registered
    requires |s'.shared.subs| == |s.shared.subs|
    requires forall x :: 0 <= x < |s.shared.subs| ==> s'.shared.subs[x].closed == s.shared.subs[x].closed
    requires forall u :: 0 <= u < |s.threads| ==>
      Pending(s'.threads[u].local) == Pending(s.threads[u].local)
      && s'.threads[u].local.made == s.threads[u].local.made
    ensures Owned(s')
  {
    assert forall id :: Listed(s'.shared, id) == Listed(s.shared, id);
    assert forall x: SubId, o: Owner :: OwnedBy(s'.shared, x, o) == OwnedBy(s.shared, x, o);
    forall u | 0 <= u < |s.threads| ensures LocalOwns(s'.shared, s'.threads[u].local, u) {
      assert LocalOwns(s.shared, s.threads[u].local, u);
    }
  }

  lemma StepOwned(s: State, t: ThreadId, o: Outcome)
    requires CanStep(s, t, o) && Owned(s) && Disciplined(s.threads[t])
    ensures Owned(Step(s, t, o))
  {
    var th, s' := s.threads[t], Step(s, t, o);
    var i := th.code[0];
    assert After(ShapeOf(th), i).Some?;
    if Plain(i) {
      OwnedFrame(s, s');
    } else {
      EffectOwnership(s.shared, th.local, t, i);
      MoveOwned(s, t, s');
    }
  }

  lemma MoveOwned(s: State, t: ThreadId, s': State)
    requires Owned(s) && t < |s.threads| == |s'.threads|
    requires EffectOwns(s.shared, s.threads[t].local, t, s'.shared, s'.threads[t].local)
    requires forall u :: 0 <= u < |s.threads| && u != t ==> s'.threads[u] == s.threads[u]
    ensures Owned(s')
  {
    forall u | 0 <= u < |s.threads| ensures LocalOwns(s'.shared, s'.threads[u].local, u) {
      assert LocalOwns(s.shared, s.threads[u].local, u);
    }
    forall x: SubId, u: ThreadId | OwnedBy(s'.shared, x, Creating(u)) || OwnedBy(s'.shared, x, Closing(u))
      ensures u < |s.threads|
    {
      assert u != t ==> OwnedBy(s.shared, x, Creating(u)) || OwnedBy(s.shared, x, Closing(u));
    }
  }

  lemma ActionInv(s: State, a: Action)
    requires Inv(s) && Enabled(s, a)
    ensures Inv(Apply(s, a))
  {
    match a
    case Go(t, o) => GoInv(s, t, o);
    case Call(t, op) => CallInv(s, t, op);
    case Consume(x) => ConsumeInv(s, x);
    case CleanerExits => ExitInv(s);
  }

  lemma ExitInv(s: State)
    requires Inv(s) && CleanerCanExit(s)
    ensures Inv(Apply(s, CleanerExits))
  {
    var s' := Apply(s, CleanerExits);
    OwnedFrame(s, s');
    forall t | 0 <= t < |s.threads| ensures AllAfterDone(s'.shared, s.threads[t].code) {
      assert AllAfterDone(s.shared, s.threads[t].code);
    }
    ExitStops(s);
  }

  lemma GoInv(s: State, t: ThreadId, o: Outcome)
    requires Inv(s) && CanStep(s, t, o)
    ensures Inv(Step(s, t, o))
  {
    StepDisciplined(s, t, o);
    StepAfterDone(s, t, o);
    StepExclusive(s, t, o);
    StepOwned(s, t, o);
    StepStops(s, t, o);
  }

  lemma ConsumeInv(s: State, x: SubId)
    requires Inv(s) && Enabled(s, Consume(x))
    ensures Inv(Apply(s, Consume(x)))
  {
    var s' := Apply(s, Consume(x));
    OwnedFrame(s, s');
    forall t | 0 <= t < |s.threads| ensures AllAfterDone(s'.shared, s.threads[t].code) {
      assert AllAfterDone(s.shared, s.threads[t].code);
    }
  }

  lemma CallInv(s: State, t: ThreadId, op: Op)
    requires Inv(s) && Enabled(s, Call(t, op))
    ensures Inv(Apply(s, Call(t, op)))
  {
    OpShape(op);
    OpAfterDone(s.shared, op);
    assert ShapeOf(s.threads[t]) == AT_REST by { assert Disciplined(s.threads[t]); }
    var s' := Apply(s, Call(t, op));
    assert ShapeOf(s'.threads[t]) == AT_REST;
    CallStops(s, t, op);
  }

  lemma {:induction false} RunInv(s: State, acts: seq<Action>)
    requires Inv(s) && Legal(s, acts)
    ensures Inv(Run(s, acts))
    decreases |acts|
  {
    if acts != [] {
      ActionInv(s, acts[0]);
      RunInv(Apply(s, acts[0]), acts[1..]);
    }
  }

  lemma InitialInv(s: State)
    requires Initial(s)
    ensures Inv(s)
  {
    forall t | 0 <= t < |s.threads| ensures Disciplined(s.threads[t]) {
      assert ShapeOf(s.threads[t]) == AT_REST;
    }
  }

  /** The three places where a subscriber can be kept. */
  ghost function BeingCreated(s: State, x: SubId): set<ThreadId> {
    set t | 0 <= t < |s.threads| && s.threads[t].local.made == Some(x)
  }

  ghost function RegisteredUnder(s: State, x: SubId): set<TaskId> {
    set id | id in s.shared.registered && x in s.shared.registered[id]
  }

  ghost function AboutToClose(s: State, x: SubId): set<ThreadId> {
    set t | 0 <= t < |s.threads| && x in Pending(s.threads[t].local)
  }

  /** In every reachable state an open subscriber is in exactly one of the three places, once;
      and the calls that still create or will close it are running. */
  lemma OpenSubscribersHaveOneOwner(s0: State, acts: seq<Action>, x: SubId)
    requires Initial(s0) && Legal(s0, acts)
    requires x < |Run(s0, acts).shared.subs| && !Run(s0, acts).shared.subs[x].closed
    ensures var s := Run(s0, acts);
      && |BeingCreated(s, x)| + |RegisteredUnder(s, x)| + |AboutToClose(s, x)| == 1
      && (forall id :: id in s.shared.registered ==> Distinct(s.shared.registered[id]))
      && (forall t :: 0 <= t < |s.threads| ==> Distinct(Pending(s.threads[t].local)))
      && (forall t :: t in BeingCreated(s, x) + AboutToClose(s, x) ==> s.threads[t].code != [])
  {
    InitialInv(s0);
    RunInv(s0, acts);
    OneOwner(Run(s0, acts), x);
  }

  lemma OnlyTheCreator(s: State, x: SubId)
    requires Inv(s) && x < |s.shared.subs|
    ensures BeingCreated(s, x) == if s.shared.owner[x].Creating? then {s.shared.owner[x].t} else {}
  {
    var owner := s.shared.owner[x];
    assert owner.Creating? ==> OwnedBy(s.shared, x, Creating(owner.t));
    assert forall t :: 0 <= t < |s.threads| ==> LocalOwns(s.shared, s.threads[t].local, t);
  }

  lemma OnlyTheCloser(s: State, x: SubId)
    requires Inv(s) && x < |s.shared.subs|
    ensures AboutToClose(s, x) == if s.shared.owner[x].Closing? then {s.shared.owner[x].t} else {}
  {
    var owner := s.shared.owner[x];
    assert owner.Closing? ==> OwnedBy(s.shared, x, Closing(owner.t));
    assert forall t :: 0 <= t < |s.threads| ==> LocalOwns(s.shared, s.threads[t].local, t);
  }

  lemma OnlyTheList(s: State, x: SubId)
    requires Inv(s) && x < |s.shared.subs|
    ensures RegisteredUnder(s, x) == if s.shared.owner[x].Registered? then {s.shared.owner[x].id} else {}
  {
    assert forall id :: id in s.shared.registered ==> Listed(s.shared, id) == s.shared.registered[id];
    assert forall id :: x in Listed(s.shared, id) <==> OwnedBy(s.shared, x, Registered(id));
  }

  lemma ListsAreDistinct(s: State)
    requires Inv(s)
    ensures forall id :: id in s.shared.registered ==> Distinct(s.shared.registered[id])
    ensures forall t :: 0 <= t < |s.threads| ==> Distinct(Pending(s.threads[t].local))
  {
    assert forall id :: id in s.shared.registered ==> Listed(s.shared, id) == s.shared.registered[id];
    assert forall t :: 0 <= t < |s.threads| ==> LocalOwns(s.shared, s.threads[t].local, t);
  }

  lemma OneOwner(s: State, x: SubId)
    requires Inv(s) && x < |s.shared.subs| && !s.shared.subs[x].closed
    ensures |BeingCreated(s, x)| + |RegisteredUnder(s, x)| + |AboutToClose(s, x)| == 1
    ensures forall id :: id in s.shared.registered ==> Distinct(s.shared.registered[id])
    ensures forall t :: 0 <= t < |s.threads| ==> Distinct(Pending(s.threads[t].local))
    ensures forall t :: t in BeingCreated(s, x) + AboutToClose(s, x) ==> s.threads[t].code != []
  {
    OnlyTheCreator(s, x);
    OnlyTheCloser(s, x);
    OnlyTheList(s, x);
    ListsAreDistinct(s);
    forall t | t in BeingCreated(s, x) + AboutToClose(s, x) ensures s.threads[t].code != [] {
      assert Disciplined(s.threads[t]);
    }
  }

  // ---------------------------------------------------------------------------------------
  // Deadlock

  predicate ManagerLock(l: Lock) { l == TaskMu || l == ConversationMu || l == ManagerMu }

  /** The thread is at an acquisition of `l`. */
  predicate Wants(th: Thread, l: Lock) {
    th.At(AcquireRead(l)) || th.At(AcquireWrite(l)) || th.At(AwaitWrite(l))
  }

  /** A thread that holds the task lock, the conversation lock or the manager lock waits for
      nothing: no lock, and no room in a queue. */
  lemma HoldersOfManagerLocksMove(s: State, t: ThreadId, l: Lock)
    requires Inv(s) && t < |s.threads| && s.threads[t].Holds(l) && ManagerLock(l)
    ensures CanMove(s, t)
    ensures forall l' :: !Wants(s.threads[t], l')
    ensures s.threads[t].code != [] && !s.threads[t].code[0].Enqueue?
  {
    var th := s.threads[t];
    assert Disciplined(th);
    assert th.code != [];
    assert After(ShapeOf(th), th.code[0]).Some?;
  }

  /** Whoever wants one of these locks can go on itself, or a holder or the announced writer can. */
  lemma WaitersHaveAMover(s: State, t: ThreadId, l: Lock) returns (u: ThreadId)
    requires Inv(s) && t < |s.threads| && Wants(s.threads[t], l) && ManagerLock(l)
    ensures u < |s.threads| && CanMove(s, u)
    ensures u == t || s.threads[u].Holds(l) || s.threads[u].At(AwaitWrite(l))
  {
    u := t;
    if !CanMove(s, t) {
      if !s.threads[t].At(AwaitWrite(l)) {
        assert !NoWriter(s, l) by { assert !CanStep(s, t, Sent); }
        u :| 0 <= u < |s.threads| && (l in s.threads[u].writeLocks || s.threads[u].At(AwaitWrite(l)));
      }
      if s.threads[u].At(AwaitWrite(l)) && !CanMove(s, u) {
        assert !Free(s, l) by { assert !CanStep(s, u, Sent); }
        u :| 0 <= u < |s.threads| && s.threads[u].Holds(l);
      }
      if s.threads[u].Holds(l) {
        HoldersOfManagerLocksMove(s, u, l);
      }
    }
  }

  /** No thread can move, and the cleanup goroutine cannot exit. */
  ghost predicate Stuck(s: State) {
    !CleanerCanExit(s) && forall t :: 0 <= t < |s.threads| ==> !CanMove(s, t)
  }

  predicate WaitsForRoom(s: State, t: ThreadId) {
    && t < |s.threads| && s.threads[t].code != [] && s.threads[t].code[0].Enqueue?
    && var sub := Get(s.shared, s.threads[t].code[0].sub);
       s.blocking && !sub.done && sub.queued >= s.capacity
  }

  lemma StuckHolders(s: State, t: ThreadId, sub: SubId)
    requires Inv(s) && Stuck(s) && t < |s.threads| && s.threads[t].Holds(SubscriberMu(sub))
    ensures WaitsForRoom(s, t) && s.threads[t].At(Enqueue(sub)) && s.threads[t].writeLocks == {}
  {
    var th := s.threads[t];
    assert Disciplined(th);
    assert th.code != [];
    assert After(ShapeOf(th), th.code[0]).Some?;
    assert !CanMove(s, t);
    if Wants(th, ConversationMu) {
      var u := WaitersHaveAMover(s, t, ConversationMu);
    }
  }

  /** A closer never gets stuck: done is closed before it asks for the lock. */
  lemma StuckWriters(s: State, t: ThreadId, sub: SubId)
    requires Inv(s) && Stuck(s) && t < |s.threads|
    ensures !s.threads[t].At(AwaitWrite(SubscriberMu(sub)))
  {
    if s.threads[t].At(AwaitWrite(SubscriberMu(sub))) {
      assert !CanMove(s, t);
      assert !Free(s, SubscriberMu(sub)) by { assert !CanStep(s, t, Sent); }
      var u :| 0 <= u < |s.threads| && s.threads[u].Holds(SubscriberMu(sub));
      assert AllAfterDone(s.shared, s.threads[t].code) && AfterDone(s.shared, s.threads[t].code[0]);
      StuckHolders(s, u, sub);
    }
  }

  /** When nothing can move, every unfinished call waits for room in a full queue of a
      subscriber that is not being closed, in blocking mode: there is no other deadlock. */
  lemma OnlyFullQueuesBlock(s0: State, acts: seq<Action>)
    requires Initial(s0) && Legal(s0, acts) && Stuck(Run(s0, acts))
    ensures var s := Run(s0, acts);
      forall t :: 0 <= t < |s.threads| ==> s.threads[t].code == [] || WaitsForRoom(s, t)
  {
    InitialInv(s0);
    RunInv(s0, acts);
    var s := Run(s0, acts);
    forall t | 0 <= t < |s.threads| && s.threads[t].code != [] ensures WaitsForRoom(s, t) {
      StuckThread(s, t);
    }
  }

  /** A thread that waits neither for the once nor for the cleanup goroutine. */
  lemma StuckOrdinary(s: State, t: ThreadId)
    requires Inv(s) && Stuck(s) && t < |s.threads| && s.threads[t].code != []
    requires !s.threads[t].code[0].EnterOnce? && !s.threads[t].code[0].AwaitCleaner?
    ensures WaitsForRoom(s, t)
  {
    var i := s.threads[t].code[0];
    assert !CanMove(s, t);
    if i.AcquireRead? || i.AcquireWrite? || i.AwaitWrite? {
      if ManagerLock(i.lock) {
        var u := WaitersHaveAMover(s, t, i.lock);
      } else {
        StuckWriters(s, t, i.lock.sub);
        assert !NoWriter(s, i.lock);
        var u :| 0 <= u < |s.threads| && (i.lock in s.threads[u].writeLocks || s.threads[u].At(AwaitWrite(i.lock)));
        StuckWriters(s, u, i.lock.sub);
        StuckHolders(s, u, i.lock.sub);
      }
    }
  }

  /** The cleanup goroutine, once told, exits. */
  lemma CleanerIsNotStuck(s: State)
    requires Inv(s) && Stuck(s)
    ensures s.shared.cleaner.Cleaning? ==> !s.shared.cleaner.told
  {
    if s.shared.cleaner.Cleaning? && s.shared.cleaner.told {
      var u := s.shared.cleaner.t;
      assert CodeOk(s.shared, u, s.threads[u].code);
      assert s.threads[u].code != [] && Sweeping(s.threads[u].code[0]);
      StuckOrdinary(s, u);
    }
  }

  /** So does whoever is inside the once. */
  lemma OnceIsNotStuck(s: State)
    requires Inv(s) && Stuck(s)
    ensures !s.shared.once.Running?
  {
    if s.shared.once.Running? {
      var u := s.shared.once.t;
      var code := s.threads[u].code;
      assert CodeOk(s.shared, u, code) && !CanMove(s, u);
      CleanerIsNotStuck(s);
      if |code| > 1 {
        InsideHead(code);
      }
      if !code[0].AwaitCleaner? {
        StuckOrdinary(s, u);
      }
    }
  }

  lemma StuckThread(s: State, t: ThreadId)
    requires Inv(s) && Stuck(s) && t < |s.threads| && s.threads[t].code != []
    ensures WaitsForRoom(s, t)
  {
    OnceIsNotStuck(s);
    assert !CanMove(s, t) && CodeOk(s.shared, t, s.threads[t].code);
    if !s.threads[t].code[0].EnterOnce? && !s.threads[t].code[0].AwaitCleaner? {
      StuckOrdinary(s, t);
    }
  }

  // ---------------------------------------------------------------------------------------
  // Which locks an operation takes

  predicate Asks(i: Instr) { i.AcquireRead? || i.AcquireWrite? }

  lemma {:induction false} SweepsOnlyDrop(ids: seq<TaskId>, i: Instr)
    requires i in SweepCode(ids)
    ensures i.DropExpired?
    decreases |ids|
  {
    if i != SweepCode(ids)[0] {
      SweepsOnlyDrop(ids[1..], i);
    }
  }

  lemma SweepAsks(ids: seq<TaskId>, i: Instr)
    requires Asks(i)
    ensures i in SweepAllCode(ids) <==> i == AcquireWrite(TaskMu)
  {
    assert SweepAllCode(ids)[0] == AcquireWrite(TaskMu);
    if i in SweepCode(ids) {
      SweepsOnlyDrop(ids, i);
    }
  }

  /** The locks each call asks for before anything depends on what it finds.  A build, an update, a
      resubscription and the removals write under the task lock; messages are stored under the
      conversation lock, configurations under the manager's; looking for a task only reads. */
  lemma CallsAsk(op: Op, i: Instr)
    requires Asks(i)
    ensures i in OpCode(op) <==> match op
      case SubscribeTask(_) => i == AcquireRead(TaskMu)
      case OnGetTask(_) => i == AcquireRead(TaskMu) || i == AcquireRead(ConversationMu)
      case CleanExpiredTasks(_) => i == AcquireWrite(TaskMu) || i == AcquireWrite(ManagerMu)
      case CleanerTick(_) =>
        i == AcquireWrite(ConversationMu) || i == AcquireWrite(TaskMu) || i == AcquireWrite(ManagerMu)
      case StoreMessage => i == AcquireWrite(ConversationMu)
      case ReadHistory => i == AcquireRead(ConversationMu)
      case PushConfig => i == AcquireWrite(ManagerMu)
      case ManagerClose(_) => false
      case Send(_, _) => false
      case Close(_) => false
      case _ => i == AcquireWrite(TaskMu)
  {
    match op {
      case CleanExpiredTasks(ids) => SweepAsks(ids, i);
      case CleanerTick(ids) => SweepAsks(ids, i);
      case _ =>
    }
  }

  /** A close that won asks for the subscriber's write lock after it has closed done, and so returns
      only when no send holds the read lock; a send holds that lock from its second check on. */
  lemma ClosesWaitForSends(s: State, t: ThreadId, x: SubId, stores: bool, o: Outcome)
    requires CanStep(s, t, o)
    ensures s.threads[t].At(CloseDone(x)) ==> Step(s, t, o).threads[t].At(AcquireWrite(SubscriberMu(x)))
    ensures s.threads[t].At(AcquireWrite(SubscriberMu(x))) ==> Step(s, t, o).threads[t].At(AwaitWrite(SubscriberMu(x)))
    ensures s.threads[t].At(AwaitWrite(SubscriberMu(x))) ==>
      forall u :: 0 <= u < |s.threads| ==> SubscriberMu(x) !in s.threads[u].readLocks
    ensures s.threads[t].At(SendCheck(x, stores)) && !Get(s.shared, x).closed ==>
      Step(s, t, o).threads[t].At(AcquireRead(SubscriberMu(x)))
  {
  }

  // ---------------------------------------------------------------------------------------
  // Nobody overtakes

  /** While a writer waits for a lock, nobody else gets to hold it. */
  lemma WaitingWritersAreNotOvertaken(s: State, t: ThreadId, o: Outcome, u: ThreadId, l: Lock)
    requires CanStep(s, t, o) && u < |s.threads| && u != t && s.threads[u].At(AwaitWrite(l))
    requires !s.threads[t].At(AwaitWrite(l))
    ensures Step(s, t, o).threads[t].Holds(l) ==> s.threads[t].Holds(l)
  {
  }

  /** Once the caller inside the once is past its wait, and for ever after it has left, there is no
      running cleanup goroutine. */
  ghost predicate CleanerStopped(s: State) {
    && (s.shared.once.Finished? ==> !s.shared.cleaner.Cleaning?)
    && (s.shared.once.Running? && s.shared.once.t < |s.threads| && !s.threads[s.shared.once.t].At(AwaitCleaner) ==>
          !s.shared.cleaner.Cleaning?)
  }

  lemma CleanerStoppedStep(s: State, a: Action)
    requires Inv(s) && CleanerStopped(s) && Enabled(s, a)
    ensures CleanerStopped(Apply(s, a))
  {
    match a {
      case Go(t, o) => CleanerStoppedGo(s, t, o);
      case Call(t, op) => assert CodeOk(s.shared, t, s.threads[t].code);
      case _ =>
    }
  }

  lemma CleanerStoppedGo(s: State, t: ThreadId, o: Outcome)
    requires Inv(s) && CleanerStopped(s) && CanStep(s, t, o)
    ensures CleanerStopped(Step(s, t, o))
  {
    var i := s.threads[t].code[0];
    assert CodeOk(s.shared, t, s.threads[t].code);
    OnceOnlyMovesBy(s, t, o);
    if i.EnterOnce? && s.shared.once.NotCalled? {
      assert Step(s, t, o).threads[t].code[0] == AwaitCleaner;
    }
  }

  lemma OnceOnlyMovesBy(s: State, t: ThreadId, o: Outcome)
    requires CanStep(s, t, o)
    ensures var i, s' := s.threads[t].code[0], Step(s, t, o);
      && s'.shared.once == (if i.EnterOnce? && s.shared.once.NotCalled? then Running(t)
                            else if i.LeaveOnce? then Finished else s.shared.once)
      && (s'.shared.cleaner.Cleaning? <==> s.shared.cleaner.Cleaning?)
  {
  }

  lemma {:induction false} StaysStopped(s: State, acts: seq<Action>)
    requires Inv(s) && CleanerStopped(s) && Legal(s, acts)
    ensures CleanerStopped(Run(s, acts))
    decreases |acts|
  {
    if acts != [] {
      CleanerStoppedStep(s, acts[0]);
      ActionInv(s, acts[0]);
      StaysStopped(Apply(s, acts[0]), acts[1..]);
    }
  }

  /** A call of the manager's Close gets past its once only by running it, or when it has finished;
      and then the cleanup goroutine has exited. */
  lemma CloseWaitsForTheCleaner(s0: State, acts: seq<Action>, t: ThreadId, o: Outcome)
    requires Initial(s0) && Legal(s0, acts) && CanStep(Run(s0, acts), t, o)
    ensures var s := Run(s0, acts); var i := s.threads[t].code[0];
      && (i.EnterOnce? ==> s.shared.once.NotCalled? || (s.shared.once.Finished? && !s.shared.cleaner.Cleaning?))
      && (i.AwaitCleaner? ==> !s.shared.cleaner.Cleaning?)
      && (i.LeaveOnce? ==> !s.shared.cleaner.Cleaning?)
  {
    InitialInv(s0);
    StaysStopped(s0, acts);
    RunInv(s0, acts);
    var s := Run(s0, acts);
    assert CodeOk(s.shared, t, s.threads[t].code);
  }

  /** Before Close is called nobody tells the cleanup goroutine to stop, and it does not exit. */
  ghost predicate RunsUntilClose(s: State) {
    s.shared.once.NotCalled? ==> !s.shared.cleaner.Exited? && (s.shared.cleaner.Cleaning? ==> !s.shared.cleaner.told)
  }

  lemma RunsUntilCloseStep(s: State, a: Action)
    requires RunsUntilClose(s) && Enabled(s, a)
    ensures RunsUntilClose(Apply(s, a))
  {
    if a.Go? {
      OnceOnlyMovesBy(s, a.t, a.o);
    }
  }

  /** The cleanup goroutine goes on until the manager is closed. */
  lemma {:induction false} CleanerRunsUntilClose(s: State, acts: seq<Action>)
    requires RunsUntilClose(s) && Legal(s, acts)
    ensures RunsUntilClose(Run(s, acts))
    decreases |acts|
  {
    if acts != [] {
      RunsUntilCloseStep(s, acts[0]);
      CleanerRunsUntilClose(Apply(s, acts[0]), acts[1..]);
    }
  }
}
