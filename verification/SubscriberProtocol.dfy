/**
 The protocol between the senders, the closers and the consumer of one task subscriber,
 as a step machine.  Every thread has a program counter; a step is one access to the shared
 state.  The read and write holders of the lock are read off the program counters.  A writer
 that has asked for the lock keeps new readers out, as Go's RWMutex does.
 */
module SubscriberProtocol {
  import opened Wrappers

  type ThreadId = nat

  datatype Pc<+E> =
    | Idle
    | SendCheck(event: E)               // about to read the flag, no lock held
    | SendRLock(event: E)               // read the flag as clear, asks for the read lock
    | SendRecheck(event: E)             // holds the read lock, about to read the flag again
    | SendHook(event: E)                // holds the read lock, about to run the hook
    | SendSelect(event: E)              // holds the read lock, at the select
    | SendRUnlock(event: E, ok: bool)   // holds the read lock, about to release and return
    | CloseSwap                         // about to compare-and-swap the flag
    | CloseDone                         // won the swap, about to close done
    | CloseLock                         // about to ask for the write lock
    | CloseWait                         // asked for the write lock, waits for the readers
    | CloseQueue                        // holds the write lock, about to close the queue
    | CloseUnlock                       // holds the write lock, about to release it
    | Panicked                          // sent on, or closed, a closed channel
  {
    predicate HoldsRead() { SendRecheck? || SendHook? || SendSelect? || SendRUnlock? }
    predicate HoldsWrite() { CloseQueue? || CloseUnlock? }
    predicate WantsWrite() { CloseWait? || HoldsWrite() }
    predicate Closing() { CloseDone? || CloseLock? || WantsWrite() }

    /** The steps a send that passed its first check can still take. */
    function Remaining(): nat {
      match this
      case SendRLock(_) => 5
      case SendRecheck(_) => 4
      case SendHook(_) => 3
      case SendSelect(_) => 2
      case SendRUnlock(_, _) => 1
      case _ => 0
    }
  }

  /** `accepted`, `returned` and `winner` are history: what was enqueued and by whom, the
      events for which each thread's Send returned nil, and who won the swap. */
  datatype State<+E> = State(
    capacity: nat,
    blocking: bool,
    closed: bool,
    done: bool,
    queueClosed: bool,
    queue: seq<E>,
    received: seq<E>,
    threads: seq<Pc<E>>,
    accepted: seq<(ThreadId, E)>,
    returned: seq<seq<E>>,
    winner: Option<ThreadId>)
  {
    predicate Room() { |queue| < capacity }

    predicate WriterIdle() { forall u :: 0 <= u < |threads| ==> !threads[u].WantsWrite() }

    predicate ReadersGone() { forall u :: 0 <= u < |threads| ==> !threads[u].HoldsRead() }
  }

  /** What can happen next.  The three Select actions and the two Hook actions are the
      outcomes of one statement each. */
  datatype Action<+E> =
    | CallSend(t: ThreadId, event: E)
    | CallClose(t: ThreadId)
    | Step(t: ThreadId)
    | HookFails(t: ThreadId)
    | SelectSend(t: ThreadId)
    | SelectDone(t: ThreadId)
    | SelectDefault(t: ThreadId)
    | Receive

  predicate Enabled<E>(s: State<E>, a: Action<E>) {
    if a.Receive? then |s.queue| > 0
    else
      && a.t < |s.threads| == |s.returned|
      && var pc := s.threads[a.t];
         match a
         case CallSend(_, _) => pc.Idle?
         case CallClose(_) => pc.Idle?
         case HookFails(_) => pc.SendHook?
         case SelectSend(_) => pc.SendSelect? && (s.queueClosed || s.Room())
         case SelectDone(_) => pc.SendSelect? && s.done
         case SelectDefault(_) =>
           pc.SendSelect? && !s.blocking && !s.queueClosed && !s.Room() && !s.done
         case Step(_) =>
           match pc
           case SendRLock(_) => s.WriterIdle()
           case CloseLock => s.WriterIdle()
           case CloseWait => s.ReadersGone()
           case Idle => false
           case SendSelect(_) => false
           case Panicked => false
           case _ => true
  }

  /** Where the acting thread goes. */
  function NextPc<E>(s: State<E>, a: Action<E>): Pc<E>
    requires Enabled(s, a) && !a.Receive?
  {
    var pc := s.threads[a.t];
    match a
    case CallSend(_, e) => SendCheck(e)
    case CallClose(_) => CloseSwap
    case HookFails(_) => SendRUnlock(pc.event, false)
    case SelectSend(_) => if s.queueClosed then Panicked else SendRUnlock(pc.event, true)
    case SelectDone(_) => SendRUnlock(pc.event, false)
    case SelectDefault(_) => SendRUnlock(pc.event, false)
    case Step(_) =>
      match pc
      case SendCheck(e) => if s.closed then Idle else SendRLock(e)
      case SendRLock(e) => SendRecheck(e)
      case SendRecheck(e) => if s.closed then SendRUnlock(e, false) else SendHook(e)
      case SendHook(e) => SendSelect(e)
      case SendRUnlock(_, _) => Idle
      case CloseSwap => if s.closed then Idle else CloseDone
      case CloseDone => if s.done then Panicked else CloseLock
      case CloseLock => CloseWait
      case CloseWait => CloseQueue
      case CloseQueue => if s.queueClosed then Panicked else CloseUnlock
      case CloseUnlock => Idle
  }

  function Apply<E>(s: State<E>, a: Action<E>): State<E>
    requires Enabled(s, a)
  {
    if a.Receive? then
      s.(queue := s.queue[1..], received := s.received + [s.queue[0]])
    else
      var pc := s.threads[a.t];
      var sent := if a.SelectSend? && !s.queueClosed then [pc.event] else [];
      s.(threads := s.threads[a.t := NextPc(s, a)],
         closed := s.closed || pc.CloseSwap?,
         winner := if pc.CloseSwap? && !s.closed then Some(a.t) else s.winner,
         done := s.done || pc.CloseDone?,
         queueClosed := s.queueClosed || pc.CloseQueue?,
         queue := s.queue + sent,
         accepted := s.accepted + (if sent == [] then [] else [(a.t, pc.event)]),
         returned := s.returned[a.t := s.returned[a.t] + if a.Step? then Unreported(pc) else []])
  }

  /** What a thread has enqueued but not yet reported. */
  function Unreported<E>(pc: Pc<E>): seq<E> {
    if pc.SendRUnlock? && pc.ok then [pc.event] else []
  }

  ghost predicate Initial<E>(s: State<E>) {
    && s.capacity > 0 && !s.closed && !s.done && !s.queueClosed
    && s.queue == [] && s.received == [] && s.accepted == [] && s.winner.None?
    && |s.threads| == |s.returned|
    && forall t :: 0 <= t < |s.threads| ==> s.threads[t] == Idle && s.returned[t] == []
  }

  /** A run: each action is enabled in the state the previous ones lead to. */
  ghost predicate Legal<E>(s: State<E>, acts: seq<Action<E>>)
    decreases |acts|
  {
    acts == [] || (Enabled(s, acts[0]) && Legal(Apply(s, acts[0]), acts[1..]))
  }

  ghost function Run<E>(s: State<E>, acts: seq<Action<E>>): State<E>
    requires Legal(s, acts)
    decreases |acts|
  {
    if acts == [] then s else Run(Apply(s, acts[0]), acts[1..])
  }

  /** The events of the log, in order, and those one thread put there, in order. */
  function Events<E>(log: seq<(ThreadId, E)>): seq<E> {
    if log == [] then [] else Events(log[..|log| - 1]) + [log[|log| - 1].1]
  }

  function EventsOf<E>(log: seq<(ThreadId, E)>, t: ThreadId): seq<E> {
    if log == [] then []
    else EventsOf(log[..|log| - 1], t) + (if log[|log| - 1].0 == t then [log[|log| - 1].1] else [])
  }

  lemma LogGrows<E>(log: seq<(ThreadId, E)>, t: ThreadId, e: E)
    ensures Events(log + [(t, e)]) == Events(log) + [e]
    ensures forall u :: EventsOf(log + [(t, e)], u) == EventsOf(log, u) + (if u == t then [e] else [])
  {
    assert (log + [(t, e)])[..|log|] == log;
  }

  /** No channel is closed twice and nothing is sent on a closed queue. */
  ghost predicate ChannelsSafe<E>(s: State<E>) {
    && (s.queueClosed ==> s.done) && (s.done ==> s.closed)
    && forall t :: 0 <= t < |s.threads| ==>
         && !s.threads[t].Panicked?
         && (s.threads[t].SendHook? || s.threads[t].SendSelect? ==> !s.queueClosed)
         && (s.threads[t].CloseDone? ==> !s.done)
         && (s.threads[t].CloseQueue? ==> !s.queueClosed)
  }

  /** The lock excludes a writer from all other holders. */
  ghost predicate LockExcludes<E>(s: State<E>) {
    forall t, u :: 0 <= t < |s.threads| && 0 <= u < |s.threads| && s.threads[t].HoldsWrite() ==>
      !s.threads[u].HoldsRead() && (s.threads[u].HoldsWrite() ==> t == u)
  }

  /** The consumer sees exactly what was enqueued, in order, and the queue never overflows. */
  ghost predicate Fifo<E>(s: State<E>) {
    && |s.queue| <= s.capacity
    && s.received + s.queue == Events(s.accepted)
  }

  /** Each thread's own enqueued events are those whose Send returned nil, in call order, and
      the one it is about to report. */
  ghost predicate SendersTold<E>(s: State<E>) {
    && |s.threads| == |s.returned|
    && forall t :: 0 <= t < |s.threads| ==>
         s.returned[t] + Unreported(s.threads[t]) == EventsOf(s.accepted, t)
  }

  /** The claims about every reachable state. */
  ghost predicate Safe<E>(s: State<E>) { ChannelsSafe(s) && LockExcludes(s) && Fifo(s) && SendersTold(s) }

  /** Who is closing and how far that has come. */
  ghost predicate CloserOk<E>(s: State<E>) {
    && (s.closed <==> s.winner.Some?)
    && (forall t :: 0 <= t < |s.threads| && s.threads[t].Closing() ==> s.winner == Some(t))
    && (s.winner.Some? ==>
          && s.winner.value < |s.threads|
          && var pc := s.threads[s.winner.value];
             && (!s.done <==> pc.CloseDone?)
             && (s.done && !s.queueClosed <==> pc.CloseLock? || pc.CloseWait? || pc.CloseQueue?)
             && (pc.CloseUnlock? ==> s.queueClosed))
  }

  ghost predicate Inv<E>(s: State<E>) { Safe(s) && CloserOk(s) }

  lemma InitialInv<E>(s: State<E>)
    requires Initial(s)
    ensures Inv(s)
  {
  }

  lemma CloserStep<E>(s: State<E>, a: Action<E>)
    requires ChannelsSafe(s) && CloserOk(s) && Enabled(s, a)
    ensures CloserOk(Apply(s, a))
  {
  }

  lemma ChannelsStep<E>(s: State<E>, a: Action<E>)
    requires ChannelsSafe(s) && LockExcludes(s) && CloserOk(s) && Enabled(s, a)
    ensures ChannelsSafe(Apply(s, a))
  {
  }

  lemma LockStep<E>(s: State<E>, a: Action<E>)
    requires LockExcludes(s) && CloserOk(s) && Enabled(s, a)
    ensures LockExcludes(Apply(s, a))
  {
  }

  lemma FifoStep<E>(s: State<E>, a: Action<E>)
    requires Fifo(s) && ChannelsSafe(s) && Enabled(s, a)
    ensures Fifo(Apply(s, a))
  {
    var s' := Apply(s, a);
    if a.Receive? {
      assert s'.received + s'.queue == s.received + s.queue;
    } else if a.SelectSend? {
      var e := s.threads[a.t].event;
      LogGrows(s.accepted, a.t, e);
      assert s'.received + s'.queue == (s.received + s.queue) + [e];
    } else {
      assert s'.accepted == s.accepted && s'.queue == s.queue;
    }
  }

  lemma SendersToldStep<E>(s: State<E>, a: Action<E>)
    requires SendersTold(s) && ChannelsSafe(s) && Enabled(s, a)
    ensures SendersTold(Apply(s, a))
  {
    var s' := Apply(s, a);
    if a.SelectSend? {
      LogGrows(s.accepted, a.t, s.threads[a.t].event);
    } else {
      assert s'.accepted == s.accepted;
    }
    forall u | 0 <= u < |s.threads|
      ensures s'.returned[u] + Unreported(s'.threads[u]) == EventsOf(s'.accepted, u)
    {
      var sent := if a.SelectSend? && u == a.t then [s.threads[u].event] else [];
      assert s'.returned[u] + Unreported(s'.threads[u]) == (s.returned[u] + Unreported(s.threads[u])) + sent;
      assert s.returned[u] + Unreported(s.threads[u]) == EventsOf(s.accepted, u);
    }
  }

  lemma StepInv<E>(s: State<E>, a: Action<E>)
    requires Inv(s) && Enabled(s, a)
    ensures Inv(Apply(s, a))
  {
    CloserStep(s, a);
    ChannelsStep(s, a);
    LockStep(s, a);
    FifoStep(s, a);
    SendersToldStep(s, a);
  }

  lemma {:induction false} RunInv<E>(s: State<E>, acts: seq<Action<E>>)
    requires Inv(s) && Legal(s, acts)
    ensures Inv(Run(s, acts))
    decreases |acts|
  {
    if acts != [] {
      StepInv(s, acts[0]);
      RunInv(Apply(s, acts[0]), acts[1..]);
    }
  }

  /** Safety of every run with any number of senders, closers and calls. */
  lemma RunsAreSafe<E>(s: State<E>, acts: seq<Action<E>>)
    requires Initial(s) && Legal(s, acts)
    ensures Safe(Run(s, acts))
  {
    InitialInv(s);
    RunInv(s, acts);
  }

  // ---------------------------------------------------------------------------------------
  // Progress of Close

  /** The steps all sends past their first check can still take. */
  ghost function Work<E>(threads: seq<Pc<E>>): nat {
    if threads == [] then 0 else threads[0].Remaining() + Work(threads[1..])
  }

  lemma {:induction false} WorkUpdate<E>(threads: seq<Pc<E>>, t: nat, pc: Pc<E>)
    requires t < |threads|
    ensures Work(threads[t := pc]) + threads[t].Remaining() == Work(threads) + pc.Remaining()
  {
    if t > 0 {
      WorkUpdate(threads[1..], t - 1, pc);
      assert threads[t := pc][1..] == threads[1..][t - 1 := pc];
    } else {
      assert threads[t := pc][1..] == threads[1..];
    }
  }

  /** A step of a send that passed its first check. */
  ghost predicate SenderStep<E>(s: State<E>, a: Action<E>) {
    !a.Receive? && a.t < |s.threads| && s.threads[a.t].Remaining() > 0
  }

  ghost function SenderSteps<E>(s: State<E>, acts: seq<Action<E>>): nat
    requires Legal(s, acts)
    decreases |acts|
  {
    if acts == [] then 0
    else (if SenderStep(s, acts[0]) then 1 else 0) + SenderSteps(Apply(s, acts[0]), acts[1..])
  }

  /** Once the flag is set, no step adds to the work of the sends: a send that starts later
      never gets as far as the lock. */
  lemma WorkShrinks<E>(s: State<E>, a: Action<E>)
    requires Inv(s) && s.closed && Enabled(s, a)
    ensures Apply(s, a).closed
    ensures Work(Apply(s, a).threads) + (if SenderStep(s, a) then 1 else 0) <= Work(s.threads)
  {
    if !a.Receive? {
      assert NextPc(s, a).Remaining() + (if SenderStep(s, a) then 1 else 0) <= s.threads[a.t].Remaining();
      WorkUpdate(s.threads, a.t, Apply(s, a).threads[a.t]);
    }
  }

  /** In every run after the flag is set the sends take at most the steps they had left. */
  lemma {:induction false} SendsAreBoundedOnceClosed<E>(s: State<E>, acts: seq<Action<E>>)
    requires Inv(s) && s.closed && Legal(s, acts)
    ensures SenderSteps(s, acts) + Work(Run(s, acts).threads) <= Work(s.threads)
    decreases |acts|
  {
    if acts != [] {
      WorkShrinks(s, acts[0]);
      StepInv(s, acts[0]);
      SendsAreBoundedOnceClosed(Apply(s, acts[0]), acts[1..]);
    }
  }

  /** The next action of a send that holds the read lock, and of a close. */
  function NextAction<E>(s: State<E>, t: ThreadId): Action<E>
    requires t < |s.threads|
  {
    if s.threads[t].SendSelect? then SelectDone(t) else Step(t)
  }

  /** Once done is closed, a send holding the read lock can always go on, even when the queue
      is full and the subscriber blocks; and the close that won can go on when none is left. */
  lemma NobodyKeepsTheWriterOut<E>(s: State<E>)
    requires Inv(s) && s.done && !s.queueClosed
    ensures forall t :: 0 <= t < |s.threads| && s.threads[t].HoldsRead() ==> Enabled(s, NextAction(s, t))
    ensures s.winner.Some? && s.winner.value < |s.threads|
    ensures s.ReadersGone() ==> Enabled(s, NextAction(s, s.winner.value))
  {
  }

  /** The steps the winning close needs before the queue is closed. */
  ghost function CloserSteps<E>(s: State<E>): nat
    requires CloserOk(s) && s.closed
  {
    var pc := s.threads[s.winner.value];
    if s.queueClosed then 0
    else if pc.CloseDone? then 4
    else if pc.CloseLock? then 3
    else if pc.CloseWait? then 2
    else 1
  }

  /** A step of the close that won, up to the closing of the queue. */
  ghost predicate WinnerStep<E>(s: State<E>, a: Action<E>) {
    !a.Receive? && !s.queueClosed && s.winner == Some(a.t)
  }

  /** The steps of senders past their first check and of the winning close. */
  ghost function CountedSteps<E>(s: State<E>, acts: seq<Action<E>>): nat
    requires Legal(s, acts)
    decreases |acts|
  {
    if acts == [] then 0
    else
      (if SenderStep(s, acts[0]) then 1 else 0) + (if WinnerStep(s, acts[0]) then 1 else 0)
      + CountedSteps(Apply(s, acts[0]), acts[1..])
  }

  lemma CloserShrinks<E>(s: State<E>, a: Action<E>)
    requires Inv(s) && s.closed && Enabled(s, a)
    ensures Apply(s, a).closed && CloserOk(Apply(s, a))
    ensures CloserSteps(Apply(s, a)) + (if WinnerStep(s, a) then 1 else 0) <= CloserSteps(s)
  {
    StepInv(s, a);
  }

  /** On every run after the flag is set, in any order and with any other steps between, the
      senders and the winning close use up the steps they had left; with those of the close
      (`CloserSteps`) used up the queue is closed. */
  lemma {:induction false} CloseIsBounded<E>(s: State<E>, acts: seq<Action<E>>)
    requires Inv(s) && s.closed && Legal(s, acts)
    ensures Run(s, acts).closed && CloserOk(Run(s, acts))
    ensures CountedSteps(s, acts) + Work(Run(s, acts).threads) + CloserSteps(Run(s, acts)) <= Work(s.threads) + CloserSteps(s)
    decreases |acts|
  {
    if acts != [] {
      WorkShrinks(s, acts[0]);
      CloserShrinks(s, acts[0]);
      StepInv(s, acts[0]);
      CloseIsBounded(Apply(s, acts[0]), acts[1..]);
    }
  }

  /** Who moves next on the way to a closed queue: a reader the writer waits for, or the winner. */
  lemma Mover<E>(s: State<E>) returns (t: ThreadId)
    requires Inv(s) && s.closed && !s.queueClosed
    ensures t < |s.threads| && Enabled(s, NextAction(s, t)) && !NextAction(s, t).Receive?
    ensures SenderStep(s, NextAction(s, t)) || WinnerStep(s, NextAction(s, t))
  {
    t := s.winner.value;
    if s.threads[t].CloseWait? && !s.ReadersGone() {
      t :| 0 <= t < |s.threads| && s.threads[t].HoldsRead();
    }
  }

  lemma Unblock<E>(s: State<E>) returns (a: Action<E>)
    requires Inv(s) && s.closed && !s.queueClosed
    ensures Enabled(s, a)
    ensures Inv(Apply(s, a)) && Apply(s, a).closed
    ensures Work(Apply(s, a).threads) + CloserSteps(Apply(s, a)) < Work(s.threads) + CloserSteps(s)
  {
    var t := Mover(s);
    a := NextAction(s, t);
    StepInv(s, a);
    WorkShrinks(s, a);
    CloserShrinks(s, a);
  }

  /** From every reachable state in which a close has begun, senders and the winner alone bring
      the queue to be closed, within the work left to the sends and four more steps. */
  lemma {:induction false} CloseCompletes<E>(s: State<E>) returns (acts: seq<Action<E>>)
    requires Inv(s) && s.closed
    ensures Legal(s, acts) && Run(s, acts).queueClosed
    ensures |acts| <= Work(s.threads) + CloserSteps(s)
    decreases Work(s.threads) + CloserSteps(s)
  {
    if s.queueClosed {
      acts := [];
    } else {
      var a := Unblock(s);
      var rest := CloseCompletes(Apply(s, a));
      acts := [a] + rest;
      assert acts[1..] == rest;
    }
  }

  // ---------------------------------------------------------------------------------------
  // Who waits and who is refused

  predicate OwnAction<E>(a: Action<E>, t: ThreadId) { !a.Receive? && a.t == t }

  ghost predicate CanMove<E(!new)>(s: State<E>, t: ThreadId) { exists a: Action<E> :: OwnAction(a, t) && Enabled(s, a) }

  lemma Moves<E(!new)>(s: State<E>, t: ThreadId, a: Action<E>)
    requires OwnAction(a, t) && Enabled(s, a)
    ensures CanMove(s, t)
  {
  }

  /** At the select a Send goes on exactly when there is room, when the subscriber is being closed,
      or when it does not block: a full queue refuses at once there, and makes it wait otherwise. */
  lemma OnlyBlockingSendsWait<E(!new)>(s: State<E>, t: ThreadId)
    requires Inv(s) && t < |s.threads| && s.threads[t].SendSelect?
    ensures CanMove(s, t) <==> |s.queue| < s.capacity || s.done || !s.blocking
    ensures Enabled(s, SelectSend(t)) <==> |s.queue| < s.capacity
    ensures Enabled(s, SelectDefault(t)) <==> |s.queue| >= s.capacity && !s.done && !s.blocking
  {
    if |s.queue| < s.capacity {
      Moves(s, t, SelectSend(t));
    } else if s.done {
      Moves(s, t, SelectDone(t));
    } else if !s.blocking {
      Moves(s, t, SelectDefault(t));
    }
  }

  /** Everywhere else in a Send a thread can go on, except that a writer keeps it from the lock. */
  lemma OtherStepsDoNotWait<E(!new)>(s: State<E>, t: ThreadId)
    requires Inv(s) && t < |s.threads|
    requires s.threads[t].SendCheck? || s.threads[t].SendRecheck? || s.threads[t].SendHook? || s.threads[t].SendRUnlock?
          || (s.threads[t].SendRLock? && s.WriterIdle())
    ensures CanMove(s, t)
  {
    Moves(s, t, Step(t));
  }

  /** The step ends the Send without enqueuing its event. */
  predicate Refuses<E>(s: State<E>, a: Action<E>)
    requires Enabled(s, a)
  {
    !a.Receive?
    && var pc, next := s.threads[a.t], NextPc(s, a);
       (pc.SendCheck? && next.Idle?) || (!pc.SendRUnlock? && next.SendRUnlock? && !next.ok)
  }

  /** A Send is refused by its hook, because the flag is set, or by a full queue that does not
      block; it is accepted only at the select, with room. */
  lemma RefusalsHaveACause<E>(s0: State<E>, acts: seq<Action<E>>, a: Action<E>)
    requires Initial(s0) && Legal(s0, acts) && Enabled(Run(s0, acts), a)
    ensures var s := Run(s0, acts);
      && (Refuses(s, a) ==> a.HookFails? || s.closed || (!s.blocking && |s.queue| >= s.capacity))
      && (|Apply(s, a).accepted| > |s.accepted| ==>
            a.SelectSend? && |s.queue| < s.capacity && !s.queueClosed
            && Apply(s, a).accepted == s.accepted + [(a.t, s.threads[a.t].event)])
  {
    InitialInv(s0);
    RunInv(s0, acts);
  }

  lemma {:induction false} BlockingStays<E>(s: State<E>, acts: seq<Action<E>>)
    requires Legal(s, acts)
    ensures Run(s, acts).blocking == s.blocking && Run(s, acts).capacity == s.capacity
    decreases |acts|
  {
    if acts != [] {
      BlockingStays(Apply(s, acts[0]), acts[1..]);
    }
  }

  /** So on every run a blocking subscriber refuses only through its hook or after the flag is set. */
  lemma BlockingRefusesOnlyWhenClosed<E>(s0: State<E>, acts: seq<Action<E>>, a: Action<E>)
    requires Initial(s0) && s0.blocking && Legal(s0, acts) && Enabled(Run(s0, acts), a) && Refuses(Run(s0, acts), a)
    ensures a.HookFails? || Run(s0, acts).closed
  {
    RefusalsHaveACause(s0, acts, a);
    BlockingStays(s0, acts);
  }

  // ---------------------------------------------------------------------------------------
  // A call by itself

  ghost predicate Leads<E>(s: State<E>, acts: seq<Action<E>>, s': State<E>) { Legal(s, acts) && Run(s, acts) == s' }

  lemma First<E>(s: State<E>, a: Action<E>, next: State<E>, acts: seq<Action<E>>, s': State<E>)
    requires Enabled(s, a) && Apply(s, a) == next && Leads(next, acts, s')
    ensures Leads(s, [a] + acts, s')
  {
    assert ([a] + acts)[1..] == acts;
  }

  function At<E>(s: State<E>, t: ThreadId, pc: Pc<E>): State<E>
    requires t < |s.threads|
  {
    s.(threads := s.threads[t := pc])
  }

  /** The steps of a Send up to its select. */
  function ToTheSelect<E>(t: ThreadId, e: E): seq<Action<E>> {
    [CallSend(t, e)] + ([Step(t)] + ([Step(t)] + ([Step(t)] + [Step(t)])))
  }

  ghost predicate Undisturbed<E>(s: State<E>, t: ThreadId) {
    Inv(s) && t < |s.threads| && s.threads[t].Idle? && !s.closed && s.WriterIdle()
  }

  lemma NothingReported<E>(returned: seq<seq<E>>, t: ThreadId)
    requires t < |returned|
    ensures returned[t := returned[t] + []] == returned
  {
    assert returned[t] + [] == returned[t];
  }

  lemma Steps<E>(s: State<E>, t: ThreadId, pc: Pc<E>, next: Pc<E>)
    requires Undisturbed(s, t)
    requires match pc
      case SendCheck(e) => next == SendRLock(e)
      case SendRLock(e) => next == SendRecheck(e)
      case SendRecheck(e) => next == SendHook(e)
      case SendHook(e) => next == SendSelect(e)
      case _ => false
    ensures Enabled(At(s, t, pc), Step(t)) && Apply(At(s, t, pc), Step(t)) == At(s, t, next)
  {
    assert At(s, t, pc).threads[t := next] == s.threads[t := next];
    NothingReported(s.returned, t);
  }

  lemma ReachesTheSelect<E>(s: State<E>, t: ThreadId, e: E)
    requires Undisturbed(s, t)
    ensures Leads(s, ToTheSelect(t, e), At(s, t, SendSelect(e)))
  {
    var s1, s2, s3, s4 := At(s, t, SendCheck(e)), At(s, t, SendRLock(e)), At(s, t, SendRecheck(e)), At(s, t, SendHook(e));
    Steps(s, t, SendCheck(e), SendRLock(e));
    Steps(s, t, SendRLock(e), SendRecheck(e));
    Steps(s, t, SendRecheck(e), SendHook(e));
    Steps(s, t, SendHook(e), SendSelect(e));
    var end := At(s, t, SendSelect(e));
    assert Leads(end, [], end);
    var last: seq<Action<E>> := [Step(t)];
    assert last + [] == last;
    First(s4, Step(t), end, [], end);
    First(s3, Step(t), s4, [Step(t)], end);
    First(s2, Step(t), s3, [Step(t)] + [Step(t)], end);
    First(s1, Step(t), s2, [Step(t)] + ([Step(t)] + [Step(t)]), end);
    NothingReported(s.returned, t);
    First(s, CallSend(t, e), s1, [Step(t)] + ([Step(t)] + ([Step(t)] + [Step(t)])), end);
  }

  lemma {:induction false} LeadsOn<E>(s: State<E>, acts: seq<Action<E>>, s': State<E>, more: seq<Action<E>>, s'': State<E>)
    requires Leads(s, acts, s') && Leads(s', more, s'')
    ensures Leads(s, acts + more, s'')
    decreases |acts|
  {
    if acts == [] {
      assert acts + more == more;
    } else {
      assert (acts + more)[1..] == acts[1..] + more;
      LeadsOn(Apply(s, acts[0]), acts[1..], s', more, s'');
    }
  }

  lemma TwoActions<E>(s: State<E>, a: Action<E>, next: State<E>, b: Action<E>, s': State<E>)
    requires Enabled(s, a) && Apply(s, a) == next && Enabled(next, b) && Apply(next, b) == s'
    ensures Leads(s, [a, b], s')
  {
    assert [a, b][1..] == [b] && [b][1..] == [];
    assert Leads(s', [], s');
  }

  /** A Send to an open subscriber with room enqueues its event and returns nil. */
  lemma SendsAreAccepted<E>(s: State<E>, t: ThreadId, e: E)
    requires Undisturbed(s, t) && |s.queue| < s.capacity
    ensures Leads(s, ToTheSelect(t, e) + [SelectSend(t), Step(t)],
                  s.(queue := s.queue + [e], accepted := s.accepted + [(t, e)],
                     returned := s.returned[t := s.returned[t] + [e]]))
  {
    ReachesTheSelect(s, t, e);
    var sent := s.(queue := s.queue + [e], accepted := s.accepted + [(t, e)]);
    var end := sent.(returned := s.returned[t := s.returned[t] + [e]]);
    NothingReported(s.returned, t);
    assert Apply(At(s, t, SendSelect(e)), SelectSend(t)) == At(sent, t, SendRUnlock(e, true));
    assert Apply(At(sent, t, SendRUnlock(e, true)), Step(t)).threads == s.threads;
    TwoActions(At(s, t, SendSelect(e)), SelectSend(t), At(sent, t, SendRUnlock(e, true)), Step(t), end);
    LeadsOn(s, ToTheSelect(t, e), At(s, t, SendSelect(e)), [SelectSend(t), Step(t)], end);
  }

  /** A Send to a full queue that does not block returns an error, and leaves no trace. */
  lemma FullQueuesRefuse<E>(s: State<E>, t: ThreadId, e: E)
    requires Undisturbed(s, t) && |s.queue| >= s.capacity && !s.blocking
    ensures Leads(s, ToTheSelect(t, e) + [SelectDefault(t), Step(t)], s)
  {
    ReachesTheSelect(s, t, e);
    NothingReported(s.returned, t);
    assert Apply(At(s, t, SendSelect(e)), SelectDefault(t)) == At(s, t, SendRUnlock(e, false));
    assert Apply(At(s, t, SendRUnlock(e, false)), Step(t)).threads == s.threads;
    TwoActions(At(s, t, SendSelect(e)), SelectDefault(t), At(s, t, SendRUnlock(e, false)), Step(t), s);
    LeadsOn(s, ToTheSelect(t, e), At(s, t, SendSelect(e)), [SelectDefault(t), Step(t)], s);
  }

  /** A Send to a closed subscriber returns an error at its first check. */
  lemma ClosedSubscribersRefuse<E>(s: State<E>, t: ThreadId, e: E)
    requires Inv(s) && t < |s.threads| && s.threads[t].Idle? && s.closed
    ensures Leads(s, [CallSend(t, e), Step(t)], s)
  {
    NothingReported(s.returned, t);
    assert s.threads[t := SendCheck(e)][t := Idle] == s.threads;
    TwoActions(s, CallSend(t, e), At(s, t, SendCheck(e)), Step(t), s);
  }

  /** The first Close sets the flag, and CloseCompletes says that the queue can then be closed;
      a later one returns at once. */
  lemma CloseStarts<E>(s: State<E>, t: ThreadId)
    requires Inv(s) && t < |s.threads| && s.threads[t].Idle?
    ensures Leads(s, [CallClose(t), Step(t)],
                  if s.closed then s else At(s, t, CloseDone).(closed := true, winner := Some(t)))
  {
    NothingReported(s.returned, t);
    assert s.threads[t := CloseSwap][t := Idle] == s.threads;
    assert s.threads[t := CloseSwap][t := CloseDone] == s.threads[t := CloseDone];
    TwoActions(s, CallClose(t), At(s, t, CloseSwap), Step(t),
               if s.closed then s else At(s, t, CloseDone).(closed := true, winner := Some(t)));
  }

  /** Exactly these steps refuse: an error of the hook, the done channel or a full queue at the
      select, and the flag at either check. */
  lemma RefusesExactly<E>(s: State<E>, a: Action<E>)
    requires Enabled(s, a)
    ensures Refuses(s, a) <==>
      || a.HookFails? || a.SelectDone? || a.SelectDefault?
      || (a.Step? && s.closed && (s.threads[a.t].SendCheck? || s.threads[a.t].SendRecheck?))
  {
  }

  /** A Close that has asked for the lock keeps new readers out: from then on nobody joins those
      that hold the read lock. */
  lemma WaitingClosesAreNotOvertaken<E>(s: State<E>, a: Action<E>, u: ThreadId)
    requires Enabled(s, a) && u < |s.threads| && s.threads[u].CloseWait?
    ensures forall t :: 0 <= t < |s.threads| && Apply(s, a).threads[t].HoldsRead() ==> s.threads[t].HoldsRead()
  {
  }
}
