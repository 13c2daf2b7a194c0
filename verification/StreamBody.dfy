/**
 The response body that closes once: any number of callers and the cancellation listener ask to
 close it.  A step is one statement; `sync.Once` lets one caller in and makes the others wait.
 */
module StreamBody {
  import opened Wrappers

  datatype Pc<+R> =
    | Outside
    | Listening           // the listener, at its select
    | Asking              // at the once
    | ClosingDone         // let in, about to close done
    | ClosingBody         // let in, about to close the wrapped body
    | Leaving             // past the once, about to read the error
    | Returned(result: R)
    | Ended               // the listener has finished

  datatype Once = Fresh | Busy(t: nat) | Over

  /** `bodyCloses` and `doneCloses` are history: how often the wrapped body and done were closed. */
  datatype State<+R> = State(
    cancelled: bool, once: Once, done: bool, err: Option<R>, threads: seq<Pc<R>>,
    bodyCloses: nat, doneCloses: nat)

  datatype Action<+R> =
    | Cancel
    | Call(t: nat)
    | HearCancel(t: nat)
    | HearDone(t: nat)
    | Enter(t: nat)
    | CloseDone(t: nat)
    | CloseBody(t: nat, result: R)    // what the wrapped Close returns
    | Leave(t: nat)

  predicate Enabled<R>(s: State<R>, a: Action<R>) {
    if a.Cancel? then true
    else
      && a.t < |s.threads|
      && var pc := s.threads[a.t];
         match a
         case Call(_) => pc.Outside?
         case HearCancel(_) => pc.Listening? && s.cancelled
         case HearDone(_) => pc.Listening? && s.done
         case Enter(_) => pc.Asking? && !s.once.Busy?
         case CloseDone(_) => pc.ClosingDone?
         case CloseBody(_, _) => pc.ClosingBody?
         case Leave(_) => pc.Leaving? && s.err.Some?
  }

  function Move<R>(s: State<R>, t: nat, pc: Pc<R>): State<R>
    requires t < |s.threads|
  {
    s.(threads := s.threads[t := pc])
  }

  function Apply<R>(s: State<R>, a: Action<R>): State<R>
    requires Enabled(s, a)
  {
    match a
    case Cancel => s.(cancelled := true)
    case Call(t) => Move(s, t, Asking)
    case HearCancel(t) => Move(s, t, Asking)
    case HearDone(t) => Move(s, t, Ended)
    case Enter(t) => if s.once.Fresh? then Move(s, t, ClosingDone).(once := Busy(t)) else Move(s, t, Leaving)
    case CloseDone(t) => Move(s, t, ClosingBody).(done := true, doneCloses := s.doneCloses + 1)
    case CloseBody(t, result) =>
      Move(s, t, Leaving).(err := Some(result), once := Over, bodyCloses := s.bodyCloses + 1)
    case Leave(t) => Move(s, t, Returned(s.err.value))
  }

  ghost predicate Initial<R>(s: State<R>) {
    && !s.cancelled && s.once.Fresh? && !s.done && s.err.None? && s.bodyCloses == 0 && s.doneCloses == 0
    && forall t :: 0 <= t < |s.threads| ==> s.threads[t].Outside? || s.threads[t].Listening?
  }

  ghost predicate Legal<R>(s: State<R>, acts: seq<Action<R>>)
    decreases |acts|
  {
    acts == [] || (Enabled(s, acts[0]) && Legal(Apply(s, acts[0]), acts[1..]))
  }

  ghost function Run<R>(s: State<R>, acts: seq<Action<R>>): State<R>
    requires Legal(s, acts)
    decreases |acts|
  {
    if acts == [] then s else Run(Apply(s, acts[0]), acts[1..])
  }

  ghost predicate Inside<R>(pc: Pc<R>) { pc.ClosingDone? || pc.ClosingBody? }

  /** Only the caller the once let in is inside, and it says how far the closing is. */
  ghost predicate OneInside<R>(s: State<R>) {
    && (forall t :: 0 <= t < |s.threads| && Inside(s.threads[t]) ==> s.once == Busy(t))
    && (s.once.Busy? ==> s.once.t < |s.threads| && Inside(s.threads[s.once.t]))
    && s.bodyCloses == (if s.once.Over? then 1 else 0)
    && s.doneCloses == (if s.done then 1 else 0)
    && (s.done <==> s.once.Over? || (s.once.Busy? && s.threads[s.once.t].ClosingBody?))
    && (s.err.Some? <==> s.once.Over?)
  }

  ghost predicate SameError<R>(s: State<R>) {
    forall t :: 0 <= t < |s.threads| ==>
      && (s.threads[t].Leaving? ==> s.once.Over?)
      && (s.threads[t].Returned? ==> s.once.Over? && s.err == Some(s.threads[t].result))
  }

  lemma StepInv<R>(s: State<R>, a: Action<R>)
    requires OneInside(s) && SameError(s) && Enabled(s, a)
    ensures OneInside(Apply(s, a)) && SameError(Apply(s, a))
  {
  }

  lemma {:induction false} RunInv<R>(s: State<R>, acts: seq<Action<R>>)
    requires OneInside(s) && SameError(s) && Legal(s, acts)
    ensures OneInside(Run(s, acts)) && SameError(Run(s, acts))
    decreases |acts|
  {
    if acts != [] {
      StepInv(s, acts[0]);
      RunInv(Apply(s, acts[0]), acts[1..]);
    }
  }

  /** Whoever closes, and however the calls interleave: the wrapped body and done are closed at
      most once, all callers see the same error, and once a caller has returned the listener
      can finish. */
  lemma ClosesOnce<R>(s: State<R>, acts: seq<Action<R>>)
    requires Initial(s) && Legal(s, acts)
    ensures var e := Run(s, acts);
      && e.bodyCloses <= 1 && e.doneCloses <= 1
      && (forall t, u :: 0 <= t < |e.threads| && 0 <= u < |e.threads| && e.threads[t].Returned? && e.threads[u].Returned?
            ==> e.threads[t].result == e.threads[u].result)
      && (forall t, u :: 0 <= t < |e.threads| && 0 <= u < |e.threads| && e.threads[t].Returned? && e.threads[u].Listening?
            ==> e.bodyCloses == 1 && Enabled(e, HearDone(u)))
  {
    RunInv(s, acts);
  }

  /** Steps left for the thread before it has returned or ended. */
  function Steps<R>(pc: Pc<R>): nat {
    match pc
    case Asking => 4
    case ClosingDone => 3
    case ClosingBody => 2
    case Leaving => 1
    case Listening => 1
    case _ => 0
  }

  /** A caller that has asked to close never waits for ever: it can move itself, or the one
      caller inside the once can, and every such move leaves the mover fewer steps. */
  lemma CallersMove<R>(s: State<R>, t: nat, result: R) returns (a: Action<R>)
    requires OneInside(s) && SameError(s) && t < |s.threads| && s.threads[t] != Outside && s.threads[t] != Ended
    requires !s.threads[t].Listening? && !s.threads[t].Returned?
    ensures !a.Cancel? && !a.Call? && Enabled(s, a) && a.t < |s.threads|
    ensures a.t == t || s.once == Busy(a.t)
    ensures Steps(Apply(s, a).threads[a.t]) < Steps(s.threads[a.t])
  {
    match s.threads[t]
    case Asking =>
      if s.once.Busy? {
        a := if s.threads[s.once.t].ClosingDone? then CloseDone(s.once.t) else CloseBody(s.once.t, result);
      } else {
        a := Enter(t);
      }
    case ClosingDone => a := CloseDone(t);
    case ClosingBody => a := CloseBody(t, result);
    case _ => a := Leave(t);
  }

  ghost predicate Leads<R>(s: State<R>, acts: seq<Action<R>>, s': State<R>) { Legal(s, acts) && Run(s, acts) == s' }

  lemma First<R>(s: State<R>, a: Action<R>, next: State<R>, acts: seq<Action<R>>, s': State<R>)
    requires Enabled(s, a) && Apply(s, a) == next && Leads(next, acts, s')
    ensures Leads(s, [a] + acts, s')
  {
    assert ([a] + acts)[1..] == acts;
  }

  /** What the first one to ask goes on to do. */
  function Closes<R>(t: nat, result: R): seq<Action<R>> {
    [Enter(t)] + ([CloseDone(t)] + ([CloseBody(t, result)] + [Leave(t)]))
  }

  /** The first one to ask, whether it was called or the listener heard the cancel, closes the body
      and done and returns what the body's Close returned. */
  lemma FirstCloses<R>(s: State<R>, t: nat, result: R)
    requires t < |s.threads| && s.once.Fresh? && s.threads[t].Asking?
    ensures Leads(s, Closes(t, result),
                  s.(once := Over, done := true, err := Some(result), threads := s.threads[t := Returned(result)],
                     bodyCloses := s.bodyCloses + 1, doneCloses := s.doneCloses + 1))
  {
    var s1 := Move(s, t, ClosingDone).(once := Busy(t));
    var s2 := Move(s, t, ClosingBody).(once := Busy(t), done := true, doneCloses := s.doneCloses + 1);
    var s3 := Move(s, t, Leaving).(once := Over, done := true, err := Some(result), bodyCloses := s.bodyCloses + 1,
                                   doneCloses := s.doneCloses + 1);
    var end := s3.(threads := s.threads[t := Returned(result)]);
    assert Leads(end, [], end);
    assert Apply(s1, CloseDone(t)).threads == s2.threads && Apply(s2, CloseBody(t, result)).threads == s3.threads;
    assert Apply(s3, Leave(t)).threads == end.threads;
    var last: seq<Action<R>> := [Leave(t)];
    assert last + [] == last;
    First(s3, Leave(t), end, [], end);
    First(s2, CloseBody(t, result), s3, last, end);
    First(s1, CloseDone(t), s2, [CloseBody(t, result)] + last, end);
    First(s, Enter(t), s1, [CloseDone(t)] + ([CloseBody(t, result)] + last), end);
  }

  /** A cancel makes the listener ask, and so closes the body that nobody has closed. */
  lemma CancelCloses<R>(s: State<R>, t: nat, result: R)
    requires t < |s.threads| && s.cancelled && s.once.Fresh? && s.threads[t].Listening?
    ensures Leads(s, [HearCancel(t)] + Closes(t, result),
                  s.(once := Over, done := true, err := Some(result), threads := s.threads[t := Returned(result)],
                     bodyCloses := s.bodyCloses + 1, doneCloses := s.doneCloses + 1))
  {
    var asking := Move(s, t, Asking);
    FirstCloses(asking, t, result);
    assert asking.threads[t := Returned(result)] == s.threads[t := Returned(result)];
    First(s, HearCancel(t), asking, Closes(t, result), Run(asking, Closes(t, result)));
  }
}
