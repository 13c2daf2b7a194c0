/**
 Notifications of one task that overlap: each copies the list of subscribers in one lock section,
 sends to them one by one outside the lock, and takes off those that failed in another section.
 What every interleaving delivers, exactly when a subscriber sees a gap or a wrong order, and that
 notifications one after the other leave none.
 */
module FanOut {
  import opened Wrappers

  type SubId = nat

  type ThreadId = nat

  /** Events are known by the number of their publication.  They are numbered when the list is
      copied; the status or artifact was written in a lock section before. */
  datatype Thread =
    | Idle
    | Sending(n: nat, final: bool, rest: seq<SubId>, failed: seq<SubId>)
    | Closing(ends: Option<nat>, toClose: seq<SubId>)    // then on to the end of a final update
    | Ending(n: nat)                                     // a final update, about to take all subscribers

  /** `due`, `missed` and `born` are history: the events published while the subscriber was on the
      list, those that a send to it failed with, and how many had been published before. */
  datatype Sub = Sub(closed: bool, received: nat, accepted: seq<nat>, due: seq<nat>, missed: set<nat>, born: nat) {
    predicate Room(capacity: nat) { |accepted| < received + capacity }
  }

  /** `publishers` is history: who published which event. */
  datatype State = State(
    capacity: nat,
    blocking: bool,
    list: seq<SubId>,
    subs: seq<Sub>,
    threads: seq<Thread>,
    publishers: seq<ThreadId>)

  datatype Action =
    | Register
    | Publish(t: ThreadId, final: bool)
    | Deliver(t: ThreadId, ok: bool)
    | CleanUp(t: ThreadId)
    | TakeAll(t: ThreadId)         // the end of a final update, a removal or a sweep
    | CloseNext(t: ThreadId)
    | CloseOutside(sub: SubId)
    | Receive(sub: SubId)

  /** A full queue refuses an event only without blocking. */
  predicate CanSend(s: State, x: SubId, ok: bool) {
    && x < |s.subs|
    && (if ok then !s.subs[x].closed && s.subs[x].Room(s.capacity)
        else s.subs[x].closed || (!s.blocking && !s.subs[x].Room(s.capacity)))
  }

  predicate Enabled(s: State, a: Action) {
    match a
    case Register => true
    case Publish(t, _) => t < |s.threads| && s.threads[t].Idle?
    case Deliver(t, ok) =>
      t < |s.threads| && s.threads[t].Sending? && s.threads[t].rest != [] && CanSend(s, s.threads[t].rest[0], ok)
    case CleanUp(t) => t < |s.threads| && s.threads[t].Sending? && s.threads[t].rest == []
    case TakeAll(t) => t < |s.threads| && (s.threads[t].Idle? || s.threads[t].Ending?)
    case CloseNext(t) =>
      t < |s.threads| && s.threads[t].Closing? && (s.threads[t].toClose != [] ==> s.threads[t].toClose[0] < |s.subs|)
    case CloseOutside(x) => x < |s.subs|
    case Receive(x) => x < |s.subs| && s.subs[x].received < |s.subs[x].accepted|
  }

  function Owed(s: State, n: nat): seq<Sub> {
    seq(|s.subs|, i requires 0 <= i < |s.subs| =>
      if i in s.list then s.subs[i].(due := s.subs[i].due + [n]) else s.subs[i])
  }

  function Put(s: State, x: SubId, sub: Sub): State
    requires x < |s.subs|
  {
    s.(subs := s.subs[x := sub])
  }

  function Go(s: State, t: ThreadId, thread: Thread): State
    requires t < |s.threads|
  {
    s.(threads := s.threads[t := thread])
  }

  /** Where a notification leads. */
  function Returned(n: nat, final: bool): Thread { if final then Ending(n) else Idle }

  function Apply(s: State, a: Action): State
    requires Enabled(s, a)
  {
    match a
    case Register => s.(subs := s.subs + [Sub(false, 0, [], [], {}, |s.publishers|)], list := s.list + [|s.subs|])
    case Publish(t, final) =>
      var n := |s.publishers|;
      Go(s.(publishers := s.publishers + [t], subs := Owed(s, n)), t,
         if s.list == [] then Returned(n, final) else Sending(n, final, s.list, []))
    case Deliver(t, ok) =>
      var thread := s.threads[t];
      var x := thread.rest[0];
      var sub := s.subs[x];
      if ok then Go(Put(s, x, sub.(accepted := sub.accepted + [thread.n])), t, thread.(rest := thread.rest[1..]))
      else Go(Put(s, x, sub.(missed := sub.missed + {thread.n})), t,
              thread.(rest := thread.rest[1..], failed := thread.failed + [x]))
    case CleanUp(t) =>
      var n, final, failed := s.threads[t].n, s.threads[t].final, s.threads[t].failed;
      if failed == [] then Go(s, t, Returned(n, final))
      else Go(s.(list := Select(s.list, failed, false)), t,
              Closing(if final then Some(n) else None, Select(s.list, failed, true)))
    case TakeAll(t) => Go(s.(list := []), t, Closing(None, s.list))
    case CloseNext(t) =>
      var ends, toClose := s.threads[t].ends, s.threads[t].toClose;
      if toClose == [] then Go(s, t, if ends.Some? then Ending(ends.value) else Idle)
      else Go(Put(s, toClose[0], s.subs[toClose[0]].(closed := true)), t, Closing(ends, toClose[1..]))
    case CloseOutside(x) => Put(s, x, s.subs[x].(closed := true))
    case Receive(x) => Put(s, x, s.subs[x].(received := s.subs[x].received + 1))
  }

  predicate Initial(s: State) {
    s.list == [] && s.subs == [] && s.publishers == [] && forall t: nat :: 0 <= t < |s.threads| ==> s.threads[t].Idle?
  }

  predicate Legal(s: State, acts: seq<Action>)
    decreases |acts|
  {
    acts == [] || (Enabled(s, acts[0]) && Legal(Apply(s, acts[0]), acts[1..]))
  }

  function Run(s: State, acts: seq<Action>): State
    requires Legal(s, acts)
    decreases |acts|
  {
    if acts == [] then s else Run(Apply(s, acts[0]), acts[1..])
  }

  // ---------------------------------------------------------------------------------------
  // The invariant

  /** The call that published the event has yet to send it to the subscriber. */
  predicate Pending(s: State, x: SubId, n: nat) {
    && n < |s.publishers| && s.publishers[n] < |s.threads|
    && s.threads[s.publishers[n]].Sending? && s.threads[s.publishers[n]].n == n && x in s.threads[s.publishers[n]].rest
  }

  ghost predicate AllThere(s: State, xs: seq<SubId>) { forall i :: 0 <= i < |xs| ==> xs[i] < |s.subs| }

  predicate PublishedBy(s: State, n: nat, t: ThreadId) { n < |s.publishers| && s.publishers[n] == t }

  ghost predicate ThreadOk(s: State, t: ThreadId)
    requires t < |s.threads|
  {
    match s.threads[t]
    case Idle => true
    case Sending(n, _, rest, failed) =>
      && n < |s.publishers| && s.publishers[n] == t
      && (forall m :: n < m < |s.publishers| ==> s.publishers[m] != t)
      && Distinct(rest) && AllThere(s, rest) && AllThere(s, failed) && forall x :: x in rest ==> x !in failed
    case Closing(ends, toClose) => AllThere(s, toClose) && (ends.Some? ==> PublishedBy(s, ends.value, t))
    case Ending(n) => PublishedBy(s, n, t)
  }

  /** Every event due was accepted, or missed, or is pending; one of the three. */
  ghost predicate Accounted(s: State, x: SubId)
    requires x < |s.subs|
  {
    var sub := s.subs[x];
    && (forall n :: n in sub.due <==> n in sub.accepted || n in sub.missed || Pending(s, x, n))
    && (forall n :: n in sub.accepted ==> n !in sub.missed && !Pending(s, x, n))
    && (forall n :: n in sub.missed ==> !Pending(s, x, n))
  }

  ghost predicate Increasing(ns: seq<nat>) { forall i, j :: 0 <= i < j < |ns| ==> ns[i] < ns[j] }

  /** Events of one call come in the order of its publications. */
  ghost predicate OrderedByCall(s: State, ns: seq<nat>) {
    && (forall i :: 0 <= i < |ns| ==> ns[i] < |s.publishers|)
    && forall i, j :: 0 <= i < j < |ns| && s.publishers[ns[i]] == s.publishers[ns[j]] ==> ns[i] < ns[j]
  }

  ghost predicate SubOk(s: State, x: SubId)
    requires x < |s.subs|
  {
    && Increasing(s.subs[x].due) && (forall n :: n in s.subs[x].due ==> n < |s.publishers|)
    && Distinct(s.subs[x].accepted) && OrderedByCall(s, s.subs[x].accepted)
    && Accounted(s, x) && DueSinceBorn(s, x) && s.subs[x].born <= |s.publishers|
  }

  /** What is due to a listed subscriber is everything published since it registered. */
  ghost predicate DueSinceBorn(s: State, x: SubId)
    requires x < |s.subs|
  {
    x in s.list ==> forall n: nat :: n in s.subs[x].due <==> s.subs[x].born <= n < |s.publishers|
  }

  /** The call is going to close the subscriber. */
  predicate Closes(s: State, t: ThreadId, x: SubId) { t < |s.threads| && s.threads[t].Closing? && x in s.threads[t].toClose }

  /** The call is going to take the subscriber off the list. */
  predicate Drops(s: State, t: ThreadId, x: SubId) { t < |s.threads| && s.threads[t].Sending? && x in s.threads[t].failed }

  ghost predicate BeingClosed(s: State, x: SubId) { exists t :: Closes(s, t, x) }

  ghost predicate BeingDropped(s: State, x: SubId) { exists t :: Drops(s, t, x) }

  /** Open subscribers are on the list or about to be closed; one that missed an event is about to
      be dropped or closed. */
  ghost predicate Watched(s: State, x: SubId)
    requires x < |s.subs|
  {
    s.subs[x].closed || BeingClosed(s, x) || (x in s.list && (s.subs[x].missed == {} || BeingDropped(s, x)))
  }

  ghost predicate Inv(s: State) {
    && Distinct(s.list) && AllThere(s, s.list)
    && (forall n :: 0 <= n < |s.publishers| ==> s.publishers[n] < |s.threads|)
    && (forall t: nat :: 0 <= t < |s.threads| ==> ThreadOk(s, t))
    && (forall x: nat :: 0 <= x < |s.subs| ==> SubOk(s, x) && Watched(s, x))
  }

  // ---------------------------------------------------------------------------------------
  // Every step keeps it

  lemma SubFrame(s: State, s': State, x: SubId)
    requires x < |s.subs| && x < |s'.subs| && SubOk(s, x) && s'.publishers == s.publishers
    requires s'.subs[x].due == s.subs[x].due && s'.subs[x].accepted == s.subs[x].accepted
    requires s'.subs[x].missed == s.subs[x].missed && s'.subs[x].born == s.subs[x].born
    requires x in s'.list ==> x in s.list
    requires forall n :: Pending(s', x, n) == Pending(s, x, n)
    ensures SubOk(s', x)
  {
  }

  lemma WatchedFrame(s: State, s': State, x: SubId)
    requires x < |s.subs| && x < |s'.subs| && Watched(s, x) && |s'.threads| == |s.threads|
    requires (s.subs[x].closed ==> s'.subs[x].closed) && (x in s.list ==> x in s'.list)
    requires s'.subs[x].missed == s.subs[x].missed
    requires forall t :: Closes(s, t, x) ==> s'.subs[x].closed || Closes(s', t, x)
    requires forall t :: Drops(s, t, x) ==> Drops(s', t, x)
    ensures Watched(s', x)
  {
    if BeingClosed(s, x) {
      var t :| Closes(s, t, x);
    }
    if BeingDropped(s, x) {
      var t :| Drops(s, t, x);
      assert Drops(s', t, x);
    }
  }

  lemma NotYetThere(s: State, x: SubId, n: nat)
    requires Inv(s) && x >= |s.subs|
    ensures !Pending(s, x, n)
  {
    if n < |s.publishers| && s.threads[s.publishers[n]].Sending? {
      assert ThreadOk(s, s.publishers[n]);
    }
  }

  lemma RegisterInv(s: State)
    requires Inv(s)
    ensures Inv(Apply(s, Register))
  {
    var s', k := Apply(s, Register), |s.subs|;
    forall x: nat | 0 <= x < |s'.subs| ensures SubOk(s', x) && Watched(s', x) {
      if x < k {
        SubFrame(s, s', x);
        WatchedFrame(s, s', x);
      } else {
        forall n: nat ensures !Pending(s', k, n) {
          NotYetThere(s, k, n);
          assert Pending(s', k, n) == Pending(s, k, n);
        }
        assert s'.list[|s.list|] == k;
      }
    }
    forall t: nat | 0 <= t < |s'.threads| ensures ThreadOk(s', t) {
      assert ThreadOk(s, t);
    }
  }

  lemma SubChangeInv(s: State, x: SubId, sub: Sub)
    requires Inv(s) && x < |s.subs| && (s.subs[x].closed ==> sub.closed)
    requires sub.due == s.subs[x].due && sub.accepted == s.subs[x].accepted && sub.missed == s.subs[x].missed
    requires sub.born == s.subs[x].born
    ensures Inv(Put(s, x, sub))
  {
    var s' := Put(s, x, sub);
    forall y: nat | 0 <= y < |s'.subs| ensures SubOk(s', y) && Watched(s', y) {
      SubFrame(s, s', y);
      WatchedFrame(s, s', y);
    }
    forall t: nat | 0 <= t < |s'.threads| ensures ThreadOk(s', t) {
      assert ThreadOk(s, t);
    }
  }

  /** A thread goes from what sends to nobody to what sends to nobody. */
  predicate Silent(thread: Thread) { thread.Sending? ==> thread.rest == [] }

  lemma SilentStepPending(s: State, s': State, t: ThreadId, x: SubId)
    requires t < |s.threads| && Silent(s.threads[t]) && s'.publishers == s.publishers
    requires |s'.threads| == |s.threads| && Silent(s'.threads[t])
    requires forall u: nat :: 0 <= u < |s.threads| && u != t ==> s'.threads[u] == s.threads[u]
    ensures forall n :: Pending(s', x, n) == Pending(s, x, n)
  {
  }

  lemma OtherThreads(s: State, s': State, t: ThreadId)
    requires Inv(s) && t < |s.threads| && |s'.threads| == |s.threads| && s'.publishers == s.publishers
    requires |s'.subs| == |s.subs| && forall u: nat :: 0 <= u < |s.threads| && u != t ==> s'.threads[u] == s.threads[u]
    ensures forall u: nat :: 0 <= u < |s.threads| && u != t ==> ThreadOk(s', u)
  {
    forall u: nat | 0 <= u < |s.threads| && u != t ensures ThreadOk(s', u) {
      assert ThreadOk(s, u);
    }
  }

  lemma SelectThere(s: State, failed: seq<SubId>, keep: bool)
    requires AllThere(s, s.list)
    ensures AllThere(s, Select(s.list, failed, keep))
  {
    var kept := Select(s.list, failed, keep);
    forall i | 0 <= i < |kept| ensures kept[i] < |s.subs| {
      assert kept[i] in s.list;
    }
  }

  lemma CleanUpInv(s: State, t: ThreadId)
    requires Inv(s) && Enabled(s, CleanUp(t))
    ensures Inv(Apply(s, CleanUp(t)))
  {
    var s', failed := Apply(s, CleanUp(t)), s.threads[t].failed;
    SelectDistinct(s.list, failed, false);
    OtherThreads(s, s', t);
    SelectThere(s, failed, true);
    SelectThere(s, failed, false);
    assert ThreadOk(s, t) && ThreadOk(s', t);
    forall x: nat | 0 <= x < |s.subs| ensures SubOk(s', x) && Watched(s', x) {
      SilentStepPending(s, s', t, x);
      SubFrame(s, s', x);
      CleanUpWatches(s, t, x);
    }
  }

  lemma CleanUpWatches(s: State, t: ThreadId, x: SubId)
    requires Inv(s) && Enabled(s, CleanUp(t)) && x < |s.subs|
    ensures Watched(Apply(s, CleanUp(t)), x)
  {
    var s', failed := Apply(s, CleanUp(t)), s.threads[t].failed;
    assert forall u :: u != t && Closes(s, u, x) ==> Closes(s', u, x);
    assert forall u :: u != t && Drops(s, u, x) ==> Drops(s', u, x);
    assert !Closes(s, t, x);
    if x in failed && x in s.list {
      assert Closes(s', t, x);
    } else {
      assert x in s.list ==> x in s'.list && !Drops(s, t, x);
      assert Watched(s, x);
    }
  }

  lemma TakeAllInv(s: State, t: ThreadId)
    requires Inv(s) && Enabled(s, TakeAll(t))
    ensures Inv(Apply(s, TakeAll(t)))
  {
    var s' := Apply(s, TakeAll(t));
    OtherThreads(s, s', t);
    forall x: nat | 0 <= x < |s.subs| ensures SubOk(s', x) && Watched(s', x) {
      SilentStepPending(s, s', t, x);
      SubFrame(s, s', x);
      assert forall u :: Closes(s, u, x) ==> Closes(s', u, x);
      assert x in s.list ==> Closes(s', t, x);
      assert Watched(s, x);
    }
  }

  lemma CloseNextInv(s: State, t: ThreadId)
    requires Inv(s) && Enabled(s, CloseNext(t))
    ensures Inv(Apply(s, CloseNext(t)))
  {
    var s', toClose := Apply(s, CloseNext(t)), s.threads[t].toClose;
    OtherThreads(s, s', t);
    assert ThreadOk(s, t);
    forall x: nat | 0 <= x < |s.subs| ensures SubOk(s', x) && Watched(s', x) {
      SilentStepPending(s, s', t, x);
      SubFrame(s, s', x);
      assert toClose != [] && x in toClose ==> x == toClose[0] || x in toClose[1..];
      WatchedFrame(s, s', x);
    }
  }

  lemma PublishPending(s: State, t: ThreadId, final: bool, x: SubId)
    requires Inv(s) && Enabled(s, Publish(t, final)) && x < |s.subs|
    ensures forall n :: Pending(Apply(s, Publish(t, final)), x, n)
                    <==> Pending(s, x, n) || (n == |s.publishers| && x in s.list)
  {
  }

  lemma PublishDue(s: State, t: ThreadId, final: bool, x: SubId)
    requires Inv(s) && Enabled(s, Publish(t, final)) && x < |s.subs|
    ensures var s' := Apply(s, Publish(t, final)); var due := s'.subs[x].due;
      && Increasing(due) && (forall n :: n in due ==> n < |s'.publishers|) && DueSinceBorn(s', x)
  {
    assert SubOk(s, x);
    var due, n := s.subs[x].due, |s.publishers|;
    assert forall m :: m in due + [n] <==> m in due || m == n;
    assert forall i :: 0 <= i < |due| ==> due[i] in due;
  }

  lemma PublishSub(s: State, t: ThreadId, final: bool, x: SubId)
    requires Inv(s) && Enabled(s, Publish(t, final)) && x < |s.subs|
    ensures SubOk(Apply(s, Publish(t, final)), x)
  {
    PublishDue(s, t, final, x);
    PublishPending(s, t, final, x);
    assert SubOk(s, x);
    assert forall m :: m in s.subs[x].due + [|s.publishers|] <==> m in s.subs[x].due || m == |s.publishers|;
  }

  lemma PublishInv(s: State, t: ThreadId, final: bool)
    requires Inv(s) && Enabled(s, Publish(t, final))
    ensures Inv(Apply(s, Publish(t, final)))
  {
    var s' := Apply(s, Publish(t, final));
    forall u: nat | 0 <= u < |s'.threads| ensures ThreadOk(s', u) {
      assert ThreadOk(s, u);
    }
    forall x: nat | 0 <= x < |s.subs| ensures SubOk(s', x) && Watched(s', x) {
      PublishSub(s, t, final, x);
      WatchedFrame(s, s', x);
    }
  }

  lemma DeliverThread(s: State, t: ThreadId, ok: bool)
    requires Inv(s) && Enabled(s, Deliver(t, ok))
    ensures ThreadOk(Apply(s, Deliver(t, ok)), t)
  {
    assert ThreadOk(s, t);
    var rest, failed := s.threads[t].rest, s.threads[t].failed;
    AllButFirst(rest);
    assert forall i :: 0 <= i < |rest[1..]| ==> rest[1..][i] == rest[i + 1] && rest[i + 1] < |s.subs|;
    assert forall x :: x in failed + [rest[0]] ==> x in failed || x == rest[0];
    assert forall x :: x in rest[1..] ==> x in rest;
  }

  lemma AllButFirst(rest: seq<SubId>)
    requires Distinct(rest) && rest != []
    ensures Distinct(rest[1..]) && rest[0] !in rest[1..]
  {
    assert forall i :: 0 <= i < |rest[1..]| ==> rest[1..][i] == rest[i + 1];
  }

  lemma DeliverPending(s: State, t: ThreadId, ok: bool, x: SubId)
    requires Inv(s) && Enabled(s, Deliver(t, ok)) && x < |s.subs|
    ensures forall n ::
      (Pending(Apply(s, Deliver(t, ok)), x, n) <==> Pending(s, x, n) && !(x == s.threads[t].rest[0] && n == s.threads[t].n))
    ensures Pending(s, s.threads[t].rest[0], s.threads[t].n)
  {
    assert ThreadOk(s, t);
    var rest := s.threads[t].rest;
    assert rest == [rest[0]] + rest[1..];
    AllButFirst(rest);
  }

  lemma DeliverSub(s: State, t: ThreadId, ok: bool, x: SubId)
    requires Inv(s) && Enabled(s, Deliver(t, ok)) && x < |s.subs|
    ensures SubOk(Apply(s, Deliver(t, ok)), x)
  {
    var s', n := Apply(s, Deliver(t, ok)), s.threads[t].n;
    assert SubOk(s, x) && ThreadOk(s, t);
    DeliverPending(s, t, ok, x);
    if x != s.threads[t].rest[0] {
      SubFrame(s, s', x);
    } else if ok {
      var accepted := s.subs[x].accepted;
      assert n !in accepted && s'.subs[x].accepted == accepted + [n];
      forall i | 0 <= i < |accepted| && s.publishers[accepted[i]] == t ensures accepted[i] < n {
        assert accepted[i] in accepted;
      }
    }
  }

  lemma DeliverInv(s: State, t: ThreadId, ok: bool)
    requires Inv(s) && Enabled(s, Deliver(t, ok))
    ensures Inv(Apply(s, Deliver(t, ok)))
  {
    var s' := Apply(s, Deliver(t, ok));
    OtherThreads(s, s', t);
    DeliverThread(s, t, ok);
    forall x: nat | 0 <= x < |s.subs| ensures SubOk(s', x) && Watched(s', x) {
      DeliverSub(s, t, ok, x);
      if x == s.threads[t].rest[0] && !ok {
        assert Watched(s, x) && Drops(s', t, x);
        assert forall u :: Closes(s, u, x) ==> Closes(s', u, x);
      } else {
        WatchedFrame(s, s', x);
      }
    }
  }

  lemma StepInv(s: State, a: Action)
    requires Inv(s) && Enabled(s, a)
    ensures Inv(Apply(s, a))
  {
    match a
    case Register => RegisterInv(s);
    case Publish(t, final) => PublishInv(s, t, final);
    case Deliver(t, ok) => DeliverInv(s, t, ok);
    case CleanUp(t) => CleanUpInv(s, t);
    case TakeAll(t) => TakeAllInv(s, t);
    case CloseNext(t) => CloseNextInv(s, t);
    case CloseOutside(x) => SubChangeInv(s, x, s.subs[x].(closed := true));
    case Receive(x) => SubChangeInv(s, x, s.subs[x].(received := s.subs[x].received + 1));
  }

  lemma {:induction false} RunInv(s: State, acts: seq<Action>)
    requires Inv(s) && Legal(s, acts)
    ensures Inv(Run(s, acts))
    decreases |acts|
  {
    if acts != [] {
      StepInv(s, acts[0]);
      RunInv(Apply(s, acts[0]), acts[1..]);
    }
  }

  lemma InitialInv(s: State)
    requires Initial(s)
    ensures Inv(s)
  {
  }

  // ---------------------------------------------------------------------------------------
  // What every interleaving delivers

  predicate Quiet(s: State) { forall t: nat :: 0 <= t < |s.threads| ==> s.threads[t].Idle? }

  /** In every interleaving a subscriber has accepted only events published while it was on the
      list, none twice, and those of one call in the order of the call.  When all calls have
      returned and it is open, it has accepted all of them. */
  lemma FanOutLosesNothing(s: State, acts: seq<Action>, x: SubId)
    requires Initial(s) && Legal(s, acts) && x < |Run(s, acts).subs|
    ensures var e := Run(s, acts); var sub := e.subs[x];
      && Distinct(sub.accepted) && OrderedByCall(e, sub.accepted)
      && (forall n :: n in sub.accepted ==> n in sub.due)
      && (Quiet(e) && !sub.closed ==> forall n :: n in sub.due ==> n in sub.accepted)
  {
    InitialInv(s);
    RunInv(s, acts);
    var e := Run(s, acts);
    assert SubOk(e, x) && Watched(e, x);
    if Quiet(e) && !e.subs[x].closed {
      assert forall n :: n in e.subs[x].due ==> !Pending(e, x, n);
      assert forall t :: !Closes(e, t, x) && !Drops(e, t, x);
    }
  }

  // ---------------------------------------------------------------------------------------
  // Exactly when there is no gap

  /** What was accepted is a beginning of what was due. */
  predicate GapFree(s: State, x: SubId) { x < |s.subs| ==> s.subs[x].accepted <= s.subs[x].due }

  /** A send that the subscriber accepts is not behind another call's, nor behind one it missed. */
  ghost predicate InTurn(s: State, a: Action, x: SubId) {
    a.Deliver? && a.ok && Enabled(s, a) && s.threads[a.t].rest[0] == x ==>
      forall m: nat :: m < s.threads[a.t].n ==> m !in s.subs[x].missed && !Pending(s, x, m)
  }

  lemma NextIsDue(accepted: seq<nat>, due: seq<nat>, n: nat)
    requires accepted <= due && Increasing(due) && Distinct(accepted) && n in due && n !in accepted
    ensures accepted + [n] <= due <==> forall m :: m in due && m < n ==> m in accepted
  {
    var k := |accepted|;
    assert forall i :: 0 <= i < k ==> due[i] == accepted[i];
    var j :| 0 <= j < |due| && due[j] == n;
    if j == k {
      assert accepted + [n] == due[..k + 1];
    } else {
      assert k < j;
      assert due[k] < n && due[k] in due;
      assert forall i :: 0 <= i < k ==> due[i] != due[k];
    }
  }

  /** A step keeps a subscriber's events gap-free if and only if it does not send out of turn. */
  lemma GapFreeInTurn(s: State, a: Action, x: SubId)
    requires Inv(s) && Enabled(s, a) && GapFree(s, x)
    ensures GapFree(Apply(s, a), x) <==> InTurn(s, a, x)
  {
    if a.Deliver? && a.ok && s.threads[a.t].rest[0] == x {
      var n := s.threads[a.t].n;
      assert SubOk(s, x);
      DeliverPending(s, a.t, true, x);
      NextIsDue(s.subs[x].accepted, s.subs[x].due, n);
    }
  }

  predicate AlwaysGapFree(s: State, acts: seq<Action>, x: SubId)
    requires Legal(s, acts)
    decreases |acts|
  {
    GapFree(s, x) && (acts == [] || AlwaysGapFree(Apply(s, acts[0]), acts[1..], x))
  }

  ghost predicate AlwaysInTurn(s: State, acts: seq<Action>, x: SubId)
    requires Legal(s, acts)
    decreases |acts|
  {
    acts == [] || (InTurn(s, acts[0], x) && AlwaysInTurn(Apply(s, acts[0]), acts[1..], x))
  }

  lemma {:induction false} GapFreeFrom(s: State, acts: seq<Action>, x: SubId)
    requires Inv(s) && Legal(s, acts) && GapFree(s, x)
    ensures AlwaysGapFree(s, acts, x) <==> AlwaysInTurn(s, acts, x)
    decreases |acts|
  {
    if acts != [] {
      StepInv(s, acts[0]);
      GapFreeInTurn(s, acts[0], x);
      if GapFree(Apply(s, acts[0]), x) {
        GapFreeFrom(Apply(s, acts[0]), acts[1..], x);
      }
    }
  }

  /** Throughout a run a subscriber's events are a gap-free beginning of those due to it if and
      only if no send to it overtakes another call's or follows one it missed. */
  lemma GapFreeRuns(s: State, acts: seq<Action>, x: SubId)
    requires Initial(s) && Legal(s, acts)
    ensures AlwaysGapFree(s, acts, x) <==> AlwaysInTurn(s, acts, x)
  {
    InitialInv(s);
    GapFreeFrom(s, acts, x);
  }

  // ---------------------------------------------------------------------------------------
  // One notification after the other

  /** At most one call is under way. */
  ghost predicate OneAtATime(s: State) {
    forall t: nat, u: nat ::
      t < |s.threads| && u < |s.threads| && !s.threads[t].Idle? && !s.threads[u].Idle? ==> t == u
  }

  ghost predicate AlwaysOneAtATime(s: State, acts: seq<Action>)
    requires Legal(s, acts)
    decreases |acts|
  {
    OneAtATime(s) && (acts == [] || AlwaysOneAtATime(Apply(s, acts[0]), acts[1..]))
  }

  lemma AloneIsInTurn(s: State, a: Action, x: SubId)
    requires Inv(s) && Enabled(s, a) && OneAtATime(s)
    ensures InTurn(s, a, x)
  {
    if a.Deliver? && a.ok && s.threads[a.t].rest[0] == x {
      assert ThreadOk(s, a.t) && Watched(s, x);
      assert forall u :: !Closes(s, u, x) && !Drops(s, u, x);
    }
  }

  lemma {:induction false} AloneFrom(s: State, acts: seq<Action>, x: SubId)
    requires Inv(s) && Legal(s, acts) && GapFree(s, x) && AlwaysOneAtATime(s, acts)
    ensures GapFree(Run(s, acts), x)
    decreases |acts|
  {
    if acts != [] {
      StepInv(s, acts[0]);
      AloneIsInTurn(s, acts[0], x);
      GapFreeInTurn(s, acts[0], x);
      AloneFrom(Apply(s, acts[0]), acts[1..], x);
    }
  }

  lemma NotBefore(due: seq<nat>, k: nat)
    requires Increasing(due) && k < |due|
    ensures due[k] !in due[..k]
  {
  }

  lemma SameElements(accepted: seq<nat>, due: seq<nat>)
    requires accepted <= due && Increasing(due) && forall i :: 0 <= i < |due| ==> due[i] in accepted
    ensures accepted == due
  {
    if |accepted| < |due| {
      assert accepted == due[..|accepted|];
      NotBefore(due, |accepted|);
    }
  }

  /** Calls that do not overlap leave no gap, and miss nothing that an open subscriber was due. */
  lemma OneAtATimeIsGapFree(s: State, acts: seq<Action>, x: SubId)
    requires Initial(s) && Legal(s, acts) && AlwaysOneAtATime(s, acts) && x < |Run(s, acts).subs|
    ensures var e := Run(s, acts);
      && e.subs[x].accepted <= e.subs[x].due
      && (Quiet(e) && !e.subs[x].closed ==> e.subs[x].accepted == e.subs[x].due)
  {
    InitialInv(s);
    RunInv(s, acts);
    AloneFrom(s, acts, x);
    FanOutLosesNothing(s, acts, x);
    var e := Run(s, acts);
    assert SubOk(e, x);
    if Quiet(e) && !e.subs[x].closed {
      SameElements(e.subs[x].accepted, e.subs[x].due);
    }
  }

  // ---------------------------------------------------------------------------------------
  // Two that overlap

  predicate Leads(s: State, acts: seq<Action>, e: State) { Legal(s, acts) && Run(s, acts) == e }

  lemma First(s: State, a: Action, next: State, acts: seq<Action>, e: State) returns (all: seq<Action>)
    requires Enabled(s, a) && Leads(next, acts, e)
    requires var s' := Apply(s, a);
      && s'.list == next.list && s'.subs == next.subs && s'.threads == next.threads && s'.publishers == next.publishers
      && s'.capacity == next.capacity && s'.blocking == next.blocking
    ensures Leads(s, all, e)
  {
    all := [a] + acts;
    assert all[1..] == acts && Apply(s, a) == next;
  }

  /** The few lists that occur below. */
  lemma Sums()
    ensures forall x: nat :: [] + [x] == [x] && [x][1..] == []
    ensures forall x: nat, y: nat :: [x] + [y] == [x, y] && [x, y][1..] == [y]
    ensures [0, 1] + [2] == [0, 1, 2]
    ensures Select([0], [0], false) == [] && Select([0], [0], true) == [0]
  {
    assert [0][1..] == [];
  }

  /** One subscriber with room for one event, two threads. */
  function Small(list: seq<SubId>, sub: Sub, a: Thread, b: Thread, publishers: seq<ThreadId>): State {
    State(1, false, list, [sub], [a, b], publishers)
  }

  const EMPTY := State(1, false, [], [], [Idle, Idle], [])
  const TOLD := Sub(false, 0, [0], [0], {}, 0)
  const FULL := Sub(false, 0, [0], [0, 1], {1}, 0)
  const READ := Sub(false, 1, [0], [0, 1, 2], {1}, 0)
  const GAPPED := Sub(false, 1, [0, 2], [0, 1, 2], {1}, 0)

  /** The first event arrives. */
  lemma FirstArrives(acts: seq<Action>, e: State) returns (all: seq<Action>)
    requires Leads(Small([0], TOLD, Idle, Idle, [0]), acts, e)
    ensures Leads(EMPTY, all, e)
  {
    Sums();
    var blank := Sub(false, 0, [], [], {}, 0);
    assert [] + [blank] == [blank];
    var s1 := Small([0], blank, Idle, Idle, []);
    var s2 := Small([0], blank.(due := [0]), Sending(0, false, [0], []), Idle, [0]);
    var s3 := Small([0], TOLD, Sending(0, false, [], []), Idle, [0]);
    all := First(s3, CleanUp(0), Small([0], TOLD, Idle, Idle, [0]), acts, e);
    all := First(s2, Deliver(0, true), s3, all, e);
    all := First(s1, Publish(0, false), s2, all, e);
    all := First(EMPTY, Register, s1, all, e);
  }

  /** The second finds the queue full. */
  lemma SecondIsRefused(acts: seq<Action>, e: State) returns (all: seq<Action>)
    requires Leads(Small([0], FULL, Sending(1, false, [], [0]), Idle, [0, 0]), acts, e)
    ensures Leads(Small([0], TOLD, Idle, Idle, [0]), all, e)
  {
    Sums();
    var s1 := Small([0], TOLD.(due := [0, 1]), Sending(1, false, [0], []), Idle, [0, 0]);
    assert TOLD.missed + {1} == {1};
    all := First(s1, Deliver(0, false), Small([0], FULL, Sending(1, false, [], [0]), Idle, [0, 0]), acts, e);
    all := First(Small([0], TOLD, Idle, Idle, [0]), Publish(0, false), s1, all, e);
  }

  const LOST := Small([], GAPPED.(closed := true), Idle, Idle, [0, 0, 1])

  /** One event is read, and another call sends the third. */
  lemma ThenOneMore(acts: seq<Action>) returns (all: seq<Action>)
    requires Leads(Small([0], GAPPED, Sending(1, false, [], [0]), Idle, [0, 0, 1]), acts, LOST)
    ensures Leads(Small([0], FULL, Sending(1, false, [], [0]), Idle, [0, 0]), all, LOST)
  {
    Sums();
    var s1 := Small([0], FULL.(received := 1), Sending(1, false, [], [0]), Idle, [0, 0]);
    var s2 := Small([0], READ, Sending(1, false, [], [0]), Sending(2, false, [0], []), [0, 0, 1]);
    var s3 := Small([0], GAPPED, Sending(1, false, [], [0]), Sending(2, false, [], []), [0, 0, 1]);
    var s4 := Small([0], GAPPED, Sending(1, false, [], [0]), Idle, [0, 0, 1]);
    all := First(s3, CleanUp(1), s4, acts, LOST);
    all := First(s2, Deliver(1, true), s3, all, LOST);
    all := First(s1, Publish(1, false), s2, all, LOST);
    all := First(Small([0], FULL, Sending(1, false, [], [0]), Idle, [0, 0]), Receive(0), s1, all, LOST);
  }

  /** Only then it is dropped. */
  lemma ThenDropped() returns (all: seq<Action>)
    ensures Leads(Small([0], GAPPED, Sending(1, false, [], [0]), Idle, [0, 0, 1]), all, LOST)
  {
    Sums();
    var s5 := Small([], GAPPED, Closing(None, [0]), Idle, [0, 0, 1]);
    var s6 := Small([], GAPPED.(closed := true), Closing(None, []), Idle, [0, 0, 1]);
    all := First(s6, CloseNext(0), LOST, [], LOST);
    all := First(s5, CloseNext(0), s6, all, LOST);
    all := First(Small([0], GAPPED, Sending(1, false, [], [0]), Idle, [0, 0, 1]), CleanUp(0), s5, all, LOST);
  }

  /** An event refused because the queue was full, and the next one accepted before the
      subscriber is dropped: it saw the first and the third. */
  lemma OverlapLeavesAGap() returns (acts: seq<Action>)
    ensures Initial(EMPTY) && Legal(EMPTY, acts)
    ensures var e := Run(EMPTY, acts);
      Quiet(e) && |e.subs| == 1 && e.subs[0].accepted == [0, 2] && e.subs[0].due == [0, 1, 2] && e.subs[0].closed
  {
    acts := ThenDropped();
    acts := ThenOneMore(acts);
    acts := SecondIsRefused(acts, LOST);
    acts := FirstArrives(acts, LOST);
  }

  /** Two subscribers with room, two threads. */
  function Pair(x: seq<nat>, y: seq<nat>, due: seq<nat>, a: Thread, b: Thread, publishers: seq<ThreadId>): State {
    State(2, false, [0, 1], [Sub(false, 0, x, due, {}, 0), Sub(false, 0, y, due, {}, 0)], [a, b], publishers)
  }

  /** Two notifications under way at once reach two subscribers in opposite orders. */
  lemma OverlapReorders() returns (s: State, acts: seq<Action>)
    ensures Initial(s) && Legal(s, acts)
    ensures var e := Run(s, acts);
      Quiet(e) && |e.subs| == 2 && e.subs[0].accepted == [0, 1] && e.subs[1].accepted == [1, 0]
  {
    s := State(2, false, [], [], [Idle, Idle], []);
    acts := SecondOvertakes();
    acts := FirstGetsBoth(acts);
    acts := BothUnderWay(acts);
    acts := TwoRegister(acts, REORDERED);
  }

  const REORDERED := Pair([0, 1], [1, 0], [0, 1], Idle, Idle, [0, 1])

  lemma TwoRegister(acts: seq<Action>, e: State) returns (all: seq<Action>)
    requires Leads(Pair([], [], [], Idle, Idle, []), acts, e)
    ensures Leads(State(2, false, [], [], [Idle, Idle], []), all, e)
  {
    Sums();
    var sub := Sub(false, 0, [], [], {}, 0);
    var s1 := State(2, false, [0], [sub], [Idle, Idle], []);
    assert [] + [sub] == [sub] && [sub] + [sub] == [sub, sub];
    all := First(s1, Register, Pair([], [], [], Idle, Idle, []), acts, e);
    all := First(State(2, false, [], [], [Idle, Idle], []), Register, s1, all, e);
  }

  /** Both calls have copied the list. */
  lemma BothUnderWay(acts: seq<Action>) returns (all: seq<Action>)
    requires Leads(Pair([], [], [0, 1], Sending(0, false, [0, 1], []), Sending(1, false, [0, 1], []), [0, 1]), acts,
                   REORDERED)
    ensures Leads(Pair([], [], [], Idle, Idle, []), all, REORDERED)
  {
    Sums();
    var s1 := Pair([], [], [0], Sending(0, false, [0, 1], []), Idle, [0]);
    var s2 := Pair([], [], [0, 1], Sending(0, false, [0, 1], []), Sending(1, false, [0, 1], []), [0, 1]);
    all := First(s1, Publish(1, false), s2, acts, REORDERED);
    all := First(Pair([], [], [], Idle, Idle, []), Publish(0, false), s1, all, REORDERED);
  }

  /** The first subscriber gets both events. */
  lemma FirstGetsBoth(acts: seq<Action>) returns (all: seq<Action>)
    requires Leads(Pair([0, 1], [], [0, 1], Sending(0, false, [1], []), Sending(1, false, [1], []), [0, 1]), acts, REORDERED)
    ensures Leads(Pair([], [], [0, 1], Sending(0, false, [0, 1], []), Sending(1, false, [0, 1], []), [0, 1]), all, REORDERED)
  {
    Sums();
    var s1 := Pair([0], [], [0, 1], Sending(0, false, [1], []), Sending(1, false, [0, 1], []), [0, 1]);
    var s2 := Pair([0, 1], [], [0, 1], Sending(0, false, [1], []), Sending(1, false, [1], []), [0, 1]);
    all := First(s1, Deliver(1, true), s2, acts, REORDERED);
    all := First(Pair([], [], [0, 1], Sending(0, false, [0, 1], []), Sending(1, false, [0, 1], []), [0, 1]), Deliver(0, true), s1, all,
                 REORDERED);
  }

  lemma SecondOvertakes() returns (acts: seq<Action>)
    ensures Leads(Pair([0, 1], [], [0, 1], Sending(0, false, [1], []), Sending(1, false, [1], []), [0, 1]), acts, REORDERED)
  {
    Sums();
    var s1 := Pair([0, 1], [1], [0, 1], Sending(0, false, [1], []), Sending(1, false, [], []), [0, 1]);
    var s2 := Pair([0, 1], [1, 0], [0, 1], Sending(0, false, [], []), Sending(1, false, [], []), [0, 1]);
    var s3 := Pair([0, 1], [1, 0], [0, 1], Sending(0, false, [], []), Idle, [0, 1]);
    acts := First(s3, CleanUp(0), REORDERED, [], REORDERED);
    acts := First(s2, CleanUp(1), s3, acts, REORDERED);
    acts := First(s1, Deliver(0, true), s2, acts, REORDERED);
    acts := First(Pair([0, 1], [], [0, 1], Sending(0, false, [1], []), Sending(1, false, [1], []), [0, 1]), Deliver(1, true), s1, acts,
                  REORDERED);
  }

  // ---------------------------------------------------------------------------------------
  // The end of a final update

  /** A final update is about to take all subscribers off and close them. */
  predicate AboutToEnd(s: State, t: ThreadId) { t < |s.threads| && s.threads[t].Ending? }

  /** A subscriber it is going to close has been sent the final event, or has refused it, if and
      only if it did not register after the update copied the list. */
  lemma FinalEventReaches(s: State, acts: seq<Action>, t: ThreadId, x: SubId)
    requires Initial(s) && Legal(s, acts) && AboutToEnd(Run(s, acts), t) && x in Run(s, acts).list
    ensures var e := Run(s, acts); var n := e.threads[t].n;
      && x < |e.subs|
      && (n in e.subs[x].accepted || n in e.subs[x].missed <==> e.subs[x].born <= n)
      && (e.subs[x].born <= n && !e.subs[x].closed && !BeingDropped(e, x) && !BeingClosed(e, x) ==>
            n in e.subs[x].accepted)
  {
    InitialInv(s);
    RunInv(s, acts);
    var e := Run(s, acts);
    var i :| 0 <= i < |e.list| && e.list[i] == x;
    assert ThreadOk(e, t) && SubOk(e, x) && Watched(e, x);
    assert !Pending(e, x, e.threads[t].n);
  }

  /** One thread, and what it does when a subscriber has registered too late. */
  function Late(list: seq<SubId>, closed: bool, thread: Thread): State {
    State(1, false, list, [Sub(closed, 0, [], [], {}, 1)], [thread], [0])
  }

  lemma LateIsClosed() returns (acts: seq<Action>)
    ensures Leads(Late([0], false, Ending(0)), acts, Late([], true, Idle))
  {
    Sums();
    var e := Late([], true, Idle);
    var s1, s2 := Late([], false, Closing(None, [0])), Late([], true, Closing(None, []));
    acts := First(s2, CloseNext(0), e, [], e);
    acts := First(s1, CloseNext(0), s2, acts, e);
    acts := First(Late([0], false, Ending(0)), TakeAll(0), s1, acts, e);
  }

  /** A subscriber that registers between: it is closed without an event. */
  lemma LateSubscriberMissesTheFinal() returns (s: State, acts: seq<Action>)
    ensures Initial(s) && Legal(s, acts)
    ensures var e := Run(s, acts);
      && Quiet(e) && e.publishers == [0] && |e.subs| == 1
      && e.subs[0].closed && e.subs[0].accepted == [] && e.subs[0].born == 1
  {
    Sums();
    var late := Sub(false, 0, [], [], {}, 1);
    assert [] + [late] == [late];
    s := State(1, false, [], [], [Idle], []);
    var s1 := State(1, false, [], [], [Ending(0)], [0]);
    acts := LateIsClosed();
    acts := First(s1, Register, Late([0], false, Ending(0)), acts, Late([], true, Idle));
    acts := First(s, Publish(0, true), s1, acts, Late([], true, Idle));
  }

  // ---------------------------------------------------------------------------------------
  // Blocking subscribers

  /** No queue overflows, and a blocking subscriber misses an event only when it is closed. */
  ghost predicate Patient(s: State) {
    forall x: nat :: x < |s.subs| ==>
      && s.subs[x].received <= |s.subs[x].accepted| <= s.subs[x].received + s.capacity
      && (s.blocking && s.subs[x].missed != {} ==> s.subs[x].closed)
  }

  lemma PatientStep(s: State, a: Action)
    requires Patient(s) && Enabled(s, a)
    ensures Patient(Apply(s, a)) && Apply(s, a).blocking == s.blocking
  {
  }

  lemma {:induction false} StaysPatient(s: State, acts: seq<Action>)
    requires Patient(s) && Legal(s, acts)
    ensures Patient(Run(s, acts)) && Run(s, acts).blocking == s.blocking
    decreases |acts|
  {
    if acts != [] {
      PatientStep(s, acts[0]);
      StaysPatient(Apply(s, acts[0]), acts[1..]);
    }
  }

  /** An open blocking subscriber has lost nothing, however notifications overlap: each event
      published since it was listed it has accepted, or its call is still about to send it. */
  lemma BlockingLosesNothing(s: State, acts: seq<Action>, x: SubId)
    requires Initial(s) && s.blocking && Legal(s, acts)
    ensures var e := Run(s, acts);
      x < |e.subs| ==>
        && |e.subs[x].accepted| <= e.subs[x].received + e.capacity
        && (!e.subs[x].closed ==> forall n :: n in e.subs[x].due <==> n in e.subs[x].accepted || Pending(e, x, n))
  {
    InitialInv(s);
    RunInv(s, acts);
    StaysPatient(s, acts);
    var e := Run(s, acts);
    if x < |e.subs| {
      assert SubOk(e, x);
    }
  }

  /** At the next subscriber of its list a notification waits exactly when that one blocks, is open
      and has no room. */
  lemma OnlyBlockingSendsWait(s: State, t: ThreadId)
    requires t < |s.threads| && s.threads[t].Sending? && s.threads[t].rest != [] && s.threads[t].rest[0] < |s.subs|
    ensures var sub := s.subs[s.threads[t].rest[0]];
      (exists ok :: Enabled(s, Deliver(t, ok)))
      <==> !(s.blocking && !sub.closed && |sub.accepted| >= sub.received + s.capacity)
  {
    var sub := s.subs[s.threads[t].rest[0]];
    assert Enabled(s, Deliver(t, true)) <==> !sub.closed && sub.Room(s.capacity);
    assert Enabled(s, Deliver(t, false)) <==> sub.closed || (!s.blocking && !sub.Room(s.capacity));
  }
}
