/** What holds of the registry after any sequence of operations, and what single operations promise. */
module RegistryRuns {
  import opened Wrappers
  import opened Protocol
  import opened Registry

  // ---------------------------------------------------------------------------------------
  // Fan-out

  lemma {:induction false} DeliverSpares<S, E>(subs: map<S, Subscriber<E>>, event: Event, targets: seq<S>, e: E,
                                               wait: nat -> Wait, s: S)
    requires AllIn(targets, subs) && s in subs && s !in targets
    ensures var d := Deliver(subs, event, targets, e, wait); d.subs[s] == subs[s] && s !in d.failed
    decreases |targets|
  {
    if targets != [] {
      DeliverSpares(subs, event, targets[..|targets| - 1], e, wait, s);
    }
  }

  /** Of distinct targets each gets the event once. */
  lemma {:induction false} DeliverReaches<S, E>(subs: map<S, Subscriber<E>>, event: Event, targets: seq<S>, e: E,
                                                wait: nat -> Wait, i: nat)
    requires AllIn(targets, subs) && Distinct(targets) && i < |targets|
    ensures var d := Deliver(subs, event, targets, e, wait); var x := subs[targets[i]];
      d.subs[targets[i]] == Sent(x, e, wait(i)) && (targets[i] in d.failed <==> Rejects(x, wait(i)))
    decreases |targets|
  {
    var n := |targets| - 1;
    if i < n {
      DeliverReaches(subs, event, targets[..n], e, wait, i);
      assert targets[i] != targets[n];
    } else {
      DeliverSpares(subs, event, targets[..n], e, wait, targets[n]);
    }
  }

  lemma {:induction false} WithoutMembers<S>(xs: seq<S>, gone: seq<S>)
    ensures forall s :: s in Without(xs, gone) <==> s in xs && s !in gone
    ensures forall s :: s in Within(xs, gone) <==> s in xs && s in gone
    ensures Within(xs, gone) == [] ==> Without(xs, gone) == xs
    decreases |xs|
  {
    if xs != [] {
      var n := |xs| - 1;
      WithoutMembers(xs[..n], gone);
      assert xs == xs[..n] + [xs[n]];
    }
  }

  lemma {:induction false} WithinMembers<S>(xs: seq<S>, gone: seq<S>)
    ensures forall i :: 0 <= i < |Within(xs, gone)| ==> Within(xs, gone)[i] in xs && Within(xs, gone)[i] in gone
    decreases |xs|
  {
    if xs != [] {
      var n := |xs| - 1;
      WithinMembers(xs[..n], gone);
      assert xs == xs[..n] + [xs[n]];
    }
  }

  /** The positions of those that stay. */
  ghost function KeptAt<S>(xs: seq<S>, gone: seq<S>): seq<nat> {
    if xs == [] then []
    else KeptAt(xs[..|xs| - 1], gone) + if xs[|xs| - 1] in gone then [] else [|xs| - 1]
  }

  lemma {:induction false} KeptElements<S>(xs: seq<S>, gone: seq<S>)
    ensures var at := KeptAt(xs, gone);
      && |at| == |Without(xs, gone)|
      && forall k :: 0 <= k < |at| ==> at[k] < |xs| && xs[at[k]] == Without(xs, gone)[k]
    decreases |xs|
  {
    if xs != [] {
      KeptElements(xs[..|xs| - 1], gone);
    }
  }

  ghost predicate Increasing(at: seq<nat>, bound: nat) {
    && (forall k :: 0 <= k < |at| ==> at[k] < bound)
    && (forall j, k :: 0 <= j < k < |at| ==> at[j] < at[k])
  }

  lemma {:induction false} KeptInOrder<S>(xs: seq<S>, gone: seq<S>)
    ensures Increasing(KeptAt(xs, gone), |xs|)
    decreases |xs|
  {
    if xs != [] {
      KeptInOrder(xs[..|xs| - 1], gone);
    }
  }

  lemma {:induction false} KeptAll<S>(xs: seq<S>, gone: seq<S>, i: nat)
    requires i < |xs|
    ensures i in KeptAt(xs, gone) <==> xs[i] !in gone
    decreases |xs|
  {
    var n := |xs| - 1;
    var front := KeptAt(xs[..n], gone);
    KeptElements(xs[..n], gone);
    assert forall k :: 0 <= k < |front| ==> front[k] < n;
    var more: seq<nat> := if xs[n] in gone then [] else [n];
    assert KeptAt(xs, gone) == front + more;
    assert n in more <==> xs[n] !in gone;
    if i < n {
      KeptAll(xs[..n], gone, i);
      assert i !in more;
    } else {
      assert n !in front;
    }
  }

  /** Failed-subscriber cleanup is a stable filter: what stays stays in its order. */
  lemma WithoutIsStable<S>(xs: seq<S>, gone: seq<S>) returns (at: seq<nat>)
    ensures |at| == |Without(xs, gone)|
    ensures Increasing(at, |xs|) && forall k :: 0 <= k < |at| ==> xs[at[k]] == Without(xs, gone)[k]
    ensures forall i :: 0 <= i < |xs| ==> (i in at <==> xs[i] !in gone)
  {
    at := KeptAt(xs, gone);
    KeptElements(xs, gone);
    KeptInOrder(xs, gone);
    forall i | 0 <= i < |xs| ensures i in at <==> xs[i] !in gone {
      KeptAll(xs, gone, i);
    }
  }

  lemma WithoutDistinct<S>(xs: seq<S>, gone: seq<S>)
    requires Distinct(xs)
    ensures Distinct(Without(xs, gone))
  {
    var at := WithoutIsStable(xs, gone);
    forall j, k | 0 <= j < k < |at| ensures Without(xs, gone)[j] != Without(xs, gone)[k] {
      assert at[j] < at[k];
    }
  }

  /** A subscriber after an event was published for its task. */
  function AfterEvent<E>(x: Subscriber<E>, e: E, wait: Wait): Subscriber<E> {
    if Rejects(x, wait) then Sent(x, e, wait).(closed := true) else Sent(x, e, wait)
  }

  lemma DropFailedEffect<S, E>(r: Registry<S, E>, id: string, failed: seq<S>, s: S)
    requires s in r.subs
    ensures var r' := DropFailed(r, id, failed);
      && r'.subs.Keys == r.subs.Keys
      && r'.subs[s] == (if s in r.Listed(id) && s in failed then r.subs[s].(closed := true) else r.subs[s])
      && (s in r'.Listed(id) <==> s in r.Listed(id) && s !in failed)
  {
    WithoutMembers(r.Listed(id), failed);
  }

  lemma DropFailedLists<S, E>(r: Registry<S, E>, id: string, failed: seq<S>)
    requires Distinct(r.Listed(id)) && (id in r.subscribers ==> r.Listed(id) != [])
    ensures var r' := DropFailed(r, id, failed);
      && (forall other :: other != id ==> r'.Listed(other) == r.Listed(other))
      && (forall other :: other in r'.subscribers ==> other in r.subscribers)
      && (id in r'.subscribers ==> r'.Listed(id) != [])
      && Distinct(r'.Listed(id)) && (forall s :: s in r'.Listed(id) ==> s in r.Listed(id))
      && r'.subs.Keys == r.subs.Keys
  {
    var xs := r.Listed(id);
    WithoutMembers(xs, failed);
    WithoutDistinct(xs, failed);
    assert DropFailed(r, id, failed).Listed(id) == Without(xs, failed);
  }

  lemma ListedForItsTask<S, E>(r: Registry<S, E>, id: string, s: S)
    requires Lists(r) && s in r.Listed(id)
    ensures s in r.subs && r.subs[s].taskID == id
  {
    assert ListOk(r, id, r.subscribers[id]);
  }

  lemma ListedAreThere<S, E>(r: Registry<S, E>, id: string)
    requires Lists(r)
    ensures AllIn(r.Listed(id), r.subs) && Distinct(r.Listed(id))
  {
    assert id in r.subscribers ==> ListOk(r, id, r.subscribers[id]);
  }

  /** The state after the sends, before failed subscribers are dropped. */
  ghost function Delivered<S, E>(r: Registry<S, E>, id: string, e: E, event: Event, wait: nat -> Wait): Registry<S, E>
    requires AllIn(r.Listed(id), r.subs)
  {
    var d := Deliver(r.subs, event, r.Listed(id), e, wait);
    r.(subs := d.subs, events := r.events[e := d.event], log := r.log[id := r.Log(id) + [e]])
  }

  lemma {:induction false} WithinNone<S>(xs: seq<S>)
    ensures Within(xs, []) == []
    decreases |xs|
  {
    if xs != [] {
      WithinNone(xs[..|xs| - 1]);
    }
  }

  lemma NoneDropped<S, E>(r: Registry<S, E>, id: string)
    ensures DropFailed(r, id, []) == r
  {
    WithinNone(r.Listed(id));
    assert CloseAll(r.subs, []) == r.subs;
  }

  /** Who is not on the list notices nothing. */
  lemma PublishSpares<S, E>(r: Registry<S, E>, id: string, e: E, event: Event, wait: nat -> Wait, s: S)
    requires AllIn(r.Listed(id), r.subs) && s in r.subs && s !in r.Listed(id)
    ensures var r' := Publish(r, id, e, event, wait);
      r'.subs.Keys == r.subs.Keys && r'.subs[s] == r.subs[s] && s !in r'.Listed(id)
  {
    DeliverSpares(r.subs, event, r.Listed(id), e, wait, s);
    DropFailedEffect(Delivered(r, id, e, event, wait), id, Deliver(r.subs, event, r.Listed(id), e, wait).failed, s);
  }

  /** Everyone on the list gets the event, or is closed and taken off the list. */
  lemma PublishReaches<S, E>(r: Registry<S, E>, id: string, e: E, event: Event, wait: nat -> Wait, i: nat)
    requires AllIn(r.Listed(id), r.subs) && Distinct(r.Listed(id)) && i < |r.Listed(id)|
    ensures var r' := Publish(r, id, e, event, wait); var s := r.Listed(id)[i];
      && r'.subs.Keys == r.subs.Keys
      && r'.subs[s] == AfterEvent(r.subs[s], e, wait(i))
      && (s in r'.Listed(id) <==> !Rejects(r.subs[s], wait(i)))
  {
    DeliverReaches(r.subs, event, r.Listed(id), e, wait, i);
    DropFailedEffect(Delivered(r, id, e, event, wait), id,
                     Deliver(r.subs, event, r.Listed(id), e, wait).failed, r.Listed(id)[i]);
  }

  lemma PublishFrame<S, E>(r: Registry<S, E>, id: string, e: E, event: Event, wait: nat -> Wait)
    requires AllIn(r.Listed(id), r.subs)
    ensures var r' := Publish(r, id, e, event, wait);
      && r'.tasks == r.tasks && r'.push == r.push && r'.cancelled == r.cancelled
      && r'.nextContext == r.nextContext && r'.lastWrite == r.lastWrite
      && r'.log == r.log[id := r.Log(id) + [e]]
  {
  }

  lemma CloseOneList<S, E>(r: Registry<S, E>, id: string)
    ensures CloseLists(r, {id}) == r.(subscribers := r.subscribers - {id}, subs := CloseAll(r.subs, r.Listed(id)))
  {
    var ids := {id};
    assert id in ids;
    forall s | s in r.subs ensures InLists(r, ids, s) <==> s in r.Listed(id) {
    }
  }

  // ---------------------------------------------------------------------------------------
  // Publishing keeps the invariant

  lemma PublishKeepsLists<S, E>(r: Registry<S, E>, id: string, e: E, event: Event, wait: nat -> Wait)
    requires Lists(r)
    ensures Lists(Publish(r, id, e, event, wait))
  {
    var r' := Publish(r, id, e, event, wait);
    var sent := Delivered(r, id, e, event, wait);
    DropFailedLists(sent, id, Deliver(r.subs, event, r.Listed(id), e, wait).failed);
    forall s | s in r.subs ensures r'.subs[s].taskID == r.subs[s].taskID {
      PublishKeepsTaskID(r, id, e, event, wait, s);
    }
    forall other | other in r'.subscribers ensures ListOk(r', other, r'.subscribers[other]) {
      assert ListOk(r, other, r.subscribers[other]);
      assert r'.Listed(other) == r'.subscribers[other] && r.Listed(other) == r.subscribers[other];
      forall i | 0 <= i < |r'.Listed(other)|
        ensures r'.Listed(other)[i] in r'.subs && r'.subs[r'.Listed(other)[i]].taskID == other
      {
        assert r'.Listed(other)[i] in r.Listed(other);
      }
    }
  }

  lemma PublishKeepsTaskID<S, E>(r: Registry<S, E>, id: string, e: E, event: Event,
                                                    wait: nat -> Wait, s: S)
    requires AllIn(r.Listed(id), r.subs) && Distinct(r.Listed(id)) && s in r.subs
    ensures var r' := Publish(r, id, e, event, wait);
      && s in r'.subs && r'.subs[s].taskID == r.subs[s].taskID
      && (r.subs[s].closed ==> r'.subs[s].closed)
  {
    if s in r.Listed(id) {
      var i :| 0 <= i < |r.Listed(id)| && r.Listed(id)[i] == s;
      PublishReaches(r, id, e, event, wait, i);
    } else {
      PublishSpares(r, id, e, event, wait, s);
    }
  }

  lemma PublishKeepsOpenListed<S, E>(r: Registry<S, E>, id: string, e: E, event: Event, wait: nat -> Wait)
    requires Lists(r) && OpenAreListed(r)
    ensures OpenAreListed(Publish(r, id, e, event, wait))
  {
    var r' := Publish(r, id, e, event, wait);
    var sent := Delivered(r, id, e, event, wait);
    DropFailedLists(sent, id, Deliver(r.subs, event, r.Listed(id), e, wait).failed);
    forall s | s in r'.subs && !r'.subs[s].closed ensures s in r'.Listed(r'.subs[s].taskID) {
      assert s in r.subs;
      PublishKeepsTaskID(r, id, e, event, wait, s);
      if r.subs[s].taskID == id {
        var i :| 0 <= i < |r.Listed(id)| && r.Listed(id)[i] == s;
        PublishReaches(r, id, e, event, wait, i);
      }
    }
  }

  lemma EventKeepsGapFree<E>(x: Subscriber<E>, log: seq<E>, e: E, wait: Wait)
    requires GapFree(x, log)
    ensures GapFree(AfterEvent(x, e, wait), log + [e])
  {
    var x' := AfterEvent(x, e, wait);
    assert (log + [e])[x.registeredAt..] == log[x.registeredAt..] + [e];
    if !Rejects(x, wait) {
      assert x'.received + x'.queue == x.received + x.queue + [e];
    }
  }

  lemma ClosedStaysGapFree<E>(x: Subscriber<E>, log: seq<E>, e: E)
    requires GapFree(x, log) && x.closed
    ensures GapFree(x, log + [e])
  {
    assert (log + [e])[x.registeredAt..] == log[x.registeredAt..] + [e];
  }

  lemma PublishKeepsOneGapFree<S, E>(r: Registry<S, E>, id: string, e: E, event: Event,
                                                        wait: nat -> Wait, s: S)
    requires Lists(r) && OpenAreListed(r) && s in r.subs && GapFree(r.subs[s], r.Log(r.subs[s].taskID))
    ensures var r' := Publish(r, id, e, event, wait);
      s in r'.subs && GapFree(r'.subs[s], if r'.subs[s].taskID == id then r.Log(id) + [e] else r.Log(r'.subs[s].taskID))
  {
    var x := r.subs[s];
    if s in r.Listed(id) {
      var i :| 0 <= i < |r.Listed(id)| && r.Listed(id)[i] == s;
      PublishReaches(r, id, e, event, wait, i);
      assert x.taskID == id;
      EventKeepsGapFree(x, r.Log(id), e, wait(i));
    } else {
      PublishSpares(r, id, e, event, wait, s);
      if x.taskID == id {
        ClosedStaysGapFree(x, r.Log(id), e);
      }
    }
  }

  lemma PublishKeepsFanOut<S, E>(r: Registry<S, E>, id: string, e: E, event: Event, wait: nat -> Wait)
    requires Lists(r) && OpenAreListed(r) && FanOut(r)
    ensures FanOut(Publish(r, id, e, event, wait))
  {
    var r' := Publish(r, id, e, event, wait);
    PublishFrame(r, id, e, event, wait);
    forall s | s in r'.subs ensures GapFree(r'.subs[s], r'.Log(r'.subs[s].taskID)) {
      assert s in r.subs;
      PublishKeepsOneGapFree(r, id, e, event, wait, s);
    }
  }

  // ---------------------------------------------------------------------------------------
  // The other primitive changes keep it

  lemma CloseListsKeeps<S, E>(r: Registry<S, E>, ids: set<string>)
    requires Lists(r) && OpenAreListed(r) && FanOut(r)
    ensures var r' := CloseLists(r, ids);
      && (forall id :: id in r'.subscribers ==> id !in ids && ListOk(r', id, r'.subscribers[id]))
      && OpenAreListed(r') && FanOut(r')
  {
    var r' := CloseLists(r, ids);
    forall id | id in r'.subscribers ensures id !in ids && ListOk(r', id, r'.subscribers[id]) {
      assert ListOk(r, id, r.subscribers[id]);
    }
    forall s | s in r'.subs && !r'.subs[s].closed ensures s in r'.Listed(r'.subs[s].taskID) {
      assert s in r.Listed(r.subs[s].taskID);
    }
  }

  lemma RemoveTasksKeeps<S, E>(r: Registry<S, E>, ids: set<string>, c: Config)
    requires Inv(r, c)
    ensures Inv(RemoveTasks(r, ids), c)
  {
    CloseListsKeeps(r, ids);
    var r', closed := RemoveTasks(r, ids), CloseLists(r, ids);
    forall id | id in r'.subscribers ensures ListOk(r', id, r'.subscribers[id]) {
      assert ListOk(closed, id, closed.subscribers[id]);
    }
    assert OpenAreListed(r') by {
      forall s | s in r'.subs && !r'.subs[s].closed ensures s in r'.Listed(r'.subs[s].taskID) {
        assert s in closed.Listed(closed.subs[s].taskID);
      }
    }
    assert FanOut(r');
  }

  lemma AttachKeepsLists<S, E>(r: Registry<S, E>, id: string, s: S, x: Subscriber<E>)
    requires Lists(r) && s !in r.subs && x.taskID == id
    ensures Lists(Attach(r, id, s, x))
  {
    var r' := Attach(r, id, s, x);
    forall other | other in r'.subscribers ensures ListOk(r', other, r'.subscribers[other]) {
      if other in r.subscribers {
        assert ListOk(r, other, r.subscribers[other]);
      }
    }
  }

  lemma AttachKeepsOpenListed<S, E>(r: Registry<S, E>, id: string, s: S, x: Subscriber<E>)
    requires OpenAreListed(r) && s !in r.subs && x.taskID == id
    ensures OpenAreListed(Attach(r, id, s, x))
  {
    var r' := Attach(r, id, s, x);
    forall t | t in r'.subs && !r'.subs[t].closed ensures t in r'.Listed(r'.subs[t].taskID) {
      if t != s {
        assert t in r.Listed(r.subs[t].taskID);
      }
    }
  }

  lemma AttachKeepsFanOut<S, E>(r: Registry<S, E>, id: string, s: S, x: Subscriber<E>)
    requires FanOut(r) && s !in r.subs && x.taskID == id && GapFree(x, r.Log(id))
    ensures FanOut(Attach(r, id, s, x))
  {
    var r' := Attach(r, id, s, x);
    forall t | t in r'.subs ensures GapFree(r'.subs[t], r'.Log(r'.subs[t].taskID)) {
      assert r'.Log(r'.subs[t].taskID) == r.Log(r'.subs[t].taskID);
    }
  }

  lemma SubscriberChangeKeepsLists<S, E>(r: Registry<S, E>, s: S, x: Subscriber<E>)
    requires Lists(r) && s in r.subs && x.taskID == r.subs[s].taskID
    ensures Lists(r.(subs := r.subs[s := x]))
  {
    var r' := r.(subs := r.subs[s := x]);
    forall id | id in r'.subscribers ensures ListOk(r', id, r'.subscribers[id]) {
      assert ListOk(r, id, r.subscribers[id]);
    }
  }

  lemma SubscriberChangeKeepsOpenListed<S, E>(r: Registry<S, E>, s: S, x: Subscriber<E>)
    requires OpenAreListed(r) && s in r.subs && x.taskID == r.subs[s].taskID && (r.subs[s].closed ==> x.closed)
    ensures OpenAreListed(r.(subs := r.subs[s := x]))
  {
    var r' := r.(subs := r.subs[s := x]);
    forall t | t in r'.subs && !r'.subs[t].closed ensures t in r'.Listed(r'.subs[t].taskID) {
      assert t in r.Listed(r.subs[t].taskID);
    }
  }

  lemma SubscriberChangeKeepsFanOut<S, E>(r: Registry<S, E>, s: S, x: Subscriber<E>)
    requires FanOut(r) && s in r.subs && GapFree(x, r.Log(x.taskID))
    ensures FanOut(r.(subs := r.subs[s := x]))
  {
    var r' := r.(subs := r.subs[s := x]);
    forall t | t in r'.subs ensures GapFree(r'.subs[t], r'.Log(r'.subs[t].taskID)) {
      assert r'.Log(r'.subs[t].taskID) == r.Log(r'.subs[t].taskID);
    }
  }

  /** A change to one subscriber that leaves its task and does not reopen it. */
  lemma SubscriberChangeKeeps<S, E>(r: Registry<S, E>, s: S, x: Subscriber<E>, c: Config)
    requires Inv(r, c) && s in r.subs && x.taskID == r.subs[s].taskID && (r.subs[s].closed ==> x.closed)
    requires GapFree(x, r.Log(x.taskID))
    ensures Inv(r.(subs := r.subs[s := x]), c)
  {
    SubscriberChangeKeepsLists(r, s, x);
    SubscriberChangeKeepsOpenListed(r, s, x);
    SubscriberChangeKeepsFanOut(r, s, x);
    TasksSame(r, r.(subs := r.subs[s := x]), c);
  }

  lemma TasksSame<S, E>(r: Registry<S, E>, r': Registry<S, E>, c: Config)
    requires TasksOk(r, c) && r'.tasks == r.tasks && r'.lastWrite == r.lastWrite
    requires r'.cancelled == r.cancelled && r'.nextContext == r.nextContext
    ensures TasksOk(r', c)
  {
  }

  lemma ReceivedKeepsGapFree<E>(x: Subscriber<E>, log: seq<E>)
    requires GapFree(x, log)
    ensures GapFree(Received(x), log)
  {
    if x.queue != [] {
      assert x.received + [x.queue[0]] + x.queue[1..] == x.received + x.queue;
    }
  }

  /** Changes to the tasks alone that keep every task and its context. */
  lemma TaskChangeKeeps<S, E>(r: Registry<S, E>, r': Registry<S, E>, c: Config)
    requires Inv(r, c) && r'.subscribers == r.subscribers && r'.subs == r.subs && r'.log == r.log
    requires Stamped(r', c) && Contexts(r')
    ensures Inv(r', c)
  {
    forall id | id in r'.subscribers ensures ListOk(r', id, r'.subscribers[id]) {
      assert ListOk(r, id, r.subscribers[id]);
    }
    assert OpenAreListed(r') by {
      forall s | s in r'.subs && !r'.subs[s].closed ensures s in r'.Listed(r'.subs[s].taskID) {
        assert s in r.Listed(r.subs[s].taskID);
      }
    }
    assert FanOut(r');
  }

  lemma PublishKeeps<S, E>(r: Registry<S, E>, id: string, e: E, event: Event, wait: nat -> Wait, c: Config)
    requires Inv(r, c)
    ensures Inv(Publish(r, id, e, event, wait), c)
  {
    PublishFrame(r, id, e, event, wait);
    PublishKeepsLists(r, id, e, event, wait);
    PublishKeepsOpenListed(r, id, e, event, wait);
    PublishKeepsFanOut(r, id, e, event, wait);
    TasksSame(r, Publish(r, id, e, event, wait), c);
  }

  // ---------------------------------------------------------------------------------------
  // Every operation, and every run

  lemma WriteStatusKeeps<S, E>(r: Registry<S, E>, id: string, status: TaskStatus, now: int, c: Config)
    requires Inv(r, c) && id in r.tasks && status.timestamp == Stamp(c, now)
    ensures Inv(WriteStatus(r, id, status, now), c)
  {
    TaskChangeKeeps(r, WriteStatus(r, id, status, now), c);
  }

  lemma UpdateKeeps<S, E>(r: Registry<S, E>, id: string, status: TaskStatus, now: int, e: E,
                                             wait: nat -> Wait, c: Config)
    requires Inv(r, c) && id in r.tasks && status.timestamp == Stamp(c, now)
    ensures Inv(Update(r, id, status, now, e, wait), c)
  {
    var written := WriteStatus(r, id, status, now);
    var event := StatusUpdate(written.tasks[id].task);
    WriteStatusKeeps(r, id, status, now, c);
    PublishKeeps(written, id, e, event, wait, c);
    CloseListsInv(Publish(written, id, e, event, wait), {id}, c);
  }

  lemma CloseListsInv<S, E>(r: Registry<S, E>, ids: set<string>, c: Config)
    requires Inv(r, c)
    ensures Inv(CloseLists(r, ids), c)
  {
    CloseListsKeeps(r, ids);
    TasksSame(r, CloseLists(r, ids), c);
  }

  lemma WithArtifactKeeps<S, E>(r: Registry<S, E>, id: string, a: Artifact, c: Config)
    requires Inv(r, c) && id in r.tasks
    ensures Inv(WithArtifact(r, id, a), c)
  {
    TaskChangeKeeps(r, WithArtifact(r, id, a), c);
  }

  lemma AddArtifactKeeps<S, E>(r: Registry<S, E>, id: string, a: Artifact, isFinal: bool,
                                                  needMoreData: bool, e: E, wait: nat -> Wait, c: Config)
    requires Inv(r, c) && id in r.tasks
    ensures Inv(ArtifactAdded(r, id, a, isFinal, needMoreData, e, wait), c)
  {
    WithArtifactKeeps(r, id, a, c);
    PublishKeeps(WithArtifact(r, id, a), id, e,
                 ArtifactUpdate(id, r.tasks[id].task.contextID, a, isFinal, needMoreData), wait, c);
  }

  lemma BuildKeeps<S, E>(r: Registry<S, E>, id: string, context: string, now: int, c: Config)
    requires Inv(r, c) && id !in r.tasks
    ensures Inv(Build(r, id, context, now, c), c)
  {
    TaskChangeKeeps(r, Build(r, id, context, now, c), c);
  }

  /** Removing one task, step by step. */
  lemma RemoveOneTask<S, E>(r: Registry<S, E>, id: string)
    requires id in r.tasks
    ensures RemoveTasks(r, {id})
         == r.(tasks := r.tasks - {id}, cancelled := r.cancelled + {r.tasks[id].context},
               subscribers := r.subscribers - {id}, subs := CloseAll(r.subs, r.Listed(id)))
  {
    CloseOneList(r, id);
    assert ContextsOf(r.tasks, {id}) == {r.tasks[id].context};
  }

  lemma ContextsOfOneMore(tasks: map<string, Entry>, ids: set<string>, id: string)
    requires id in tasks
    ensures ContextsOf(tasks, ids + {id}) == ContextsOf(tasks, ids) + {tasks[id].context}
  {
    var more := ContextsOf(tasks, ids + {id});
    assert forall n :: n in more <==> n in ContextsOf(tasks, ids) || n == tasks[id].context;
  }

  lemma OneMore(ids: seq<string>, i: nat)
    requires i < |ids| && Distinct(ids)
    ensures ids[..i + 1][..i] == ids[..i] && ids[i] in Elements(ids) && ids[i] !in Elements(ids[..i])
    ensures Elements(ids[..i + 1]) == Elements(ids[..i]) + {ids[i]}
  {
    assert ids[..i + 1] == ids[..i] + [ids[i]];
  }

  /** The members of several lists, list by list. */
  ghost function Collected<S>(subscribers: map<string, seq<S>>, ids: seq<string>): seq<S> {
    if ids == [] then []
    else
      var n := |ids| - 1;
      Collected(subscribers, ids[..n]) + if ids[n] in subscribers then subscribers[ids[n]] else []
  }

  lemma {:induction false} CollectedMembers<S, E>(r: Registry<S, E>, ids: seq<string>, s: S)
    ensures s in Collected(r.subscribers, ids) <==> InLists(r, Elements(ids), s)
    decreases |ids|
  {
    if ids != [] {
      var n := |ids| - 1;
      CollectedMembers(r, ids[..n], s);
      assert ids == ids[..n] + [ids[n]];
      assert ids[n] in Elements(ids);
      assert forall id :: id in Elements(ids) <==> id in Elements(ids[..n]) || id == ids[n];
    }
  }

  /** Removing many tasks, step by step. */
  lemma RemoveManyTasks<S, E>(r: Registry<S, E>, ids: seq<string>)
    ensures RemoveTasks(r, Elements(ids))
         == r.(tasks := r.tasks - Elements(ids), cancelled := r.cancelled + ContextsOf(r.tasks, Elements(ids)),
               subscribers := r.subscribers - Elements(ids), subs := CloseAll(r.subs, Collected(r.subscribers, ids)))
  {
    forall s | s in r.subs ensures s in Collected(r.subscribers, ids) <==> InLists(r, Elements(ids), s) {
      CollectedMembers(r, ids, s);
    }
    assert CloseLists(r, Elements(ids)).subs == CloseAll(r.subs, Collected(r.subscribers, ids));
  }

  lemma {:induction false} CollectedAreThere<S, E>(r: Registry<S, E>, ids: seq<string>)
    requires Lists(r)
    ensures AllIn(Collected(r.subscribers, ids), r.subs)
    decreases |ids|
  {
    if ids != [] {
      var n := |ids| - 1;
      CollectedAreThere(r, ids[..n]);
      ListedAreThere(r, ids[n]);
    }
  }

  /** Stopping the manager, step by step; `ids` are the tasks with a list, in any order. */
  lemma ShutdownSteps<S, E>(r: Registry<S, E>, ids: seq<string>)
    requires Elements(ids) == r.subscribers.Keys
    ensures Shutdown(r)
         == r.(tasks := map[], subscribers := map[], cancelled := r.cancelled + ContextsOf(r.tasks, r.tasks.Keys),
               subs := CloseAll(r.subs, Collected(r.subscribers, ids)))
  {
    var all := r.tasks.Keys + r.subscribers.Keys;
    forall s | s in r.subs ensures s in Collected(r.subscribers, ids) <==> InLists(r, all, s) {
      CollectedMembers(r, ids, s);
      assert InLists(r, Elements(ids), s) <==> InLists(r, all, s);
    }
    assert CloseLists(r, all).subs == CloseAll(r.subs, Collected(r.subscribers, ids));
    assert ContextsOf(r.tasks, all) == ContextsOf(r.tasks, r.tasks.Keys);
  }

  lemma ShutdownKeeps<S, E>(r: Registry<S, E>, c: Config)
    requires Inv(r, c)
    ensures Inv(Shutdown(r), c)
  {
    RemoveTasksKeeps(r, r.tasks.Keys + r.subscribers.Keys, c);
  }

  lemma SweepKeeps<S, E>(r: Registry<S, E>, now: int, maxAge: int, c: Config)
    requires Inv(r, c)
    ensures Inv(Sweep(r, now, maxAge, c), c)
  {
    var gone := ExpiredTasks(r.tasks, now, maxAge, c);
    RemoveTasksKeeps(r, gone, c);
    PushChangeKeeps(RemoveTasks(r, gone), r.push - gone, c);
  }

  lemma CleanKeeps<S, E>(r: Registry<S, E>, id: string, c: Config)
    requires Inv(r, c) && id in r.tasks
    ensures Inv(Clean(r, id), c)
  {
    RemoveTasksKeeps(r, {id}, c);
    PushChangeKeeps(RemoveTasks(r, {id}), r.push - {id}, c);
  }

  lemma PushChangeKeeps<S, E>(r: Registry<S, E>, push: map<string, PushConfig>, c: Config)
    requires Inv(r, c)
    ensures Inv(r.(push := push), c)
  {
    TaskChangeKeeps(r, r.(push := push), c);
  }

  lemma SubscribeKeeps<S, E>(r: Registry<S, E>, id: string, s: S, context: string, c: Config)
    requires Inv(r, c) && s !in r.subs
    ensures Inv(Attach(r, id, s, NewSubscriber(id, c.bufferSize, c.blocking, context, |r.Log(id)|)), c)
  {
    var x := NewSubscriber<E>(id, c.bufferSize, c.blocking, context, |r.Log(id)|);
    AttachKeepsLists(r, id, s, x);
    AttachKeepsOpenListed(r, id, s, x);
    AttachKeepsFanOut(r, id, s, x);
    TasksSame(r, Attach(r, id, s, x), c);
  }

  lemma StepInv<S, E>(r: Registry<S, E>, op: Op<S, E>, c: Config)
    requires Inv(r, c) && Allowed(r, op, c)
    ensures Inv(Step(r, op, c), c)
  {
    match op
    case BuildTask(id, freshID, context, now) =>
      if ActualID(id, freshID) !in r.tasks {
        BuildKeeps(r, ActualID(id, freshID), if context.Some? then context.value else "", now, c);
      }
    case UpdateTaskState(id, status, now, e, wait) =>
      if Named(id) && id.value in r.tasks {
        UpdateKeeps(r, id.value, status, now, e, wait, c);
      }
    case AddTaskArtifact(id, a, isFinal, needMoreData, e, wait) =>
      if Named(id) && id.value in r.tasks {
        AddArtifactKeeps(r, id.value, a, isFinal, needMoreData, e, wait, c);
      }
    case CleanTask(id) =>
      if Named(id) && id.value in r.tasks {
        CleanKeeps(r, id.value, c);
      }
    case SetPush(config) => PushChangeKeeps(r, r.push[config.taskID := config], c);
    case CleanExpiredTasks(now, maxAge) =>
      SweepKeeps(r, now, maxAge, c);
    case CloseManager => ShutdownKeeps(r, c);
    case AddSubscriber(id, s, context) => SubscribeKeeps(r, id, s, context, c);
    case Resubscribe(id, s) =>
      if id in r.tasks {
        SubscribeKeeps(r, id, s, id, c);
      }
    case Receive(s) =>
      ReceivedKeepsGapFree(r.subs[s], r.Log(r.subs[s].taskID));
      SubscriberChangeKeeps(r, s, Received(r.subs[s]), c);
    case CloseSubscriber(s) =>
      SubscriberChangeKeeps(r, s, r.subs[s].(closed := true), c);
  }

  /** Every operation is allowed where it happens.  A run can only go on from well-formed lists;
      that they always are is proved below. */
  ghost predicate Legal<S, E>(r: Registry<S, E>, ops: seq<Op<S, E>>, c: Config)
    decreases |ops|
  {
    ops == [] || (Allowed(r, ops[0], c) && (Lists(r) ==> Legal(Step(r, ops[0], c), ops[1..], c)))
  }

  ghost function Run<S, E>(r: Registry<S, E>, ops: seq<Op<S, E>>, c: Config): Registry<S, E>
    requires Legal(r, ops, c)
    decreases |ops|
  {
    if ops == [] || !Lists(r) then r else Run(Step(r, ops[0], c), ops[1..], c)
  }

  lemma {:induction false} RunInv<S, E>(r: Registry<S, E>, ops: seq<Op<S, E>>, c: Config)
    requires Inv(r, c) && Legal(r, ops, c)
    ensures Inv(Run(r, ops, c), c)
    decreases |ops|
  {
    if ops != [] {
      StepInv(r, ops[0], c);
      RunInv(Step(r, ops[0], c), ops[1..], c);
    }
  }

  // ---------------------------------------------------------------------------------------
  // Main results

  /** After any run no list is empty or has a member twice, and an open subscriber is listed
      exactly once, for its own task. */
  lemma RegistryIsWellFormed<S, E>(ops: seq<Op<S, E>>, c: Config)
    requires Legal(Empty(), ops, c)
    ensures var r := Run(Empty(), ops, c);
      && (forall id :: id in r.subscribers ==> r.subscribers[id] != [] && Distinct(r.subscribers[id]))
      && (forall s :: s in r.subs && !r.subs[s].closed ==>
            forall id :: s in r.Listed(id) <==> id == r.subs[s].taskID)
  {
    RunInv(Empty(), ops, c);
    var r := Run(Empty(), ops, c);
    assert forall id :: id in r.subscribers ==> ListOk(r, id, r.subscribers[id]);
    forall s, id | s in r.subs && !r.subs[s].closed ensures s in r.Listed(id) <==> id == r.subs[s].taskID {
      if s in r.Listed(id) {
        ListedForItsTask(r, id, s);
      }
    }
  }

  /** The operation registers a subscriber for a task that is not there. */
  predicate RegistersLate<S, E>(r: Registry<S, E>, op: Op<S, E>) { op.AddSubscriber? && op.taskID !in r.tasks }

  /** A step leaves a list without its task if and only if it registers late. */
  lemma OnlyLateSubscriptionsOrphan<S, E>(r: Registry<S, E>, op: Op<S, E>, c: Config)
    requires Lists(r) && Allowed(r, op, c) && Live(r)
    ensures Live(Step(r, op, c)) <==> !RegistersLate(r, op)
  {
    match op
    case UpdateTaskState(id, status, now, e, wait) =>
      if Named(id) && id.value in r.tasks {
        var written := WriteStatus(r, id.value, status, now);
        ListedAreThere(r, id.value);
        PublishTasksAndLists(written, id.value, e, StatusUpdate(written.tasks[id.value].task), wait);
      }
    case AddTaskArtifact(id, a, isFinal, needMoreData, e, wait) =>
      if Named(id) && id.value in r.tasks {
        ListedAreThere(r, id.value);
        PublishTasksAndLists(WithArtifact(r, id.value, a), id.value, e,
                             ArtifactUpdate(id.value, r.tasks[id.value].task.contextID, a, isFinal, needMoreData), wait);
      }
    case AddSubscriber(id, s, context) =>
      assert id in Step(r, op, c).subscribers;
    case _ =>
  }

  lemma PublishTasksAndLists<S, E>(r: Registry<S, E>, id: string, e: E, event: Event, wait: nat -> Wait)
    requires AllIn(r.Listed(id), r.subs)
    ensures var r' := Publish(r, id, e, event, wait);
      r'.tasks == r.tasks && forall other :: other in r'.subscribers ==> other in r.subscribers || other == id
  {
  }

  ghost predicate AlwaysLive<S, E>(r: Registry<S, E>, ops: seq<Op<S, E>>, c: Config)
    requires Legal(r, ops, c)
    decreases |ops|
  {
    Live(r) && (ops == [] || !Lists(r) || AlwaysLive(Step(r, ops[0], c), ops[1..], c))
  }

  ghost predicate NeverLate<S, E>(r: Registry<S, E>, ops: seq<Op<S, E>>, c: Config)
    requires Legal(r, ops, c)
    decreases |ops|
  {
    ops == [] || !Lists(r) || (!RegistersLate(r, ops[0]) && NeverLate(Step(r, ops[0], c), ops[1..], c))
  }

  lemma {:induction false} LiveFrom<S, E>(r: Registry<S, E>, ops: seq<Op<S, E>>, c: Config)
    requires Inv(r, c) && Live(r) && Legal(r, ops, c)
    ensures AlwaysLive(r, ops, c) <==> NeverLate(r, ops, c)
    decreases |ops|
  {
    if ops != [] {
      OnlyLateSubscriptionsOrphan(r, ops[0], c);
      StepInv(r, ops[0], c);
      if Live(Step(r, ops[0], c)) {
        LiveFrom(Step(r, ops[0], c), ops[1..], c);
      }
    }
  }

  /** Throughout a run the lists belong to live tasks if and only if no subscription registers
      after its task has gone. */
  lemma ListsStayLive<S, E>(ops: seq<Op<S, E>>, c: Config)
    requires Legal(Empty(), ops, c)
    ensures AlwaysLive(Empty(), ops, c) <==> NeverLate(Empty(), ops, c)
  {
    LiveFrom(Empty(), ops, c);
  }

  /** A subscriber on a list without a task, and as open as it was. */
  ghost predicate StaysOrphaned<S, E>(r: Registry<S, E>, r': Registry<S, E>, id: string, s: S) {
    id !in r'.tasks && s in r'.Listed(id) && s in r.subs && s in r'.subs && r'.subs[s].closed == r.subs[s].closed
  }

  /** A list without its task stays, and its subscribers stay open, until the ID is built again or
      the manager is closed, unless they are closed from outside. */
  lemma OrphansStay<S, E>(r: Registry<S, E>, op: Op<S, E>, c: Config, id: string, s: S)
    requires Lists(r) && OpenAreListed(r) && Allowed(r, op, c) && id !in r.tasks && s in r.Listed(id)
    requires !op.CloseManager? && (op.CloseSubscriber? ==> op.sub != s)
    requires op.BuildTask? ==> ActualID(op.id, op.freshID) != id
    ensures StaysOrphaned(r, Step(r, op, c), id, s)
  {
    ListedForItsTask(r, id, s);
    if op.UpdateTaskState? || op.AddTaskArtifact? {
      PublishingSpares(r, op, c, id, s);
    } else if op.CleanTask? || op.CleanExpiredTasks? {
      RemovingSpares(r, op, c, id, s);
    }
  }

  lemma PublishingSpares<S, E>(r: Registry<S, E>, op: Op<S, E>, c: Config, id: string, s: S)
    requires Lists(r) && Allowed(r, op, c) && id !in r.tasks && s in r.Listed(id)
    requires op.UpdateTaskState? || op.AddTaskArtifact?
    ensures StaysOrphaned(r, Step(r, op, c), id, s)
  {
    ListedForItsTask(r, id, s);
    match op
    case UpdateTaskState(other, status, now, e, wait) =>
      if Named(other) && other.value in r.tasks {
        OtherUpdateSpares(r, other.value, status, now, e, wait, id, s);
      }
    case AddTaskArtifact(other, a, isFinal, needMoreData, e, wait) =>
      if Named(other) && other.value in r.tasks {
        OtherPublishSpares(WithArtifact(r, other.value, a), other.value, e,
          ArtifactUpdate(other.value, r.tasks[other.value].task.contextID, a, isFinal, needMoreData), wait, id, s);
      }
  }

  lemma RemovingSpares<S, E>(r: Registry<S, E>, op: Op<S, E>, c: Config, id: string, s: S)
    requires Lists(r) && OpenAreListed(r) && Allowed(r, op, c) && id !in r.tasks && s in r.Listed(id)
    requires op.CleanTask? || op.CleanExpiredTasks?
    ensures StaysOrphaned(r, Step(r, op, c), id, s)
  {
    ListedForItsTask(r, id, s);
    match op
    case CleanTask(other) =>
      if Named(other) && other.value in r.tasks {
        RemovalSpares(r, {other.value}, id, s);
      }
    case CleanExpiredTasks(now, maxAge) => RemovalSpares(r, ExpiredTasks(r.tasks, now, maxAge, c), id, s);
  }

  lemma RemovalSpares<S, E>(r: Registry<S, E>, ids: set<string>, id: string, s: S)
    requires Lists(r) && OpenAreListed(r) && id !in r.tasks && s in r.Listed(id) && id !in ids
    ensures StaysOrphaned(r, RemoveTasks(r, ids), id, s)
  {
    ListedForItsTask(r, id, s);
    RemovalCloses(r, ids, s);
  }

  lemma OtherPublishSpares<S, E>(r: Registry<S, E>, other: string, e: E, event: Event, wait: nat -> Wait,
                                                    id: string, s: S)
    requires Lists(r) && other != id && s in r.Listed(id)
    ensures AllIn(r.Listed(other), r.subs)
    ensures var r' := Publish(r, other, e, event, wait);
      r'.tasks == r.tasks && r'.Listed(id) == r.Listed(id) && s in r'.subs && r'.subs[s] == r.subs[s]
  {
    ListedAreThere(r, other);
    ListedForItsTask(r, id, s);
    if s in r.Listed(other) {
      ListedForItsTask(r, other, s);
    }
    PublishSpares(r, other, e, event, wait, s);
  }

  lemma OtherUpdateSpares<S, E>(r: Registry<S, E>, other: string, status: TaskStatus, now: int, e: E,
                                                   wait: nat -> Wait, id: string, s: S)
    requires Lists(r) && other in r.tasks && other != id && s in r.Listed(id)
    ensures AllIn(r.Listed(other), r.subs)
    ensures var r' := Update(r, other, status, now, e, wait);
      r'.tasks.Keys == r.tasks.Keys && r'.Listed(id) == r.Listed(id) && s in r'.subs && r'.subs[s] == r.subs[s]
  {
    var written := WriteStatus(r, other, status, now);
    var event := StatusUpdate(written.tasks[other].task);
    assert forall i :: i in written.subscribers ==> ListOk(r, i, r.subscribers[i]) && ListOk(written, i, written.subscribers[i]);
    OtherPublishSpares(written, other, e, event, wait, id, s);
    ListedAreThere(r, other);
    PublishKeepsLists(written, other, e, event, wait);
    var published := Publish(written, other, e, event, wait);
    if InLists(published, {other}, s) {
      ListedForItsTask(published, other, s);
      ListedForItsTask(published, id, s);
    }
  }

  /** A step leaves a push configuration without its task if and only if it sets one for a task
      that is not there, or stops a manager that has some. */
  lemma PushOutlivesTasks<S, E>(r: Registry<S, E>, op: Op<S, E>, c: Config)
    requires Lists(r) && Allowed(r, op, c) && PushLive(r)
    ensures PushLive(Step(r, op, c))
      <==> !(op.SetPush? && op.push.taskID !in r.tasks) && !(op.CloseManager? && r.push != map[])
  {
    match op
    case UpdateTaskState(id, status, now, e, wait) =>
      if Named(id) && id.value in r.tasks {
        ListedAreThere(r, id.value);
      }
    case AddTaskArtifact(id, a, isFinal, needMoreData, e, wait) =>
      if Named(id) && id.value in r.tasks {
        ListedAreThere(r, id.value);
      }
    case SetPush(config) =>
      assert config.taskID in Step(r, op, c).push;
    case CloseManager =>
      if r.push != map[] {
        var id :| id in r.push;
        assert id in Step(r, op, c).push;
      }
    case _ =>
  }

  /** The two of them, on the empty registry. */
  lemma PushWithoutTask<S, E>(config: PushConfig, now: int, c: Config)
    requires config.taskID != ""
    ensures var puts: seq<Op<S, E>> := [SetPush(config)];
      Legal(Empty(), puts, c) && !PushLive(Run(Empty(), puts, c))
    ensures var stop: seq<Op<S, E>> := [BuildTask(Some(config.taskID), "", None, now), SetPush(config), CloseManager];
      Legal(Empty(), stop, c) && !PushLive(Run(Empty(), stop, c))
  {
    var r0: Registry<S, E> := Empty();
    var puts: seq<Op<S, E>> := [SetPush(config)];
    assert puts[1..] == [];
    assert config.taskID in Run(r0, puts, c).push;
    var stop: seq<Op<S, E>> := [BuildTask(Some(config.taskID), "", None, now), SetPush(config), CloseManager];
    var r2 := Step(Step(r0, stop[0], c), stop[1], c);
    assert config.taskID in Step(r2, stop[2], c).push;
    ThreeSteps(r0, stop[0], stop[1], stop[2], c);
  }

  /** After any run: what a subscriber received and has queued are the events published for its
      task since it registered, without gap or repetition, and all of them while it is open. */
  lemma FanOutHasNoGaps<S, E>(ops: seq<Op<S, E>>, c: Config, s: S)
    requires Legal(Empty(), ops, c) && s in Run(Empty(), ops, c).subs
    ensures var r := Run(Empty(), ops, c); var x := r.subs[s]; var published := r.Log(x.taskID);
      && x.registeredAt <= |published| && x.received + x.queue <= published[x.registeredAt..]
      && (!x.closed ==> x.received + x.queue == published[x.registeredAt..])
      && |x.queue| <= x.capacity
  {
    RunInv(Empty(), ops, c);
  }

  /** The first context that the hook of an open target has to offer. */
  ghost function FirstHook<S, E>(subs: map<S, Subscriber<E>>, targets: seq<S>): string
    requires AllIn(targets, subs)
  {
    if targets == [] then ""
    else if !subs[targets[0]].closed && subs[targets[0]].hookContext != "" then subs[targets[0]].hookContext
    else FirstHook(subs, targets[1..])
  }

  lemma {:induction false} FirstHookAppend<S, E>(subs: map<S, Subscriber<E>>, front: seq<S>, s: S)
    requires AllIn(front, subs) && s in subs
    ensures FirstHook(subs, front + [s])
         == if FirstHook(subs, front) != "" then FirstHook(subs, front)
            else if subs[s].closed then "" else subs[s].hookContext
    decreases |front|
  {
    if front == [] {
      assert front + [s] == [s] && [s][1..] == [];
    } else {
      assert (front + [s])[1..] == front[1..] + [s];
      FirstHookAppend(subs, front[1..], s);
    }
  }

  /** All targets share one event; the hooks fill in a missing context, the first one that has a
      context to give, and nothing else. */
  lemma {:induction false} HooksFillTheContext<S, E>(subs: map<S, Subscriber<E>>, event: Event, targets: seq<S>, e: E,
                                                     wait: nat -> Wait)
    requires AllIn(targets, subs) && Distinct(targets)
    ensures Deliver(subs, event, targets, e, wait).event == WithContext(event, FirstHook(subs, targets))
    decreases |targets|
  {
    if targets != [] {
      var n := |targets| - 1;
      HooksFillTheContext(subs, event, targets[..n], e, wait);
      DeliverSpares(subs, event, targets[..n], e, wait, targets[n]);
      FirstHookAppend(subs, targets[..n], targets[n]);
      assert targets == targets[..n] + [targets[n]];
    }
  }

  /** After any event a subscriber that did not reject it has it at the end of its queue. */
  lemma AcceptedIsLast<E>(x: Subscriber<E>, e: E, wait: Wait)
    requires !Rejects(x, wait)
    ensures var x' := AfterEvent(x, e, wait); x'.queue != [] && x'.queue[|x'.queue| - 1] == e
  {
  }

  /** A final status reaches every subscriber that has room as its last event, marked final; and
      every subscriber of the task is closed and off the registry, with room or without. */
  lemma FinalStatusEndsTheStreams<S, E>(r: Registry<S, E>, id: string, status: TaskStatus, now: int,
                                                           e: E, wait: nat -> Wait, i: nat)
    requires Lists(r) && id in r.tasks && IsFinalState(status.state) && i < |r.Listed(id)|
    ensures var r' := Update(r, id, status, now, e, wait); var s := r.Listed(id)[i];
      && s in r'.subs && r'.subs[s].closed && id !in r'.subscribers
      && (!Rejects(r.subs[s], wait(i)) ==> r'.subs[s].queue != [] && r'.subs[s].queue[|r'.subs[s].queue| - 1] == e)
  {
    var written := WriteStatus(r, id, status, now);
    var event := StatusUpdate(written.tasks[id].task);
    assert ListOk(r, id, r.subscribers[id]);
    var s := r.Listed(id)[i];
    assert written.Listed(id) == r.Listed(id) && written.subs == r.subs;
    PublishReaches(written, id, e, event, wait, i);
    var published := Publish(written, id, e, event, wait);
    CloseListsCloses(published, id, s);
    if !Rejects(r.subs[s], wait(i)) {
      AcceptedIsLast(r.subs[s], e, wait(i));
    }
  }

  lemma CloseListsCloses<S, E>(r: Registry<S, E>, id: string, s: S)
    requires s in r.subs && (s in r.Listed(id) || r.subs[s].closed)
    ensures var r' := CloseLists(r, {id});
      s in r'.subs && r'.subs[s] == r.subs[s].(closed := true) && id !in r'.subscribers
  {
    var ids := {id};
    assert id in ids;
    assert s in r.Listed(id) ==> InLists(r, ids, s);
  }

  /** What that event says, and what is left in the task: the status written, marked final, with
      the context of the task or else the first context a hook has to give. */
  lemma StatusIsPublished<S, E>(r: Registry<S, E>, id: string, status: TaskStatus, now: int,
                                                   e: E, wait: nat -> Wait)
    requires Lists(r) && id in r.tasks && r.tasks[id].task.id == id
    ensures AllIn(r.Listed(id), r.subs)
    ensures var r' := Update(r, id, status, now, e, wait); var context := r.tasks[id].task.contextID;
      && id in r'.tasks && r'.tasks[id].task == r.tasks[id].task.(status := status)
      && r'.Log(id) == r.Log(id) + [e]
      && e in r'.events && r'.events[e].StatusEvent?
      && r'.events[e].status.status == status && r'.events[e].status.taskID == id
      && (r'.events[e].status.final <==> IsFinalState(status.state))
      && r'.events[e].status.contextID == if context != "" then context else FirstHook(r.subs, r.Listed(id))
  {
    var written := WriteStatus(r, id, status, now);
    var event := StatusUpdate(written.tasks[id].task);
    ListedAreThere(r, id);
    PublishedEvent(written, id, e, event, wait);
  }

  /** The hook of a subscription has the context of its request, that of a resubscription the task
      ID.  So the task ID stands for the context in exactly two cases. */
  lemma TaskIDAsContext<S, E>(r: Registry<S, E>, id: string, status: TaskStatus, now: int,
                                                 e: E, wait: nat -> Wait)
    requires Lists(r) && id in r.tasks && r.tasks[id].task.id == id != ""
    ensures AllIn(r.Listed(id), r.subs)
    ensures var r' := Update(r, id, status, now, e, wait); var context := r.tasks[id].task.contextID;
      && e in r'.events && r'.events[e].StatusEvent?
      && (r'.events[e].status.contextID == id
          <==> context == id || (context == "" && FirstToFill(r.subs, r.Listed(id), id)))
  {
    StatusIsPublished(r, id, status, now, e, wait);
    FirstFills(r.subs, r.Listed(id), id);
  }

  /** The hook of an open target has this context, and those before it have none or are closed. */
  ghost predicate FirstToFill<S, E>(subs: map<S, Subscriber<E>>, targets: seq<S>, context: string)
    requires AllIn(targets, subs)
  {
    exists k :: 0 <= k < |targets| && Fills(subs, targets[k], context) && NoneFills(subs, targets[..k])
  }

  ghost predicate Fills<S, E>(subs: map<S, Subscriber<E>>, s: S, context: string)
    requires s in subs
  {
    !subs[s].closed && subs[s].hookContext == context
  }

  ghost predicate NoneFills<S, E>(subs: map<S, Subscriber<E>>, targets: seq<S>)
    requires AllIn(targets, subs)
  {
    forall i :: 0 <= i < |targets| ==> subs[targets[i]].closed || subs[targets[i]].hookContext == ""
  }

  lemma {:induction false} FirstFills<S, E>(subs: map<S, Subscriber<E>>, targets: seq<S>, context: string)
    requires AllIn(targets, subs) && context != ""
    ensures FirstHook(subs, targets) == context <==> FirstToFill(subs, targets, context)
    decreases |targets|
  {
    if targets != [] {
      var others := targets[1..];
      FirstFills(subs, others, context);
      assert targets[..0] == [];
      if FirstToFill(subs, others, context) && NoneFills(subs, [targets[0]]) {
        var k :| 0 <= k < |others| && Fills(subs, others[k], context) && NoneFills(subs, others[..k]);
        assert targets[..k + 1] == [targets[0]] + others[..k] && Fills(subs, targets[k + 1], context);
      }
      if FirstToFill(subs, targets, context) {
        var k :| 0 <= k < |targets| && Fills(subs, targets[k], context) && NoneFills(subs, targets[..k]);
        if k > 0 {
          assert targets[..k] == [targets[0]] + others[..k - 1] && Fills(subs, others[k - 1], context);
          assert NoneFills(subs, [targets[0]] + others[..k - 1]) && ([targets[0]] + others[..k - 1])[0] == targets[0];
          assert others[..k - 1] == targets[..k][1..];
        }
      }
    }
  }

  /** A resubscription to a task without a context, and an update: the event has the task ID as its
      context. */
  lemma ResubscriptionFillsTheTaskID<S, E>(id: string, s: S, e: E, status: TaskStatus, now: int, wait: nat -> Wait,
                                           c: Config)
    requires id != "" && status.timestamp == Stamp(c, now)
    ensures var ops: seq<Op<S, E>> :=
        [BuildTask(Some(id), "", None, now), Resubscribe(id, s), UpdateTaskState(Some(id), status, now, e, wait)];
      && Legal(Empty(), ops, c)
      && var r := Run(Empty(), ops, c);
         e in r.events && r.events[e].StatusEvent? && r.events[e].status.contextID == id
  {
    var ops: seq<Op<S, E>> :=
      [BuildTask(Some(id), "", None, now), Resubscribe(id, s), UpdateTaskState(Some(id), status, now, e, wait)];
    Resubscribed<S, E>(id, s, now, c);
    FillsTheTaskID(Step(Step(Empty(), ops[0], c), ops[1], c), id, s, e, status, now, wait);
    ThreeSteps(Empty(), ops[0], ops[1], ops[2], c);
  }

  lemma FillsTheTaskID<S, E>(r: Registry<S, E>, id: string, s: S, e: E, status: TaskStatus, now: int, wait: nat -> Wait)
    requires Lists(r) && r.Listed(id) == [s] && s in r.subs && !r.subs[s].closed && r.subs[s].hookContext == id != ""
    requires id in r.tasks && r.tasks[id].task.id == id && r.tasks[id].task.contextID == ""
    ensures var r' := Update(r, id, status, now, e, wait);
      e in r'.events && r'.events[e].StatusEvent? && r'.events[e].status.contextID == id
  {
    StatusIsPublished(r, id, status, now, e, wait);
    assert r.Listed(id)[1..] == [];
  }

  lemma Resubscribed<S, E>(id: string, s: S, now: int, c: Config)
    requires id != ""
    ensures var r1 := Step<S, E>(Empty(), BuildTask(Some(id), "", None, now), c);
      && Lists(r1)
      && var r2 := Step(r1, Resubscribe(id, s), c);
         && Lists(r2) && r2.Listed(id) == [s] && s in r2.subs && !r2.subs[s].closed && r2.subs[s].hookContext == id
         && id in r2.tasks && r2.tasks[id].task.id == id && r2.tasks[id].task.contextID == "" && r2.events == map[]
  {
    var r1 := Step<S, E>(Empty(), BuildTask(Some(id), "", None, now), c);
    assert r1.Listed(id) == [] && [] + [s] == [s];
  }

  /** A run of three operations, each on well-formed lists. */
  lemma ThreeSteps<S, E>(r: Registry<S, E>, a: Op<S, E>, b: Op<S, E>, last: Op<S, E>, c: Config)
    requires Lists(r) && Allowed(r, a, c)
    requires Lists(Step(r, a, c)) && Allowed(Step(r, a, c), b, c)
    requires Lists(Step(Step(r, a, c), b, c)) && Allowed(Step(Step(r, a, c), b, c), last, c)
    ensures Legal(r, [a, b, last], c) && Run(r, [a, b, last], c) == Step(Step(Step(r, a, c), b, c), last, c)
  {
    var r1 := Step(r, a, c);
    var r2 := Step(r1, b, c);
    var r3 := Step(r2, last, c);
    assert [a, b, last][1..] == [b, last] && [b, last][1..] == [last] && [last][1..] == [];
    assert Legal(r3, [], c) && Run(r3, [], c) == r3;
    assert Legal(r2, [last], c) && Run(r2, [last], c) == r3;
    assert Legal(r1, [b, last], c) && Run(r1, [b, last], c) == r3;
  }

  /** The same for an artifact. */
  lemma ArtifactIsPublished<S, E>(r: Registry<S, E>, id: string, a: Artifact, isFinal: bool,
                                                     needMoreData: bool, e: E, wait: nat -> Wait)
    requires Lists(r) && id in r.tasks
    ensures AllIn(r.Listed(id), r.subs)
    ensures var r' := ArtifactAdded(r, id, a, isFinal, needMoreData, e, wait); var task := r.tasks[id].task;
      && id in r'.tasks && r'.tasks[id].task == task.(artifacts := r'.tasks[id].task.artifacts)
      && r'.tasks[id].task.artifacts == Some((if task.artifacts.Some? then task.artifacts.value else []) + [a])
      && r'.Log(id) == r.Log(id) + [e]
      && e in r'.events && r'.events[e].ArtifactEvent?
      && r'.events[e].artifact.artifact == a && r'.events[e].artifact.taskID == id
      && r'.events[e].artifact.lastChunk == Some(isFinal) && r'.events[e].artifact.append == Some(needMoreData)
      && r'.events[e].artifact.contextID
         == if task.contextID != "" then task.contextID else FirstHook(r.subs, r.Listed(id))
  {
    ListedAreThere(r, id);
    PublishedEvent(WithArtifact(r, id, a), id, e,
                   ArtifactUpdate(id, r.tasks[id].task.contextID, a, isFinal, needMoreData), wait);
  }

  lemma PublishedEvent<S, E>(r: Registry<S, E>, id: string, e: E, event: Event, wait: nat -> Wait)
    requires AllIn(r.Listed(id), r.subs) && Distinct(r.Listed(id))
    ensures var r' := Publish(r, id, e, event, wait);
      && e in r'.events && r'.events[e] == WithContext(event, FirstHook(r.subs, r.Listed(id)))
      && r'.tasks == r.tasks && r'.Log(id) == r.Log(id) + [e]
  {
    HooksFillTheContext(r.subs, event, r.Listed(id), e, wait);
  }

  lemma RemovalCloses<S, E>(r: Registry<S, E>, ids: set<string>, s: S)
    requires Lists(r) && OpenAreListed(r) && s in r.subs
    ensures var r' := RemoveTasks(r, ids);
      s in r'.subs && r'.subs[s] == if r.subs[s].taskID in ids then r.subs[s].(closed := true) else r.subs[s]
  {
    if r.subs[s].taskID in ids {
      if !r.subs[s].closed {
        assert s in r.Listed(r.subs[s].taskID);
      }
    } else if InLists(r, ids, s) {
      var id :| id in ids && s in r.Listed(id);
      ListedForItsTask(r, id, s);
    }
  }

  /** Removing tasks, by whatever operation: they, their lists and their contexts are gone, their
      subscribers closed, and nothing else is touched. */
  lemma RemovalIsExact<S, E>(r: Registry<S, E>, ids: set<string>, c: Config)
    requires Inv(r, c) && ids <= r.tasks.Keys
    ensures var r' := RemoveTasks(r, ids);
      && r'.tasks == r.tasks - ids && r'.subscribers == r.subscribers - ids
      && (forall id :: id in r'.tasks ==> r'.tasks[id].context !in r'.cancelled)
      && (forall id :: id in ids ==> r.tasks[id].context in r'.cancelled)
      && r'.subs.Keys == r.subs.Keys
      && (forall s :: s in r.subs && r.subs[s].taskID in ids ==> r'.subs[s] == r.subs[s].(closed := true))
      && (forall s :: s in r.subs && r.subs[s].taskID !in ids ==> r'.subs[s] == r.subs[s])
  {
    var r' := RemoveTasks(r, ids);
    forall s | s in r.subs
      ensures r'.subs[s] == if r.subs[s].taskID in ids then r.subs[s].(closed := true) else r.subs[s]
    {
      RemovalCloses(r, ids, s);
    }
  }

  /** After CleanTask or OnCancelTask nothing is left of the task, and nothing else has changed. */
  lemma CleanLeavesNothing<S, E>(r: Registry<S, E>, id: string, c: Config)
    requires Inv(r, c) && id in r.tasks
    ensures var r' := Clean(r, id);
      && id !in r'.tasks && id !in r'.subscribers && id !in r'.push && r.tasks[id].context in r'.cancelled
      && (forall s :: s in r.subs && r.subs[s].taskID == id ==> s in r'.subs && r'.subs[s].closed)
      && (forall s :: s in r.subs && r.subs[s].taskID != id ==> s in r'.subs && r'.subs[s] == r.subs[s])
      && (forall other :: other != id ==>
            && (other in r'.tasks <==> other in r.tasks) && (other in r.tasks ==> r'.tasks[other] == r.tasks[other])
            && r'.Listed(other) == r.Listed(other)
            && (other in r'.push <==> other in r.push) && (other in r.push ==> r'.push[other] == r.push[other]))
  {
    RemovalIsExact(r, {id}, c);
  }

  /** Which tasks a sweep removes, in terms of the exact time of their last status write. */
  lemma ExpiredBounds<S, E>(r: Registry<S, E>, id: string, now: int, maxAge: int, c: Config)
    requires Stamped(r, c) && Faithful(c) && id in r.tasks
    ensures var age := now - r.lastWrite[id]; var final := IsFinalState(r.tasks[id].task.status.state);
      && (Expired(r.tasks[id], now, maxAge, c) <==> final && age + r.lastWrite[id] % NANOS_PER_SECOND > maxAge)
      && (Expired(r.tasks[id], now, maxAge, c) ==> final && age > maxAge - NANOS_PER_SECOND)
      && (final && age > maxAge ==> Expired(r.tasks[id], now, maxAge, c))
  {
    var last := r.lastWrite[id];
    assert c.parse(c.format(last / NANOS_PER_SECOND)) == Some(last / NANOS_PER_SECOND);
    assert last == last / NANOS_PER_SECOND * NANOS_PER_SECOND + last % NANOS_PER_SECOND;
  }

  /** A sweep removes exactly the final tasks whose age, up to the fraction of the second lost in
      the timestamp, exceeds the limit; with them their subscribers and push configurations. */
  lemma SweepIsExact<S, E>(r: Registry<S, E>, now: int, maxAge: int, c: Config)
    requires Inv(r, c) && Faithful(c) && maxAge > 0
    ensures var r' := Sweep(r, now, maxAge, c); var gone := r.tasks.Keys - r'.tasks.Keys;
      && (forall id :: id in gone ==>
            IsFinalState(r.tasks[id].task.status.state) && now - r.lastWrite[id] > maxAge - NANOS_PER_SECOND)
      && (forall id :: id in r.tasks && IsFinalState(r.tasks[id].task.status.state) && now - r.lastWrite[id] > maxAge ==>
            id in gone)
      && (forall id :: id in gone ==> r.tasks[id].context in r'.cancelled && id !in r'.subscribers && id !in r'.push)
      && (forall id :: id in r'.tasks ==> r'.tasks[id] == r.tasks[id] && r'.tasks[id].context !in r'.cancelled)
      && (forall id :: id !in gone ==> r'.Listed(id) == r.Listed(id))
      && r'.push == r.push - gone
      && (forall s :: s in r.subs && r.subs[s].taskID in gone ==> s in r'.subs && r'.subs[s].closed)
      && (forall s :: s in r.subs && r.subs[s].taskID !in gone ==> s in r'.subs && r'.subs[s] == r.subs[s])
  {
    var expired := ExpiredTasks(r.tasks, now, maxAge, c);
    RemovalIsExact(r, expired, c);
    assert r.tasks.Keys - Sweep(r, now, maxAge, c).tasks.Keys == expired;
    forall id | id in r.tasks
      ensures id in expired ==>
        IsFinalState(r.tasks[id].task.status.state) && now - r.lastWrite[id] > maxAge - NANOS_PER_SECOND
      ensures IsFinalState(r.tasks[id].task.status.state) && now - r.lastWrite[id] > maxAge ==> id in expired
    {
      ExpiredBounds(r, id, now, maxAge, c);
    }
  }

  /** Final states are not absorbing.  A task in one leaves it, other than by being removed, by
      exactly one kind of operation: an update of that task to a state that is not final. */
  lemma FinalIsLeftOnlyByUpdate<S, E>(r: Registry<S, E>, op: Op<S, E>, c: Config, id: string)
    requires Lists(r) && Allowed(r, op, c) && id in r.tasks && IsFinalState(r.tasks[id].task.status.state)
    ensures var r' := Step(r, op, c);
      id in r'.tasks && !IsFinalState(r'.tasks[id].task.status.state)
      <==> op.UpdateTaskState? && op.id == Some(id) && id != "" && !IsFinalState(op.status.state)
  {
    match op
    case UpdateTaskState(other, status, now, e, wait) =>
      if Named(other) && other.value in r.tasks {
        var written := WriteStatus(r, other.value, status, now);
        ListedAreThere(r, other.value);
        PublishFrame(written, other.value, e, StatusUpdate(written.tasks[other.value].task), wait);
      }
    case AddTaskArtifact(other, a, isFinal, needMoreData, e, wait) =>
      if Named(other) && other.value in r.tasks {
        ListedAreThere(r, other.value);
      }
    case _ =>
  }
}
