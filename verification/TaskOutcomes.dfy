/**
 What the operations on tasks do in the words of the protocol: with the spellings of states and
 kinds written out, for every way a send can go, and without the names of the registry's helpers.
 */
module TaskOutcomes {
  import opened Wrappers
  import opened Protocol
  import opened Registry
  import opened RegistryRuns
  import RT = RoundTrip

  predicate EndsTask(state: string) {
    state == "completed" || state == "failed" || state == "canceled" || state == "rejected"
  }

  predicate GoesOn(state: string) {
    || state == "submitted" || state == "working" || state == "input-required" || state == "auth-required"
    || state == "unknown"
  }

  lemma StatesDiffer(state: string)
    ensures IsFinalState(state) <==> EndsTask(state)
    ensures GoesOn(state) ==> !EndsTask(state)
  {
    assert "submitted"[0] == 's' && "working"[0] == 'w' && "input-required"[0] == 'i' && "auth-required"[0] == 'a';
    assert "unknown"[0] == 'u' && "completed"[0] == 'c' && "failed"[0] == 'f' && "canceled"[0] == 'c';
    assert "rejected"[0] == 'r';
  }

  /** A status as an update writes it. */
  function Written(state: string, message: Option<Message>, now: int, c: Config): TaskStatus {
    TaskStatus(state, message, c.format(now / 1_000_000_000))
  }

  // ---------------------------------------------------------------------------------------
  // Updates

  lemma SweepKeepsOrReaps<S, E>(r: Registry<S, E>, id: string, now: int, maxAge: int, c: Config, last: int)
    requires Faithful(c) && id in r.tasks && r.tasks[id].task.status.timestamp == c.format(last / 1_000_000_000)
    requires maxAge > 0
    ensures var state := r.tasks[id].task.status.state;
      && (EndsTask(state) && now - last > maxAge ==> id !in Sweep(r, now, maxAge, c).tasks)
      && (!EndsTask(state) || now - last <= maxAge - 1_000_000_000 ==> id in Sweep(r, now, maxAge, c).tasks)
  {
    StatesDiffer(r.tasks[id].task.status.state);
    assert c.parse(c.format(last / 1_000_000_000)) == Some(last / 1_000_000_000);
    assert last - 1_000_000_000 < last / 1_000_000_000 * 1_000_000_000 <= last;
  }

  /** An update to "completed", "failed", "canceled" or "rejected" is published as final, closes and
      unlists every subscriber, and is reaped by every sweep once it is older than the limit. */
  lemma FinalUpdates<S, E>(r: Registry<S, E>, id: string, state: string, message: Option<Message>, now: int, e: E,
                           wait: nat -> Wait, c: Config)
    requires Lists(r) && id in r.tasks && r.tasks[id].task.id == id && EndsTask(state) && Faithful(c)
    ensures AllIn(r.Listed(id), r.subs)
    ensures var r' := Update(r, id, Written(state, message, now, c), now, e, wait);
      && e in r'.events && r'.events[e].StatusEvent? && r'.events[e].status.final
      && id !in r'.subscribers
      && (forall s :: s in r.Listed(id) ==> s in r'.subs && r'.subs[s].closed)
      && forall later, maxAge :: maxAge > 0 && later - now > maxAge ==> id !in Sweep(r', later, maxAge, c).tasks
  {
    var status := Written(state, message, now, c);
    var r' := Update(r, id, status, now, e, wait);
    StatesDiffer(state);
    StatusIsPublished(r, id, status, now, e, wait);
    forall s | s in r.Listed(id) ensures s in r'.subs && r'.subs[s].closed {
      var i :| 0 <= i < |r.Listed(id)| && r.Listed(id)[i] == s;
      FinalStatusEndsTheStreams(r, id, status, now, e, wait, i);
    }
    forall later, maxAge | maxAge > 0 && later - now > maxAge ensures id !in Sweep(r', later, maxAge, c).tasks {
      SweepKeepsOrReaps(r', id, later, maxAge, c, now);
    }
  }

  /** An update to "submitted", "working", "input-required", "auth-required" or "unknown" is
      published as not final, leaves every subscriber with room open and listed with the event last
      in its queue, and the task is never reaped. */
  lemma OngoingUpdates<S, E>(r: Registry<S, E>, id: string, state: string, message: Option<Message>, now: int, e: E,
                             wait: nat -> Wait, c: Config)
    requires Lists(r) && id in r.tasks && r.tasks[id].task.id == id && GoesOn(state) && Faithful(c)
    ensures AllIn(r.Listed(id), r.subs)
    ensures var r' := Update(r, id, Written(state, message, now, c), now, e, wait);
      && e in r'.events && r'.events[e].StatusEvent? && !r'.events[e].status.final
      && (forall s :: s in r.Listed(id) && !r.subs[s].closed && |r.subs[s].queue| < r.subs[s].capacity ==>
            s in r'.Listed(id) && s in r'.subs && r'.subs[s] == r.subs[s].(queue := r.subs[s].queue + [e]))
      && forall later, maxAge :: maxAge > 0 ==> id in Sweep(r', later, maxAge, c).tasks
  {
    var status := Written(state, message, now, c);
    var r' := Update(r, id, status, now, e, wait);
    var written := WriteStatus(r, id, status, now);
    StatesDiffer(state);
    StatusIsPublished(r, id, status, now, e, wait);
    ListedAreThere(r, id);
    forall s | s in r.Listed(id) && !r.subs[s].closed && |r.subs[s].queue| < r.subs[s].capacity
      ensures s in r'.Listed(id) && s in r'.subs && r'.subs[s] == r.subs[s].(queue := r.subs[s].queue + [e])
    {
      var i :| 0 <= i < |r.Listed(id)| && r.Listed(id)[i] == s;
      PublishReaches(written, id, e, StatusUpdate(written.tasks[id].task), wait, i);
    }
    forall later, maxAge | maxAge > 0 ensures id in Sweep(r', later, maxAge, c).tasks {
      SweepKeepsOrReaps(r', id, later, maxAge, c, now);
    }
  }

  /** The published events name their kinds, and survive the encoding exactly when the message of
      the status, or the artifact, does. */
  lemma PublishedStatusIsGood<S, E>(r: Registry<S, E>, id: string, status: TaskStatus, now: int, e: E,
                                    wait: nat -> Wait)
    requires Lists(r) && id in r.tasks && r.tasks[id].task.id == id
    ensures AllIn(r.Listed(id), r.subs)
    ensures var r' := Update(r, id, status, now, e, wait);
      && e in r'.events && r'.events[e].StatusEvent? && r'.events[e].status.kind == "status-update"
      && r'.events[e].status.metadata == None
      && (RT.GoodEvent(r'.events[e]) <==> (status.message.Some? ==> RT.GoodMessage(status.message.value)))
  {
    var written := WriteStatus(r, id, status, now);
    ListedAreThere(r, id);
    PublishedEvent(written, id, e, StatusUpdate(written.tasks[id].task), wait);
  }

  lemma PublishedArtifactIsGood<S, E>(r: Registry<S, E>, id: string, a: Artifact, isFinal: bool, needMoreData: bool,
                                      e: E, wait: nat -> Wait)
    requires Lists(r) && id in r.tasks
    ensures AllIn(r.Listed(id), r.subs)
    ensures var r' := ArtifactAdded(r, id, a, isFinal, needMoreData, e, wait);
      && e in r'.events && r'.events[e].ArtifactEvent? && r'.events[e].artifact.kind == "artifact-update"
      && r'.events[e].artifact.metadata == None
      && (RT.GoodEvent(r'.events[e]) <==> RT.GoodArtifact(a))
  {
    ListedAreThere(r, id);
    PublishedEvent(WithArtifact(r, id, a), id, e,
                   ArtifactUpdate(id, r.tasks[id].task.contextID, a, isFinal, needMoreData), wait);
  }

  // ---------------------------------------------------------------------------------------
  // Hooks and sends

  /** A hook fills in a missing context of a task, a status or an artifact event; it leaves messages,
      contexts that are there, and everything else alone. */
  lemma HooksTouchOnlyContexts(event: Event, context: string)
    ensures match event
      case MessageEvent(_) => WithContext(event, context) == event
      case TaskEvent(t) =>
        WithContext(event, context) == TaskEvent(t.(contextID := if t.contextID == "" then context else t.contextID))
      case StatusEvent(s) =>
        WithContext(event, context) == StatusEvent(s.(contextID := if s.contextID == "" then context else s.contextID))
      case ArtifactEvent(a) =>
        WithContext(event, context) == ArtifactEvent(a.(contextID := if a.contextID == "" then context else a.contextID))
  {
  }

  /** How a notification goes for one subscriber on the list. */
  datatype Fate = WasClosed | HadRoom | Overflowed | MadeRoom | ClosedWhileWaiting

  function FateOf<E>(x: Subscriber<E>, wait: Wait): Fate {
    if x.closed then WasClosed
    else if |x.queue| < x.capacity then HadRoom
    else if !x.blocking then Overflowed
    else if wait == ConsumerReceives then MadeRoom
    else ClosedWhileWaiting
  }

  /** With room the event goes to the end of the queue; a full queue drops the subscriber, unless it
      blocks: then the send waits for the consumer, or for a close.  Who did not get the event is
      closed and off the list, with its queue as it was. */
  lemma NotificationsReach<S, E>(r: Registry<S, E>, id: string, e: E, event: Event, wait: nat -> Wait, i: nat)
    requires AllIn(r.Listed(id), r.subs) && Distinct(r.Listed(id)) && i < |r.Listed(id)|
    ensures var r' := Publish(r, id, e, event, wait); var s, x := r.Listed(id)[i], r.subs[r.Listed(id)[i]];
      && s in r'.subs
      && match FateOf(x, wait(i))
         case HadRoom => s in r'.Listed(id) && r'.subs[s] == x.(queue := x.queue + [e])
         case MadeRoom =>
           && s in r'.Listed(id)
           && r'.subs[s] == x.(received := x.received + [x.queue[0]], queue := x.queue[1..] + [e])
         case _ => s !in r'.Listed(id) && r'.subs[s] == x.(closed := true)
  {
    PublishReaches(r, id, e, event, wait, i);
  }

  // ---------------------------------------------------------------------------------------
  // Tasks and subscribers come and go

  /** A built task is "submitted" at the time of the build, of kind "task" and empty, with the given
      ID and context and a context of its own that is not cancelled; nothing else changes. */
  lemma BuiltTasks<S, E>(r: Registry<S, E>, id: string, context: string, now: int, c: Config)
    requires Inv(r, c) && id !in r.tasks
    ensures var r' := Build(r, id, context, now, c);
      && r'.tasks.Keys == r.tasks.Keys + {id}
      && (forall other :: other in r.tasks ==> r'.tasks[other] == r.tasks[other])
      && r'.tasks[id].task.status == TaskStatus("submitted", None, c.format(now / 1_000_000_000))
      && r'.tasks[id].task.id == id && r'.tasks[id].task.contextID == context && r'.tasks[id].task.kind == "task"
      && r'.tasks[id].task.history == Some([]) && r'.tasks[id].task.artifacts == Some([])
      && r'.tasks[id].task.metadata == Some(map[])
      && r'.tasks[id].context !in r'.cancelled
      && (forall other :: other in r.tasks ==> r.tasks[other].context != r'.tasks[id].context)
      && r'.subscribers == r.subscribers && r'.subs == r.subs && r'.push == r.push && r'.events == r.events
      && RT.GoodEvent(TaskEvent(r'.tasks[id].task))
  {
  }

  /** A new subscriber is open and empty, at the end of the list of its task; a size that is not
      positive means 1024. */
  lemma SubscribersJoin<S, E>(r: Registry<S, E>, id: string, s: S, hookContext: string, c: Config)
    requires s !in r.subs
    ensures var r' := Attach(r, id, s, NewSubscriber(id, c.bufferSize, c.blocking, hookContext, |r.Log(id)|));
      && r'.Listed(id) == r.Listed(id) + [s]
      && (forall other :: other != id ==> r'.Listed(other) == r.Listed(other))
      && r'.subs.Keys == r.subs.Keys + {s} && (forall x :: x in r.subs ==> r'.subs[x] == r.subs[x])
      && !r'.subs[s].closed && r'.subs[s].queue == [] && r'.subs[s].received == []
      && r'.subs[s].capacity == (if c.bufferSize <= 0 then 1024 else c.bufferSize)
      && r'.subs[s].blocking == c.blocking && r'.subs[s].hookContext == hookContext && r'.subs[s].taskID == id
      && r'.tasks == r.tasks && r'.events == r.events
  {
  }

  /** Stopping the manager leaves no task and no list, cancels every task and closes every open
      subscriber; push configurations and events stay. */
  lemma ClosedManagers<S, E>(r: Registry<S, E>, c: Config)
    requires Inv(r, c)
    ensures var r' := Shutdown(r);
      && r'.tasks == map[] && r'.subscribers == map[]
      && (forall id :: id in r.tasks ==> r.tasks[id].context in r'.cancelled)
      && r'.subs.Keys == r.subs.Keys && (forall s :: s in r.subs ==> r'.subs[s] == r.subs[s].(closed := true))
      && r'.push == r.push && r'.events == r.events
  {
    forall s | s in r.subs ensures Shutdown(r).subs[s] == r.subs[s].(closed := true) {
      if !r.subs[s].closed {
        assert s in r.Listed(r.subs[s].taskID) && r.subs[s].taskID in r.tasks.Keys + r.subscribers.Keys;
        assert InLists(r, r.tasks.Keys + r.subscribers.Keys, s);
      }
    }
  }

  /** A push configuration set for a task ID replaces the one set before, and no other. */
  lemma PushConfigsReplace<S, E>(r: Registry<S, E>, config: PushConfig, c: Config)
    requires Lists(r)
    ensures var r' := Step(r, Op.SetPush(config), c);
      && r'.push.Keys == r.push.Keys + {config.taskID} && r'.push[config.taskID] == config
      && (forall id :: id in r.push && id != config.taskID ==> r'.push[id] == r.push[id])
      && r' == r.(push := r'.push)
  {
  }
}
