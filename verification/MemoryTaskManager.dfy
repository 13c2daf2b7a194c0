/**
 The in-memory task manager itself: subscribers and events are shared objects, the manager's maps
 are fields, and every operation does to them what `Registry` says.
 */
module MemoryTaskManager {
  import opened Wrappers
  import opened Protocol
  import opened Registry
  import opened RegistryRuns

  class StreamingMessageEvent {
    var result: Event

    constructor (result: Event)
      ensures this.result == result
    {
      this.result := result;
    }
  }

  datatype SendError = SubscriberClosed | QueueFull

  class MemoryTaskSubscriber {
    const taskID: string
    const capacity: Capacity
    const blocking: bool
    const hookContext: string
    var eventQueue: seq<StreamingMessageEvent>
    var closed: bool
    ghost var received: seq<StreamingMessageEvent>
    ghost const registeredAt: nat

    ghost function State(): Subscriber<StreamingMessageEvent>
      reads this
    {
      Subscriber(taskID, capacity, blocking, hookContext, eventQueue, closed, received, registeredAt)
    }

    constructor (taskID: string, bufSize: int, blocking: bool, hookContext: string, ghost registeredAt: nat)
      ensures State() == NewSubscriber(taskID, bufSize, blocking, hookContext, registeredAt)
    {
      this.taskID, this.blocking, this.hookContext, this.registeredAt := taskID, blocking, hookContext, registeredAt;
      this.capacity := if bufSize <= 0 then DEFAULT_SUBSCRIBER_BUFFER_SIZE else bufSize;
      this.eventQueue, this.closed, this.received := [], false, [];
    }

    method Close()
      modifies this
      ensures State() == old(State()).(closed := true)
    {
      closed := true;
    }

    /** A blocking send on a full queue waits; `wait` says what ends the waiting. */
    method Send(event: StreamingMessageEvent, wait: Wait) returns (err: Option<SendError>)
      modifies this, event
      ensures State() == Sent(old(State()), event, wait)
      ensures err.Some? <==> Rejects(old(State()), wait)
      ensures event.result == if old(closed) then old(event.result) else WithContext(old(event.result), hookContext)
    {
      if closed {
        return Some(SubscriberClosed);
      }
      event.result := WithContext(event.result, hookContext);
      if |eventQueue| < capacity {
        eventQueue := eventQueue + [event];
        return None;
      }
      if !blocking {
        return Some(QueueFull);
      }
      match wait {
        case ConsumerReceives =>
          received, eventQueue := received + [eventQueue[0]], eventQueue[1..] + [event];
          return None;
        case ClosedMeanwhile =>
          closed := true;
          return Some(SubscriberClosed);
      }
    }

    /** The consumer's side of the queue. */
    method Receive() returns (event: Option<StreamingMessageEvent>)
      modifies this
      ensures State() == Received(old(State()))
      ensures event == if old(eventQueue) == [] then None else Some(old(eventQueue)[0])
    {
      if eventQueue == [] {
        return None;
      }
      event := Some(eventQueue[0]);
      received, eventQueue := received + [eventQueue[0]], eventQueue[1..];
    }
  }

  class MemoryTaskManager {
    var tasks: map<string, Entry>
    var subscribers: map<string, seq<MemoryTaskSubscriber>>
    var pushNotifications: map<string, PushConfig>
    var cancelled: set<nat>
    var nextContext: nat
    var stopped: bool
    const config: Config
    ghost var made: set<MemoryTaskSubscriber>
    ghost var published: set<StreamingMessageEvent>
    ghost var log: map<string, seq<StreamingMessageEvent>>
    ghost var lastWrite: map<string, int>

    ghost function Subs(): map<MemoryTaskSubscriber, Subscriber<StreamingMessageEvent>>
      reads this`made, made
    {
      map s | s in made :: s.State()
    }

    ghost function Events(): map<StreamingMessageEvent, Event>
      reads this`published, published
    {
      map e | e in published :: e.result
    }

    ghost function State(): Registry<MemoryTaskSubscriber, StreamingMessageEvent>
      reads this`tasks, this`subscribers, this`pushNotifications, this`cancelled, this`nextContext, this`log,
            this`lastWrite, this`made, made, this`published, published
    {
      Registry(tasks, subscribers, pushNotifications, cancelled, nextContext, Subs(), Events(), log, lastWrite)
    }

    ghost predicate Valid()
      reads this`tasks, this`subscribers, this`pushNotifications, this`cancelled, this`nextContext, this`log,
            this`lastWrite, this`made, made, this`published, published
    {
      Inv(State(), config)
    }

    constructor (config: Config)
      ensures Valid() && State() == Empty() && this.config == config && !stopped
    {
      this.config := config;
      this.tasks, this.subscribers, this.pushNotifications := map[], map[], map[];
      this.cancelled, this.nextContext, this.stopped := {}, 0, false;
      this.made, this.published, this.log, this.lastWrite := {}, {}, map[], map[];
    }

    /** Closes the subscribers of a list, one after the other. */
    method CloseEach(xs: seq<MemoryTaskSubscriber>)
      requires forall i :: 0 <= i < |xs| ==> xs[i] in made
      modifies made
      ensures State() == old(State()).(subs := CloseAll(old(Subs()), xs))
    {
      for i := 0 to |xs|
        invariant Subs() == CloseAll(old(Subs()), xs[..i])
      {
        assert xs[..i + 1] == xs[..i] + [xs[i]];
        xs[i].Close();
      }
      assert xs[..|xs|] == xs;
      assert Events() == old(Events());
    }

    /** The filter loops of the cleanup: those to keep and those to remove, both in order. */
    method SplitFailed(subs: seq<MemoryTaskSubscriber>, failed: seq<MemoryTaskSubscriber>)
      returns (filtered: seq<MemoryTaskSubscriber>, removed: seq<MemoryTaskSubscriber>)
      ensures filtered == Without(subs, failed) && removed == Within(subs, failed)
    {
      filtered, removed := [], [];
      for i := 0 to |subs|
        invariant filtered == Without(subs[..i], failed) && removed == Within(subs[..i], failed)
      {
        assert subs[..i + 1][..i] == subs[..i];
        var shouldRemove := false;
        var k := 0;
        while k < |failed| && !shouldRemove
          invariant k <= |failed| && (shouldRemove <==> subs[i] in failed[..k])
        {
          assert failed[..k + 1] == failed[..k] + [failed[k]];
          shouldRemove := subs[i] == failed[k];
          k := k + 1;
        }
        assert failed[..k] + failed[k..] == failed;
        if shouldRemove {
          removed := removed + [subs[i]];
        } else {
          filtered := filtered + [subs[i]];
        }
      }
      assert subs[..|subs|] == subs;
    }

    /** The list of a task without the failed ones; an empty list goes. */
    method FilterList(taskID: string, failed: seq<MemoryTaskSubscriber>) returns (removed: seq<MemoryTaskSubscriber>)
      modifies this`subscribers
      ensures var listed := if taskID in old(subscribers) then old(subscribers)[taskID] else [];
        removed == Within(listed, failed) && subscribers == ListsAfter(old(subscribers), taskID, listed, failed)
    {
      if taskID !in subscribers {
        return [];
      }
      var filtered;
      filtered, removed := SplitFailed(subscribers[taskID], failed);
      if |removed| > 0 {
        subscribers := subscribers[taskID := filtered];
        if |filtered| == 0 {
          subscribers := subscribers - {taskID};
        }
      }
    }

    /** The part of the cleanup under the task lock. */
    method TakeOffFailed(taskID: string, failed: seq<MemoryTaskSubscriber>) returns (removed: seq<MemoryTaskSubscriber>)
      modifies this`subscribers
      ensures var listed := old(State()).Listed(taskID);
        && removed == Within(listed, failed)
        && State() == old(State()).(subscribers := ListsAfter(old(subscribers), taskID, listed, failed))
    {
      removed := FilterList(taskID, failed);
    }

    /** Takes the failed subscribers off the list under the lock, then closes those taken off. */
    method CleanupFailedSubscribers(taskID: string, failed: seq<MemoryTaskSubscriber>)
      requires AllIn(State().Listed(taskID), Subs())
      modifies this`subscribers, made
      ensures State() == DropFailed(old(State()), taskID, failed)
    {
      WithinMembers(State().Listed(taskID), failed);
      var removed := TakeOffFailed(taskID, failed);
      CloseEach(removed);
    }

    /** One round of the send loop; a closed subscriber is not tried. */
    method SendOne(sub: MemoryTaskSubscriber, event: StreamingMessageEvent, wait: Wait) returns (rejected: bool)
      requires sub in made
      modifies sub, event
      ensures Subs() == old(Subs())[sub := Sent(old(Subs())[sub], event, wait)]
      ensures rejected <==> Rejects(old(Subs())[sub], wait)
      ensures event.result == if old(Subs())[sub].closed then old(event.result)
                              else WithContext(old(event.result), old(Subs())[sub].hookContext)
    {
      if sub.closed {
        return true;
      }
      var err := sub.Send(event, wait);
      return err.Some?;
    }

    /** The send loop of a notification. */
    method SendToEach(subs: seq<MemoryTaskSubscriber>, event: StreamingMessageEvent, wait: nat -> Wait)
      returns (failed: seq<MemoryTaskSubscriber>)
      requires AllIn(subs, Subs())
      modifies made, event
      ensures var d := Deliver(old(Subs()), old(event.result), subs, event, wait);
        Subs() == d.subs && event.result == d.event && failed == d.failed
    {
      failed := [];
      for i := 0 to |subs|
        invariant var d := Deliver(old(Subs()), old(event.result), subs[..i], event, wait);
          Subs() == d.subs && event.result == d.event && failed == d.failed
      {
        assert subs[..i + 1][..i] == subs[..i];
        var rejected := SendOne(subs[i], event, wait(i));
        if rejected {
          failed := failed + [subs[i]];
        }
      }
      assert subs[..|subs|] == subs;
    }

    /** Notes that an event object has been published. */
    ghost method Register(event: StreamingMessageEvent)
      requires event !in published
      modifies this`published
      ensures published == old(published) + {event} && Events() == old(Events())[event := event.result]
    {
      published := published + {event};
    }

    /** The send loop on the list of a task, with an event nobody has seen yet. */
    method SendNew(taskID: string, event: StreamingMessageEvent, wait: nat -> Wait)
      returns (failed: seq<MemoryTaskSubscriber>)
      requires AllIn(State().Listed(taskID), Subs()) && event !in published
      modifies made, event
      ensures var d := Deliver(old(Subs()), old(event.result), old(State()).Listed(taskID), event, wait);
        Subs() == d.subs && event.result == d.event && failed == d.failed
      ensures Events() == old(Events())
    {
      var subs := if taskID in subscribers then subscribers[taskID] else [];
      failed := SendToEach(subs, event, wait);
    }

    /** The first part of a notification: the event is published, and sent to everyone listed. */
    method PublishTo(taskID: string, event: StreamingMessageEvent, wait: nat -> Wait)
      returns (failed: seq<MemoryTaskSubscriber>)
      requires AllIn(State().Listed(taskID), Subs()) && event !in published
      modifies this`published, this`log, made, event
      ensures State() == Delivered(old(State()), taskID, event, old(event.result), wait)
      ensures failed == Deliver(old(Subs()), old(event.result), old(State()).Listed(taskID), event, wait).failed
    {
      failed := SendNew(taskID, event, wait);
      Register(event);
      log := log[taskID := old(State()).Log(taskID) + [event]];
    }

    /** Sends an event that nobody has seen yet to every subscriber of the task. */
    method NotifySubscribers(taskID: string, event: StreamingMessageEvent, wait: nat -> Wait)
      requires AllIn(State().Listed(taskID), Subs()) && event !in published
      modifies this`subscribers, this`published, this`log, made, event
      ensures State() == Publish(old(State()), taskID, event, old(event.result), wait)
    {
      var failed := PublishTo(taskID, event, wait);
      if |failed| > 0 {
        CleanupFailedSubscribers(taskID, failed);
      } else {
        NoneDropped(State(), taskID);
      }
    }

    /** Makes the event object and notifies. */
    method Post(taskID: string, result: Event, wait: nat -> Wait) returns (event: StreamingMessageEvent)
      requires AllIn(State().Listed(taskID), Subs())
      modifies this`subscribers, this`published, this`log, made
      ensures fresh(event) && State() == Publish(old(State()), taskID, event, result, wait)
    {
      event := new StreamingMessageEvent(result);
      NotifySubscribers(taskID, event, wait);
    }

    /** Publishes a new event for a task. */
    method Announce(taskID: string, result: Event, wait: nat -> Wait) returns (event: StreamingMessageEvent)
      requires Valid() && taskID in tasks
      modifies this`subscribers, this`published, this`log, made
      ensures Valid() && fresh(event) && State() == Publish(old(State()), taskID, event, result, wait)
    {
      ListedAreThere(State(), taskID);
      event := Post(taskID, result, wait);
      PublishKeeps(old(State()), taskID, event, result, wait, config);
    }

    /** Takes the whole list of a task out of the map, then closes its members. */
    method TakeList(taskID: string)
      requires AllIn(State().Listed(taskID), Subs())
      modifies this`subscribers, made
      ensures State()
           == old(State()).(subscribers := old(subscribers) - {taskID}, subs := CloseAll(old(Subs()), old(State()).Listed(taskID)))
    {
      var subs := if taskID in subscribers then subscribers[taskID] else [];
      subscribers := subscribers - {taskID};
      CloseEach(subs);
    }

    /** Closes and removes all subscribers of a task. */
    method CleanSubscribers(taskID: string)
      requires Valid()
      modifies this`subscribers, made
      ensures Valid() && State() == CloseLists(old(State()), {taskID})
    {
      ListedAreThere(State(), taskID);
      CloseOneList(State(), taskID);
      CloseListsInv(State(), {taskID}, config);
      TakeList(taskID);
    }

    /** What the operations on a named task check first. */
    method CheckTask(taskID: Option<string>) returns (err: Option<TaskError>)
      ensures err == TaskProblem(taskID, tasks)
    {
      if !Named(taskID) {
        return Some(EmptyID);
      }
      if taskID.value !in tasks {
        return Some(TaskNotFound(taskID.value));
      }
      return None;
    }

    /** The task lock's part of a status update. */
    method SetStatus(taskID: string, status: TaskStatus, ghost now: int)
      requires taskID in tasks
      modifies this`tasks, this`lastWrite
      ensures State() == WriteStatus(old(State()), taskID, status, now)
    {
      var entry := tasks[taskID];
      tasks := tasks[taskID := entry.(task := entry.task.(status := status))];
      lastWrite := lastWrite[taskID := now];
    }

    /** `event` is what was published, null when there was an error. */
    method UpdateTaskState(taskID: Option<string>, state: string, message: Option<Message>, now: int, wait: nat -> Wait)
      returns (err: Option<TaskError>, event: StreamingMessageEvent?)
      requires Valid()
      modifies this, made
      ensures Valid() && err == TaskProblem(taskID, old(tasks))
      ensures err.Some? ==> State() == old(State())
      ensures err.None? ==>
        && event != null && fresh(event)
        && State() == Update(old(State()), taskID.value, TaskStatus(state, message, Stamp(config, now)), now, event, wait)
    {
      event := null;
      err := CheckTask(taskID);
      if err.Some? {
        return;
      }
      event := ChangeStatus(taskID.value, TaskStatus(state, message, Stamp(config, now)), now, wait);
    }

    /** Writes a status and publishes it; a final one ends the streams. */
    method ChangeStatus(taskID: string, status: TaskStatus, now: int, wait: nat -> Wait)
      returns (event: StreamingMessageEvent)
      requires Valid() && taskID in tasks && status.timestamp == Stamp(config, now)
      modifies this, made
      ensures Valid() && fresh(event)
      ensures State() == Update(old(State()), taskID, status, now, event, wait)
    {
      WriteStatusKeeps(State(), taskID, status, now, config);
      SetStatus(taskID, status, now);
      event := Announce(taskID, StatusUpdate(tasks[taskID].task), wait);
      if IsFinalState(status.state) {
        CleanSubscribers(taskID);
      }
    }

    /** `event` is what was published, null when there was an error. */
    method AddArtifact(taskID: Option<string>, artifact: Artifact, isFinal: bool, needMoreData: bool, wait: nat -> Wait)
      returns (err: Option<TaskError>, event: StreamingMessageEvent?)
      requires Valid()
      modifies this, made
      ensures Valid() && err == TaskProblem(taskID, old(tasks))
      ensures err.Some? ==> State() == old(State())
      ensures err.None? ==>
        && event != null && fresh(event)
        && State() == ArtifactAdded(old(State()), taskID.value, artifact, isFinal, needMoreData, event, wait)
    {
      event := null;
      err := CheckTask(taskID);
      if err.Some? {
        return;
      }
      var id := taskID.value;
      WithArtifactKeeps(State(), id, artifact, config);
      AppendArtifact(id, artifact);
      event := Announce(id, ArtifactUpdate(id, tasks[id].task.contextID, artifact, isFinal, needMoreData), wait);
    }

    /** The task lock's part of adding an artifact. */
    method AppendArtifact(taskID: string, artifact: Artifact)
      requires taskID in tasks
      modifies this`tasks
      ensures State() == WithArtifact(old(State()), taskID, artifact)
    {
      var entry := tasks[taskID];
      tasks := tasks[taskID := entry.(task := entry.task.(artifacts := Appended(entry.task.artifacts, artifact)))];
    }

    /** A given ID or a generated one; an ID in use is an error and nothing changes. */
    method BuildTask(specificTaskID: Option<string>, generatedID: string, contextID: Option<string>, now: int)
      returns (result: Result<string, TaskError>)
      requires Valid()
      modifies this
      ensures Valid()
      ensures var id := ActualID(specificTaskID, generatedID);
        if id in old(tasks) then result == Failure(TaskExists(id)) && State() == old(State())
        else result == Success(id)
             && State() == Build(old(State()), id, if contextID.Some? then contextID.value else "", now, config)
    {
      var id := if Named(specificTaskID) then specificTaskID.value else generatedID;
      if id in tasks {
        return Failure(TaskExists(id));
      }
      var context := if contextID.None? || contextID.value == "" then "" else contextID.value;
      BuildKeeps(State(), id, context, now, config);
      Insert(id, context, now);
      return Success(id);
    }

    /** Puts a new task with a new context into the map. */
    method Insert(taskID: string, contextID: string, now: int)
      modifies this`tasks, this`nextContext, this`lastWrite
      ensures State() == Build(old(State()), taskID, contextID, now, config)
    {
      tasks := tasks[taskID := Entry(NewTask(taskID, contextID, Stamp(config, now)), nextContext)];
      nextContext := nextContext + 1;
      lastWrite := lastWrite[taskID := now];
    }

    /** Adds a new subscriber at the end of a task's list. */
    method AddSubscriber(taskID: string, sub: MemoryTaskSubscriber)
      modifies this`subscribers
      ensures subscribers == old(subscribers)[taskID := old(State()).Listed(taskID) + [sub]]
    {
      if taskID !in subscribers {
        subscribers := subscribers[taskID := []];
      }
      subscribers := subscribers[taskID := subscribers[taskID] + [sub]];
    }

    /** Makes a subscriber and puts it on the list of a task. */
    method AttachNew(taskID: string, hookContext: string) returns (sub: MemoryTaskSubscriber)
      modifies this`subscribers, this`made
      ensures fresh(sub) && State() == Attach(old(State()), taskID, sub, sub.State())
      ensures sub.State()
           == NewSubscriber(taskID, config.bufferSize, config.blocking, hookContext, |old(State()).Log(taskID)|)
    {
      sub := new MemoryTaskSubscriber(taskID, config.bufferSize, config.blocking, hookContext, |State().Log(taskID)|);
      AddSubscriber(taskID, sub);
      made := made + {sub};
      assert Subs() == old(Subs())[sub := sub.State()];
    }

    /** What the two ways to subscribe have in common. */
    method Subscribe(taskID: string, hookContext: string) returns (sub: MemoryTaskSubscriber)
      requires Valid()
      modifies this`subscribers, this`made
      ensures Valid() && fresh(sub) && State() == Attach(old(State()), taskID, sub, sub.State())
      ensures sub.State()
           == NewSubscriber(taskID, config.bufferSize, config.blocking, hookContext, |old(State()).Log(taskID)|)
    {
      sub := AttachNew(taskID, hookContext);
      SubscribeKeeps(old(State()), taskID, sub, hookContext, config);
    }

    /** The hook fills in the context of the request that subscribes. */
    method SubscribeTask(taskID: Option<string>, contextID: string)
      returns (err: Option<TaskError>, sub: MemoryTaskSubscriber?)
      requires Valid()
      modifies this`subscribers, this`made
      ensures Valid() && err == TaskProblem(taskID, tasks)
      ensures err.Some? ==> State() == old(State())
      ensures err.None? ==>
        && sub != null && fresh(sub) && State() == Attach(old(State()), taskID.value, sub, sub.State())
        && sub.State() == NewSubscriber(taskID.value, config.bufferSize, config.blocking, contextID,
                                        |old(State()).Log(taskID.value)|)
    {
      sub := null;
      err := CheckTask(taskID);
      if err.Some? {
        return;
      }
      sub := Subscribe(taskID.value, contextID);
    }

    /** The hook of a resubscription fills in the task ID. */
    method OnResubscribe(taskID: string) returns (err: Option<TaskError>, sub: MemoryTaskSubscriber?)
      requires Valid()
      modifies this`subscribers, this`made
      ensures Valid() && (err == if taskID in tasks then None else Some(TaskNotFound(taskID)))
      ensures err.Some? ==> State() == old(State())
      ensures err.None? ==>
        && sub != null && fresh(sub) && State() == Attach(old(State()), taskID, sub, sub.State())
        && sub.State() == NewSubscriber(taskID, config.bufferSize, config.blocking, taskID, |old(State()).Log(taskID)|)
    {
      if taskID !in tasks {
        return Some(TaskNotFound(taskID)), null;
      }
      err := None;
      sub := Subscribe(taskID, taskID);
    }

    /** Drops push configurations. */
    method DropPush(ids: set<string>)
      modifies this`pushNotifications
      ensures State() == old(State()).(push := old(pushNotifications) - ids)
    {
      pushNotifications := pushNotifications - ids;
    }

    /** Stores a push configuration; nobody asks whether the task exists. */
    method OnPushNotificationSet(params: PushConfig)
      requires Valid()
      modifies this`pushNotifications
      ensures Valid() && State() == old(State()).(push := old(pushNotifications)[params.taskID := params])
    {
      PushChangeKeeps(State(), pushNotifications[params.taskID := params], config);
      SetPush(params);
    }

    /** The write of a push configuration. */
    method SetPush(params: PushConfig)
      modifies this`pushNotifications
      ensures State() == old(State()).(push := old(pushNotifications)[params.taskID := params])
    {
      pushNotifications := pushNotifications[params.taskID := params];
    }

    method OnPushNotificationGet(taskID: string) returns (result: Result<PushConfig, TaskError>)
      ensures result == if taskID in pushNotifications then Success(pushNotifications[taskID])
                        else Failure(TaskNotFound(taskID))
    {
      if taskID in pushNotifications {
        return Success(pushNotifications[taskID]);
      }
      return Failure(TaskNotFound(taskID));
    }

    /** Cancels a task and takes it out of the map. */
    method CancelAndDelete(taskID: string)
      requires taskID in tasks
      modifies this`tasks, this`cancelled
      ensures State()
         == old(State()).(tasks := old(tasks) - {taskID}, cancelled := old(cancelled) + {old(tasks)[taskID].context})
    {
      cancelled := cancelled + {tasks[taskID].context};
      tasks := tasks - {taskID};
    }

    /** Cancels and removes the task, closes its subscribers and drops its push configuration. */
    method CleanTask(taskID: Option<string>) returns (err: Option<TaskError>)
      requires Valid()
      modifies this, made
      ensures Valid() && err == TaskProblem(taskID, old(tasks))
      ensures State() == if err.Some? then old(State()) else Clean(old(State()), taskID.value)
    {
      err := CheckTask(taskID);
      if err.Some? {
        return;
      }
      var id := taskID.value;
      ListedAreThere(State(), id);
      RemoveOneTask(State(), id);
      CleanKeeps(State(), id, config);
      CancelAndDelete(id);
      TakeList(id);
      DropPush({id});
    }

    /** Cancelling removes the task; the answer is the removed task, marked canceled. */
    method OnCancelTask(taskID: string, now: int) returns (result: Result<Task, TaskError>)
      requires Valid()
      modifies this, made
      ensures Valid()
      ensures taskID !in old(tasks) ==> result == Failure(TaskNotFound(taskID)) && State() == old(State())
      ensures taskID in old(tasks) ==>
        && (taskID != "" ==> State() == Clean(old(State()), taskID)) && (taskID == "" ==> State() == old(State()))
        && var task := old(tasks)[taskID].task;
           result == Success(task.(status := task.status.(state := "canceled", timestamp := Stamp(config, now))))
    {
      if taskID !in tasks {
        return Failure(TaskNotFound(taskID));
      }
      var taskCopy := tasks[taskID].task;
      var err := CleanTask(Some(taskID));
      return Success(taskCopy.(status := taskCopy.status.(state := STATE_CANCELED, timestamp := Stamp(config, now))));
    }

    /** The scan of a sweep, in any order. */
    method FindExpired(now: int, maxAge: int) returns (ids: seq<string>)
      ensures Elements(ids) == ExpiredTasks(tasks, now, maxAge, config) && Distinct(ids)
    {
      ids := [];
      var remaining := tasks.Keys;
      while remaining != {}
        invariant remaining <= tasks.Keys && Distinct(ids)
        invariant forall id :: id in ids <==> id in tasks && id !in remaining && Expired(tasks[id], now, maxAge, config)
        decreases |remaining|
      {
        var id :| id in remaining;
        remaining := remaining - {id};
        var status := tasks[id].task.status;
        if IsFinalState(status.state) {
          var seconds := config.parse(status.timestamp);
          if seconds.Some? && now - seconds.value * NANOS_PER_SECOND > maxAge {
            ids := ids + [id];
          }
        }
      }
    }

    /** The removal of one task in a sweep; returns its list. */
    method RemoveTask(taskID: string) returns (subs: seq<MemoryTaskSubscriber>)
      requires taskID in tasks
      modifies this`tasks, this`subscribers, this`cancelled
      ensures tasks == old(tasks) - {taskID} && subscribers == old(subscribers) - {taskID}
      ensures cancelled == old(cancelled) + {old(tasks)[taskID].context}
      ensures subs == if taskID in old(subscribers) then old(subscribers)[taskID] else []
    {
      CancelAndDelete(taskID);
      subs := if taskID in subscribers then subscribers[taskID] else [];
      subscribers := subscribers - {taskID};
    }

    /** The task lock's part of a sweep. */
    method RemoveExpired(ids: seq<string>) returns (toClose: seq<MemoryTaskSubscriber>)
      requires Elements(ids) <= tasks.Keys && Distinct(ids)
      modifies this`tasks, this`subscribers, this`cancelled
      ensures tasks == old(tasks) - Elements(ids) && subscribers == old(subscribers) - Elements(ids)
      ensures cancelled == old(cancelled) + ContextsOf(old(tasks), Elements(ids))
      ensures toClose == Collected(old(subscribers), ids)
    {
      toClose := [];
      for i := 0 to |ids|
        invariant tasks == old(tasks) - Elements(ids[..i])
        invariant subscribers == old(subscribers) - Elements(ids[..i])
        invariant cancelled == old(cancelled) + ContextsOf(old(tasks), Elements(ids[..i]))
        invariant toClose == Collected(old(subscribers), ids[..i])
      {
        OneMore(ids, i);
        ContextsOfOneMore(old(tasks), Elements(ids[..i]), ids[i]);
        var subs := RemoveTask(ids[i]);
        toClose := toClose + subs;
      }
      assert ids[..|ids|] == ids;
    }

    /** The loop that drops the push configurations of a sweep. */
    method DropPushes(ids: seq<string>)
      modifies this`pushNotifications
      ensures State() == old(State()).(push := old(pushNotifications) - Elements(ids))
    {
      for i := 0 to |ids|
        invariant pushNotifications == old(pushNotifications) - Elements(ids[..i])
      {
        assert ids[..i + 1] == ids[..i] + [ids[i]];
        pushNotifications := pushNotifications - {ids[i]};
      }
      assert ids[..|ids|] == ids;
    }

    /** Takes tasks with their lists out of the maps, then closes what was on the lists. */
    method RemoveAndClose(ids: seq<string>)
      requires Elements(ids) <= tasks.Keys && Distinct(ids) && Lists(State())
      modifies this`tasks, this`subscribers, this`cancelled, made
      ensures State() == RemoveTasks(old(State()), Elements(ids))
    {
      CollectedAreThere(State(), ids);
      RemoveManyTasks(State(), ids);
      var toClose := RemoveExpired(ids);
      CloseEach(toClose);
    }

    /** Reaps the final tasks that are older than `maxAge`. */
    method CleanExpiredTasks(now: int, maxAge: int) returns (count: nat)
      requires Valid()
      modifies this, made
      ensures Valid() && State() == Sweep(old(State()), now, maxAge, config)
      ensures count == if maxAge <= 0 then 0 else |ExpiredTasks(old(tasks), now, maxAge, config)|
    {
      if maxAge <= 0 {
        return 0;
      }
      SweepKeeps(State(), now, maxAge, config);
      count := RemoveOld(now, maxAge);
    }

    /** A sweep with a positive limit. */
    method RemoveOld(now: int, maxAge: int) returns (count: nat)
      requires Lists(State()) && maxAge > 0
      modifies this`tasks, this`subscribers, this`cancelled, this`pushNotifications, made
      ensures State() == Sweep(old(State()), now, maxAge, config)
      ensures count == |ExpiredTasks(old(tasks), now, maxAge, config)|
    {
      var ids := FindExpired(now, maxAge);
      DistinctCount(ids);
      Reap(ids);
      return |ids|;
    }

    /** What a sweep does to the tasks it has found. */
    method Reap(ids: seq<string>)
      requires Elements(ids) <= tasks.Keys && Distinct(ids) && Lists(State())
      modifies this`tasks, this`subscribers, this`cancelled, this`pushNotifications, made
      ensures State() == RemoveTasks(old(State()), Elements(ids)).(push := old(pushNotifications) - Elements(ids))
    {
      RemoveAndClose(ids);
      DropPushes(ids);
    }

    /** Collects all subscribers, in any order of the tasks. */
    method CollectAll() returns (toClose: seq<MemoryTaskSubscriber>, ghost ids: seq<string>)
      ensures Elements(ids) == subscribers.Keys && toClose == Collected(subscribers, ids)
    {
      toClose, ids := [], [];
      var remaining := subscribers.Keys;
      while remaining != {}
        invariant remaining <= subscribers.Keys && Elements(ids) == subscribers.Keys - remaining
        invariant toClose == Collected(subscribers, ids)
        decreases |remaining|
      {
        var id :| id in remaining;
        remaining := remaining - {id};
        assert (ids + [id])[..|ids|] == ids;
        assert Elements(ids + [id]) == Elements(ids) + {id};
        toClose, ids := toClose + subscribers[id], ids + [id];
      }
    }

    /** Cancels every task, in any order. */
    method CancelAll()
      modifies this`cancelled
      ensures cancelled == old(cancelled) + ContextsOf(tasks, tasks.Keys)
    {
      var remaining := tasks.Keys;
      while remaining != {}
        invariant remaining <= tasks.Keys && cancelled == old(cancelled) + ContextsOf(tasks, tasks.Keys - remaining)
        decreases |remaining|
      {
        var id :| id in remaining;
        ContextsOfOneMore(tasks, tasks.Keys - remaining, id);
        assert tasks.Keys - remaining + {id} == tasks.Keys - (remaining - {id});
        remaining := remaining - {id};
        cancelled := cancelled + {tasks[id].context};
      }
      assert tasks.Keys - remaining == tasks.Keys;
    }

    /** The task lock's part of stopping the manager. */
    method ClearAll() returns (toClose: seq<MemoryTaskSubscriber>, ghost ids: seq<string>)
      modifies this`tasks, this`subscribers, this`cancelled, this`stopped
      ensures stopped
      ensures Elements(ids) == old(subscribers).Keys && toClose == Collected(old(subscribers), ids)
      ensures tasks == map[] && subscribers == map[]
      ensures cancelled == old(cancelled) + ContextsOf(old(tasks), old(tasks).Keys)
    {
      stopped := true;
      toClose, ids := CollectAll();
      subscribers := map[];
      CancelAll();
      tasks := map[];
    }

    /** Stops the manager: every task is cancelled, every subscriber closed.  Only the first call
        does anything. */
    method Close()
      requires Valid()
      modifies this, made
      ensures Valid() && stopped
      ensures old(stopped) ==> State() == old(State())
      ensures !old(stopped) ==> State() == Shutdown(old(State()))
    {
      if !stopped {
        Stop();
      }
    }

    /** What the first call of Close does. */
    method Stop()
      requires Valid()
      modifies this`tasks, this`subscribers, this`cancelled, this`stopped, made
      ensures Valid() && stopped && State() == Shutdown(old(State()))
    {
      ShutdownKeeps(State(), config);
      CloseAllSubscribers();
    }

    /** The same, stated on the whole state. */
    method EmptyMaps() returns (toClose: seq<MemoryTaskSubscriber>, ghost ids: seq<string>)
      modifies this`tasks, this`subscribers, this`cancelled, this`stopped
      ensures stopped
      ensures Elements(ids) == old(subscribers).Keys && toClose == Collected(old(subscribers), ids)
      ensures State() == old(State()).(tasks := map[], subscribers := map[],
                                       cancelled := old(cancelled) + ContextsOf(old(tasks), old(tasks).Keys))
    {
      toClose, ids := ClearAll();
    }

    /** Empties the maps under the lock, then closes all subscribers. */
    method CloseAllSubscribers()
      requires Lists(State())
      modifies this`tasks, this`subscribers, this`cancelled, this`stopped, made
      ensures stopped && State() == Shutdown(old(State()))
    {
      var toClose, ids := EmptyMaps();
      CollectedAreThere(old(State()), ids);
      ShutdownSteps(old(State()), ids);
      CloseEach(toClose);
    }
  }

  function TaskProblem(id: Option<string>, tasks: map<string, Entry>): Option<TaskError> {
    if !Named(id) then Some(EmptyID) else if id.value !in tasks then Some(TaskNotFound(id.value)) else None
  }

  /** A missing or empty ID and an unknown task are told apart, and nothing else is an error. */
  lemma ProblemsAre(id: Option<string>, tasks: map<string, Entry>)
    ensures TaskProblem(id, tasks) == Some(EmptyID) <==> id == None || id == Some("")
    ensures forall name :: TaskProblem(id, tasks) == Some(TaskNotFound(name)) <==>
      id == Some(name) && name != "" && name !in tasks
    ensures TaskProblem(id, tasks) == None <==> id.Some? && id.value != "" && id.value in tasks
  {
  }
}
