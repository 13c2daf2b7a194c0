/**
 What the operations of the in-memory task manager do to its tasks, subscribers and push
 configurations, each operation as one step.  Subscribers and events are shared objects, `S` and
 `E` are their identities.  Times are nanoseconds; a timestamp keeps whole seconds.
 */
module Registry {
  import opened Wrappers
  import opened Protocol

  const NANOS_PER_SECOND: int := 1_000_000_000
  const DEFAULT_SUBSCRIBER_BUFFER_SIZE: int := 1024

  const STATE_SUBMITTED := "submitted"
  const STATE_COMPLETED := "completed"
  const STATE_FAILED := "failed"
  const STATE_CANCELED := "canceled"
  const STATE_REJECTED := "rejected"

  predicate IsFinalState(state: string) {
    state == STATE_COMPLETED || state == STATE_FAILED || state == STATE_CANCELED || state == STATE_REJECTED
  }

  type Capacity = n: int | n > 0 witness 1

  /** `received` and `registeredAt` are history: what the consumer took from the queue, and how
      many events had been published for the task when the subscriber was registered. */
  datatype Subscriber<E> = Subscriber(
    taskID: string, capacity: Capacity, blocking: bool, hookContext: string,
    queue: seq<E>, closed: bool, received: seq<E>, registeredAt: nat)

  datatype Entry = Entry(task: Task, context: nat)

  datatype PushConfig = PushConfig(taskID: string, url: string)

  /** `subs` and `events` give the state of every subscriber and event object ever made.  `log`
      (the events published for a task ID) and `lastWrite` (of a task's status) are history. */
  datatype Registry<!S, !E> = Registry(
    tasks: map<string, Entry>,
    subscribers: map<string, seq<S>>,
    push: map<string, PushConfig>,
    cancelled: set<nat>, nextContext: nat,
    subs: map<S, Subscriber<E>>,
    events: map<E, Event>,
    log: map<string, seq<E>>,
    lastWrite: map<string, int>)
  {
    ghost function Listed(id: string): seq<S> { if id in subscribers then subscribers[id] else [] }

    ghost function Log(id: string): seq<E> { if id in log then log[id] else [] }
  }

  datatype Config = Config(bufferSize: int, blocking: bool, format: int -> string, parse: string -> Option<int>)

  /** Formatting a whole second and parsing it gives the second back. */
  ghost predicate Faithful(c: Config) { forall sec: int :: c.parse(c.format(sec)) == Some(sec) }

  function Stamp(c: Config, now: int): string { c.format(now / NANOS_PER_SECOND) }

  datatype TaskError = EmptyID | TaskNotFound(id: string) | TaskExists(id: string)

  predicate Named(id: Option<string>) { id.Some? && id.value != "" }

  // ---------------------------------------------------------------------------------------
  // One subscriber

  /** How a blocking send on a full queue goes on: the consumer makes room, or someone closes. */
  datatype Wait = ConsumerReceives | ClosedMeanwhile

  predicate Rejects<E>(x: Subscriber<E>, wait: Wait) {
    x.closed || (|x.queue| >= x.capacity && (!x.blocking || wait == ClosedMeanwhile))
  }

  function Sent<E>(x: Subscriber<E>, e: E, wait: Wait): Subscriber<E> {
    if x.closed then x
    else if |x.queue| < x.capacity then x.(queue := x.queue + [e])
    else if !x.blocking then x
    else if wait == ClosedMeanwhile then x.(closed := true)
    else x.(received := x.received + [x.queue[0]], queue := x.queue[1..] + [e])
  }

  function Received<E>(x: Subscriber<E>): Subscriber<E> {
    if x.queue == [] then x else x.(received := x.received + [x.queue[0]], queue := x.queue[1..])
  }

  /** The hook of the manager's subscribers. */
  function WithContext(event: Event, context: string): Event {
    match event
    case StatusEvent(s) => if s.contextID == "" then StatusEvent(s.(contextID := context)) else event
    case ArtifactEvent(a) => if a.contextID == "" then ArtifactEvent(a.(contextID := context)) else event
    case TaskEvent(t) => if t.contextID == "" then TaskEvent(t.(contextID := context)) else event
    case MessageEvent(_) => event
  }

  function NewSubscriber<E>(id: string, bufferSize: int, blocking: bool, hookContext: string, at: nat): Subscriber<E> {
    Subscriber(id, if bufferSize <= 0 then DEFAULT_SUBSCRIBER_BUFFER_SIZE else bufferSize, blocking, hookContext,
               [], false, [], at)
  }

  // ---------------------------------------------------------------------------------------
  // Fan-out

  datatype Delivery<!S, !E> = Delivery(subs: map<S, Subscriber<E>>, event: Event, failed: seq<S>)

  ghost predicate AllIn<S, E>(targets: seq<S>, subs: map<S, Subscriber<E>>) {
    forall i :: 0 <= i < |targets| ==> targets[i] in subs
  }

  /** Sends an event to the targets, in order; the i-th send waits, if it must, as `wait(i)` says. */
  ghost function Deliver<S, E>(subs: map<S, Subscriber<E>>, event: Event, targets: seq<S>, e: E, wait: nat -> Wait)
    : (d: Delivery<S, E>)
    requires AllIn(targets, subs)
    ensures d.subs.Keys == subs.Keys
  {
    if targets == [] then Delivery(subs, event, [])
    else
      var n := |targets| - 1;
      var d := Deliver(subs, event, targets[..n], e, wait);
      var s := targets[n];
      var x := d.subs[s];
      Delivery(d.subs[s := Sent(x, e, wait(n))],
               if x.closed then d.event else WithContext(d.event, x.hookContext),
               if Rejects(x, wait(n)) then d.failed + [s] else d.failed)
  }

  /** Those that are not in `gone`, in their order. */
  ghost function Without<S>(xs: seq<S>, gone: seq<S>): seq<S> {
    if xs == [] then []
    else
      var n := |xs| - 1;
      Without(xs[..n], gone) + if xs[n] in gone then [] else [xs[n]]
  }

  ghost function Within<S>(xs: seq<S>, gone: seq<S>): seq<S> {
    if xs == [] then []
    else
      var n := |xs| - 1;
      Within(xs[..n], gone) + if xs[n] in gone then [xs[n]] else []
  }

  ghost function CloseAll<S, E>(subs: map<S, Subscriber<E>>, xs: seq<S>): map<S, Subscriber<E>> {
    map s | s in subs :: if s in xs then subs[s].(closed := true) else subs[s]
  }

  ghost function ListsAfter<S>(subscribers: map<string, seq<S>>, id: string, listed: seq<S>, failed: seq<S>)
    : map<string, seq<S>>
  {
    if Within(listed, failed) == [] then subscribers
    else if Without(listed, failed) == [] then subscribers - {id}
    else subscribers[id := Without(listed, failed)]
  }

  /** Takes the failed subscribers off the list of a task, and closes those taken off. */
  ghost function DropFailed<S, E>(r: Registry<S, E>, id: string, failed: seq<S>): Registry<S, E> {
    r.(subscribers := ListsAfter(r.subscribers, id, r.Listed(id), failed),
       subs := CloseAll(r.subs, Within(r.Listed(id), failed)))
  }

  ghost function Publish<S, E>(r: Registry<S, E>, id: string, e: E, event: Event, wait: nat -> Wait): Registry<S, E>
    requires AllIn(r.Listed(id), r.subs)
  {
    var d := Deliver(r.subs, event, r.Listed(id), e, wait);
    var sent := r.(subs := d.subs, events := r.events[e := d.event], log := r.log[id := r.Log(id) + [e]]);
    DropFailed(sent, id, d.failed)
  }

  /** Takes whole lists out of the registry and closes their members. */
  ghost function CloseLists<S, E>(r: Registry<S, E>, ids: set<string>): Registry<S, E> {
    r.(subscribers := r.subscribers - ids,
       subs := map s | s in r.subs :: if InLists(r, ids, s) then r.subs[s].(closed := true) else r.subs[s])
  }

  ghost predicate InLists<S, E>(r: Registry<S, E>, ids: set<string>, s: S) {
    exists id :: id in ids && s in r.Listed(id)
  }

  ghost function ContextsOf(tasks: map<string, Entry>, ids: set<string>): set<nat> {
    set id | id in ids && id in tasks :: tasks[id].context
  }

  /** Removes tasks with their lists; their contexts are cancelled. */
  ghost function RemoveTasks<S, E>(r: Registry<S, E>, ids: set<string>): Registry<S, E> {
    CloseLists(r, ids).(
      tasks := r.tasks - ids,
      cancelled := r.cancelled + ContextsOf(r.tasks, ids))
  }

  ghost function Attach<S, E>(r: Registry<S, E>, id: string, s: S, x: Subscriber<E>): Registry<S, E> {
    r.(subscribers := r.subscribers[id := r.Listed(id) + [s]], subs := r.subs[s := x])
  }

  // ---------------------------------------------------------------------------------------
  // The operations

  function NewTask(id: string, context: string, stamp: string): Task {
    Task(Some([]), context, Some([]), id, KIND_TASK, Some(map[]), TaskStatus(STATE_SUBMITTED, None, stamp))
  }

  ghost function Build<S, E>(r: Registry<S, E>, id: string, context: string, now: int, c: Config): Registry<S, E> {
    r.(tasks := r.tasks[id := Entry(NewTask(id, context, Stamp(c, now)), r.nextContext)],
       nextContext := r.nextContext + 1, lastWrite := r.lastWrite[id := now])
  }

  function StatusUpdate(task: Task): Event {
    StatusEvent(TaskStatusUpdateEvent(
      task.contextID, IsFinalState(task.status.state), KIND_STATUS_UPDATE, None, task.status, task.id))
  }

  function ArtifactUpdate(id: string, context: string, a: Artifact, isFinal: bool, needMoreData: bool): Event {
    ArtifactEvent(TaskArtifactUpdateEvent(
      Some(needMoreData), a, context, KIND_ARTIFACT_UPDATE, Some(isFinal), None, id))
  }

  ghost function WriteStatus<S, E>(r: Registry<S, E>, id: string, status: TaskStatus, now: int): Registry<S, E>
    requires id in r.tasks
  {
    var entry := r.tasks[id];
    r.(tasks := r.tasks[id := entry.(task := entry.task.(status := status))], lastWrite := r.lastWrite[id := now])
  }

  /** Writes the status, publishes it, and after a final one takes the task's subscribers away. */
  ghost function Update<S, E>(r: Registry<S, E>, id: string, status: TaskStatus, now: int, e: E, wait: nat -> Wait)
    : Registry<S, E>
    requires id in r.tasks && AllIn(r.Listed(id), r.subs)
  {
    var written := WriteStatus(r, id, status, now);
    var published := Publish(written, id, e, StatusUpdate(written.tasks[id].task), wait);
    if IsFinalState(status.state) then CloseLists(published, {id}) else published
  }

  function Appended(artifacts: Option<seq<Artifact>>, a: Artifact): Option<seq<Artifact>> {
    Some((if artifacts.Some? then artifacts.value else []) + [a])
  }

  ghost function WithArtifact<S, E>(r: Registry<S, E>, id: string, a: Artifact): Registry<S, E>
    requires id in r.tasks
  {
    var entry := r.tasks[id];
    r.(tasks := r.tasks[id := entry.(task := entry.task.(artifacts := Appended(entry.task.artifacts, a)))])
  }

  ghost function ArtifactAdded<S, E>(r: Registry<S, E>, id: string, a: Artifact, isFinal: bool, needMoreData: bool,
                                   e: E, wait: nat -> Wait): Registry<S, E>
    requires id in r.tasks && AllIn(r.Listed(id), r.subs)
  {
    Publish(WithArtifact(r, id, a), id, e,
            ArtifactUpdate(id, r.tasks[id].task.contextID, a, isFinal, needMoreData), wait)
  }

  ghost function Clean<S, E>(r: Registry<S, E>, id: string): Registry<S, E> {
    RemoveTasks(r, {id}).(push := r.push - {id})
  }

  predicate Expired(entry: Entry, now: int, maxAge: int, c: Config) {
    && IsFinalState(entry.task.status.state)
    && c.parse(entry.task.status.timestamp).Some?
    && now - c.parse(entry.task.status.timestamp).value * NANOS_PER_SECOND > maxAge
  }

  ghost function ExpiredTasks(tasks: map<string, Entry>, now: int, maxAge: int, c: Config): set<string> {
    set id | id in tasks && Expired(tasks[id], now, maxAge, c)
  }

  ghost function Sweep<S, E>(r: Registry<S, E>, now: int, maxAge: int, c: Config): Registry<S, E> {
    if maxAge <= 0 then r
    else
      var gone := ExpiredTasks(r.tasks, now, maxAge, c);
      RemoveTasks(r, gone).(push := r.push - gone)
  }

  /** Everything but the push configurations goes. */
  ghost function Shutdown<S, E>(r: Registry<S, E>): Registry<S, E> {
    RemoveTasks(r, r.tasks.Keys + r.subscribers.Keys)
  }

  // ---------------------------------------------------------------------------------------
  // Runs

  datatype Op<S, E> =
    | BuildTask(id: Option<string>, freshID: string, context: Option<string>, now: int)
    | UpdateTaskState(id: Option<string>, status: TaskStatus, now: int, event: E, wait: nat -> Wait)
    | AddTaskArtifact(id: Option<string>, artifact: Artifact, isFinal: bool, needMoreData: bool, event: E, wait: nat -> Wait)
    | AddSubscriber(taskID: string, sub: S, hookContext: string)
    | Resubscribe(taskID: string, sub: S)
    | CleanTask(id: Option<string>)
    | SetPush(push: PushConfig)
    | Receive(sub: S)
    | CloseSubscriber(sub: S)
    | CleanExpiredTasks(now: int, maxAge: int)
    | CloseManager

  function ActualID(id: Option<string>, freshID: string): string { if Named(id) then id.value else freshID }

  /** New objects are new, and a status is stamped with the time it is written. */
  ghost predicate Allowed<S, E>(r: Registry<S, E>, op: Op<S, E>, c: Config) {
    match op
    case UpdateTaskState(_, status, now, e, _) => status.timestamp == Stamp(c, now) && e !in r.events
    case AddTaskArtifact(_, _, _, _, e, _) => e !in r.events
    case AddSubscriber(_, s, _) => s !in r.subs
    case Resubscribe(_, s) => s !in r.subs
    case Receive(s) => s in r.subs
    case CloseSubscriber(s) => s in r.subs
    case _ => true
  }

  /** One operation; those that return an error change nothing.  SubscribeTask looks for its task
      and registers in two lock sections; AddSubscriber is the second and does not look again. */
  ghost function Step<S, E>(r: Registry<S, E>, op: Op<S, E>, c: Config): Registry<S, E>
    requires Lists(r) && Allowed(r, op, c)
  {
    match op
    case BuildTask(id, freshID, context, now) =>
      if ActualID(id, freshID) in r.tasks then r
      else Build(r, ActualID(id, freshID), if context.Some? then context.value else "", now, c)
    case UpdateTaskState(id, status, now, e, wait) =>
      if Named(id) && id.value in r.tasks then Update(r, id.value, status, now, e, wait) else r
    case AddTaskArtifact(id, a, isFinal, needMoreData, e, wait) =>
      if Named(id) && id.value in r.tasks then ArtifactAdded(r, id.value, a, isFinal, needMoreData, e, wait) else r
    case AddSubscriber(id, s, context) =>
      Attach(r, id, s, NewSubscriber(id, c.bufferSize, c.blocking, context, |r.Log(id)|))
    case Resubscribe(id, s) =>
      if id in r.tasks then
        Attach(r, id, s, NewSubscriber(id, c.bufferSize, c.blocking, id, |r.Log(id)|))
      else r
    case CleanTask(id) => if Named(id) && id.value in r.tasks then Clean(r, id.value) else r
    case SetPush(config) => r.(push := r.push[config.taskID := config])
    case Receive(s) => r.(subs := r.subs[s := Received(r.subs[s])])
    case CloseSubscriber(s) => r.(subs := r.subs[s := r.subs[s].(closed := true)])
    case CleanExpiredTasks(now, maxAge) => Sweep(r, now, maxAge, c)
    case CloseManager => Shutdown(r)
  }

  // ---------------------------------------------------------------------------------------
  // The invariant

  ghost predicate ListOk<S, E>(r: Registry<S, E>, id: string, xs: seq<S>) {
    && xs != [] && Distinct(xs)
    && forall i :: 0 <= i < |xs| ==> xs[i] in r.subs && r.subs[xs[i]].taskID == id
  }

  /** No list is empty, its members are distinct and subscribe to its task. */
  ghost predicate Lists<S, E>(r: Registry<S, E>) {
    forall id :: id in r.subscribers ==> ListOk(r, id, r.subscribers[id])
  }

  /** Only live tasks have a list. */
  ghost predicate Live<S, E>(r: Registry<S, E>) { forall id :: id in r.subscribers ==> id in r.tasks }

  /** Only live tasks have a push configuration. */
  ghost predicate PushLive<S, E>(r: Registry<S, E>) { forall id :: id in r.push ==> id in r.tasks }

  /** An open subscriber is on the list of its task. */
  ghost predicate OpenAreListed<S, E>(r: Registry<S, E>) {
    forall s :: s in r.subs && !r.subs[s].closed ==> s in r.Listed(r.subs[s].taskID)
  }

  /** What a subscriber received and still has queued are the events published for its task since
      it registered, without a gap: all of them while it is open, a beginning afterwards. */
  ghost predicate GapFree<E>(x: Subscriber<E>, log: seq<E>) {
    && x.registeredAt <= |log|
    && x.received + x.queue <= log[x.registeredAt..]
    && (!x.closed ==> x.received + x.queue == log[x.registeredAt..])
    && |x.queue| <= x.capacity
  }

  ghost predicate FanOut<S, E>(r: Registry<S, E>) {
    forall s :: s in r.subs ==> GapFree(r.subs[s], r.Log(r.subs[s].taskID))
  }

  /** Timestamps are the seconds of the last status writes. */
  ghost predicate Stamped<S, E>(r: Registry<S, E>, c: Config) {
    forall id :: id in r.tasks ==>
      && id in r.lastWrite && r.tasks[id].task.status.timestamp == Stamp(c, r.lastWrite[id])
      && r.tasks[id].task.id == id
  }

  /** Live tasks are not cancelled, and share no context. */
  ghost predicate Contexts<S, E>(r: Registry<S, E>) {
    && (forall id :: id in r.tasks ==> r.tasks[id].context < r.nextContext && r.tasks[id].context !in r.cancelled)
    && (forall id, id' :: id in r.tasks && id' in r.tasks && r.tasks[id].context == r.tasks[id'].context ==> id == id')
    && (forall n :: n in r.cancelled ==> n < r.nextContext)
  }

  ghost predicate SubscribersOk<S, E>(r: Registry<S, E>) { Lists(r) && OpenAreListed(r) && FanOut(r) }

  ghost predicate TasksOk<S, E>(r: Registry<S, E>, c: Config) { Stamped(r, c) && Contexts(r) }

  ghost predicate Inv<S, E>(r: Registry<S, E>, c: Config) { SubscribersOk(r) && TasksOk(r, c) }

  ghost function Empty<S, E>(): Registry<S, E> { Registry(map[], map[], map[], {}, 0, map[], map[], map[], map[]) }
}
