# A model of the in-memory task engine and its event pipeline

The repository is a Go library for agent-to-agent messaging. This project models its core in Dafny and proves
what the core keeps: the protocol of one task subscriber, the registry of tasks and subscribers, the conversation
store (in memory and in Redis), the server-sent-events pipeline from a subscriber's queue to the caller of the
client, and the union types on the wire. `dafny verify dfyconfig.toml` checks everything.

| file | what it models |
|---|---|
| SubscriberProtocol.dfy | `Send`, `Close` and the consumer of one subscriber as a step machine with a program counter for each thread |
| LockSections.dfy | every manager operation as a script of lock sections, run by any number of threads, with the manager's Close and the cleanup goroutine |
| LateRegistration.dfy | when a subscription that overlaps with the removal of its task leaves a list without a task |
| FanOut.dfy | the notifications of one task at the grain of lock sections and sends, overlapping in any way |
| Registry.dfy, RegistryRuns.dfy | the effect of every registry operation as one step, and what holds of all runs |
| TaskOutcomes.dfy | what the operations on tasks do, with states and kinds spelled out |
| SerialRuns.dfy | the lock-section machine refines the registry: runs in which calls take turns |
| MemoryTaskManager.dfy | the manager and its subscribers as classes, each method proved against `Registry` |
| Conversations.dfy, ConversationLog.dfy | the message windows as a class, and their agreement with a log that never forgets |
| RedisConversations.dfy, RedisRuns.dfy | the SET/RPUSH/EXPIRE/LTRIM/LRANGE window, its reads after any commands, with expiry and failures |
| RedisBackends.dfy | the agreement of the Redis window with the one in memory |
| Protocol.dfy, RoundTrip.dfy | messages, tasks, artifacts, parts and events over a JSON tree, encoding and decoding |
| WireValues.dfy | what survives the encoding, what exactly decodes, and to what, member by member |
| NullDecoding.dfy | on which inputs exactly decoding panics |
| Sse.dfy, SseRoundTrip.dfy | the printer and the parser of event streams; round trip, batches, streams cut anywhere |
| EventStreamStandard.dfy | event dispatch as sections 9.2.5 and 9.2.6 of the WHATWG HTML Living Standard define it |
| StreamRelay.dfy, SseTunnel.dfy, StreamClient.dfy | the relay and the batching tunnel of the server, and the processing loop of the client |
| Pipeline.dfy | all stages together as a step machine, with cancels, failed writes and a connection cut anywhere |
| EndToEnd.dfy | the pipeline with the wire types: what a subscriber accepts is what the caller of the client gets |
| StreamBody.dfy | the response body that closes once |
| Wrappers.dfy | options, results, lists without repetition |

How the model reads the source:

- A step of SubscriberProtocol is one access to shared state, so all interleavings of senders, closers and the
  consumer are runs. The read/write lock is Go's: a writer that has asked keeps new readers out.
- LockSections merges what one critical section does into one step. Ownership of subscribers and deadlock are
  answered there. Registry takes each operation as one step; its classes follow the loops of the source. SerialRuns
  proves that a call of LockSections without another call in between does what the step of Registry does.
- Times are integers (nanoseconds) and parameters. Formatting a timestamp keeps whole seconds; formatting and
  parsing are parameters of which only `parse(format(sec)) == sec` is assumed, and only by the results on sweeps.
- Redis keys expire at a deadline; the times to live of values and of lists are parameters. A command that fails may
  have been executed or not.
- Fresh IDs, which select branch fires, whether a write fails, when a context is done and what the wrapped `Close`
  returns are parameters or actions, so every outcome is covered.
- Decoding works on a JSON tree; the order of a task's members in the text is a parameter. A wrong-typed scalar is kept
  as the error and decoding goes on; a nested message or artifact that fails or panics ends it there.
- Bytes are characters; a payload is any byte sequence without a line feed and without a final carriage return,
  which is what JSON text on one line is.

Where the code and its documentation or an expectation differ, the model follows the code:

- A final task state is not absorbing. `RegistryRuns.FinalIsLeftOnlyByUpdate` says exactly which operation leaves it.
- Message IDs used twice can break histories, at once or at a later store.
  `ConversationLog.RepeatedIDLosesTheMessage` and `ConversationLog.FreshIDLosesARepeatedMessage` are inputs that lose a
  message; `ConversationLog.HistoriesStayRight` says of every run exactly when it loses none.
- The reader keeps an event name over a block without data, the standard forgets it
  (`EventStreamStandard.NamesWithoutDataStick`). `EventStreamStandard.ReaderAgreesWithTheStandard` says exactly on which
  streams that makes a difference.
- A subscription looks for its task in one lock section and registers in another. If the task is removed in between,
  a list without a task and an open subscriber are left (`LateRegistration.AnOrphanIsLeft`). The list stays until the
  ID is built again or the manager is closed, the subscriber open unless its user closes it (`RegistryRuns.OrphansStay`).
  Nothing else does it: `LateRegistration.OnlyLateRegistrationsOrphan` and `LateRegistration.ListsStayLive`.
- Notifications of one task that overlap can leave a subscriber a gap (`FanOut.OverlapLeavesAGap`: refused by a full
  queue, then sent the next event before it is dropped) and can reach two subscribers in opposite orders
  (`FanOut.OverlapReorders`). `FanOut.GapFreeRuns` says exactly when there is no gap; without overlap there is none.
- A Redis list whose renewal fails expires before its messages (`RedisRuns.FailedRenewalLosesHistory`), and the error is
  passed over. `RedisRuns.RedisHistoriesStayRight` says exactly when no history is lost.
- A push configuration may exist without a task, and stopping the manager keeps the configurations
  (`RegistryRuns.PushWithoutTask`); no other operation leaves one behind (`RegistryRuns.PushOutlivesTasks`).
- A resubscription fills in the task ID where events lack a context ID, a subscription the context of its request.
  `RegistryRuns.ResubscriptionFillsTheTaskID` is a run; `RegistryRuns.TaskIDAsContext` says exactly when an event
  carries the task ID as its context.
- A subscriber that registers after a final update copied the list, and before the update takes the list away, is closed
  without the final event (`FanOut.LateSubscriberMissesTheFinal`). `FanOut.FinalEventReaches` says exactly which
  subscribers the final event reaches.
- Decoding a message or an artifact panics on a literal null and on nothing else (`NullDecoding.OnlyNullPanics`), so
  decoding a task or an event does not always return (`NullDecoding.NullsPanic`, `NullDecoding.NullArtifactPanics`).
  `NullDecoding.EventPanics` and `NullDecoding.ResultPanics` say exactly on which inputs, given the order of the
  members, which can decide (`NullDecoding.TheOrderDecides`); `NullDecoding.WithoutNullItReturns` and
  `NullDecoding.WithNullItPanics` say what holds in every order.
- A task update or a message survives the encoding only if its `Kind` fields are those of its Go types; the round
  trip is stated as an if-and-only-if.

## Model

| member | source | states |
|---|---|---|
| SubscriberProtocol.RunsAreSafe | taskmanager/memory.go:130-188 | on every run of any number of Sends and Closes: nobody sends on or closes a closed channel, done and the queue are closed at most once and in that order after the flag, received then queued events are the accepted ones in order, and a Send returns nil exactly for the events it enqueued |
| SubscriberProtocol.ChannelsStep | taskmanager/memory.go:130-188 | no step sends on a closed queue or closes a channel twice, because senders hold the read lock and the flag is set before the write lock is asked for |
| SubscriberProtocol.LockStep | taskmanager/memory.go:130-188 | the write lock excludes all other holders, in every step |
| SubscriberProtocol.FifoStep | taskmanager/memory.go:173-187 | received followed by queued equals the accepted events, in every step |
| SubscriberProtocol.SendersToldStep | taskmanager/memory.go:173-187 | what the Sends reported as sent is what they enqueued, thread by thread |
| SubscriberProtocol.WorkShrinks | taskmanager/memory.go:152-188 | once the flag is set, a step of a sender strictly lowers the sum of remaining steps, and no other step raises it |
| SubscriberProtocol.SendsAreBoundedOnceClosed | taskmanager/memory.go:130-188 | after the flag is set the senders take, on any run, at most as many more steps as that sum says |
| SubscriberProtocol.NobodyKeepsTheWriterOut | taskmanager/memory.go:130-188 | with done closed every sender that holds the read lock has an enabled step, also one at a full queue |
| SubscriberProtocol.CloseCompletes | taskmanager/memory.go:130-139 | from every reachable state with the flag set, steps of senders and of the winning Close alone, no more than they have left, close the queue |
| SubscriberProtocol.CloseIsBounded | taskmanager/memory.go:130-139 | on every run after the flag is set, whatever else happens between, the steps of senders and of the winning Close together with what they then still have to do are at most what they had to do at the start; when the winner has nothing left the queue is closed |
| SubscriberProtocol.OnlyBlockingSendsWait | taskmanager/memory.go:170-187 | at the select a Send can go on if and only if there is room, done is closed or the subscriber does not block; a full queue refuses at once exactly without blocking |
| SubscriberProtocol.OtherStepsDoNotWait | taskmanager/memory.go:152-170 | at every other point of a Send its thread can go on, but for a writer that keeps it from the lock |
| SubscriberProtocol.RefusalsHaveACause | taskmanager/memory.go:152-188 | on every run a step that ends a Send without enqueuing is an error of the hook, or comes after the flag is set, or at a full queue that does not block; only a select with room enqueues, and exactly the event of that Send |
| SubscriberProtocol.BlockingRefusesOnlyWhenClosed | taskmanager/memory.go:171-178 | on every run of a blocking subscriber a Send is refused only by its hook or after the flag is set |
| SubscriberProtocol.RefusesExactly | taskmanager/memory.go:152-188 | which steps refuse: an error of the hook, done or a full queue at the select, the flag at either check |
| SubscriberProtocol.SendsAreAccepted | taskmanager/memory.go:152-188 | a Send by itself to an open subscriber with room enqueues its event and returns nil |
| SubscriberProtocol.FullQueuesRefuse | taskmanager/memory.go:180-187 | a Send by itself to a full queue that does not block returns an error and changes nothing |
| SubscriberProtocol.ClosedSubscribersRefuse | taskmanager/memory.go:152-156 | a Send to a closed subscriber returns an error and changes nothing |
| SubscriberProtocol.CloseStarts | taskmanager/memory.go:130-139 | the first Close sets the flag and goes on, a later one returns and changes nothing |
| SubscriberProtocol.WaitingClosesAreNotOvertaken | taskmanager/memory.go:130-139 | while a Close waits for the readers, no other thread joins them |
| LockSections.OpenSubscribersHaveOneOwner | taskmanager/memory.go:673-780 | in every reachable state an open subscriber is in exactly one place: a creating call, one list of the registry, or one running call's to-close list |
| LockSections.EffectOwnership | taskmanager/memory.go:710-751 | each section hands a subscriber from one owner to another, leaves those of other calls alone, and drops none |
| LockSections.StepDisciplined | taskmanager/memory.go:821-911 | every call takes a manager lock only when it holds none, or the conversation lock under one subscriber's read lock, and ends with nothing held and nothing left to close |
| LockSections.StepExclusive | taskmanager/memory.go:197-240 | a lock held for writing has one holder |
| LockSections.HoldersOfManagerLocksMove | taskmanager/memory.go:673-780 | whoever holds the task, conversation or manager lock waits for nothing and can take a step |
| LockSections.WaitersHaveAMover | taskmanager/memory_handler.go:36-83 | whoever waits for one of these locks can go on itself, or a holder or the announced writer can |
| LockSections.OnlyFullQueuesBlock | taskmanager/memory.go:152-188 | if no thread can move and the cleanup goroutine cannot exit, every unfinished call is a blocking send on a full queue of a subscriber that nobody is closing; the waits of the manager's Close on its once and on that goroutine are steps like the others |
| LockSections.CleanerIsNotStuck | taskmanager/memory.go:884-911 | a cleanup goroutine that was told to stop is never what a stuck manager waits for |
| LockSections.OnceIsNotStuck | taskmanager/memory.go:884-911 | nor is a caller of Close inside the once, so a second caller does not wait for ever |
| LockSections.CloseWaitsForTheCleaner | taskmanager/memory.go:884-911 | on every run a caller of Close passes the once only by running it or after it has finished, and past it there is no running cleanup goroutine |
| LockSections.CleanerRunsUntilClose | taskmanager/memory.go:267-290 | before Close is called the cleanup goroutine is not told to stop and does not exit |
| LockSections.WaitingWritersAreNotOvertaken | taskmanager/memory.go:197-240 | while a writer waits for a lock nobody else gets to hold it |
| LockSections.ClosesWaitForSends | taskmanager/memory.go:130-139 | a close that won closes done and then waits until no send holds the read lock |
| LockSections.CallsAsk | taskmanager/memory.go:383-911 | which locks each call asks for, and how |
| SerialRuns.StepKeepsMeaning | taskmanager/memory.go:673-780 | no step of a call that runs alone, no room made for it at a full queue and no exit of the cleanup goroutine changes what the rest of the call means for tasks, lists, queues and closed flags |
| SerialRuns.CallsAreSteps | taskmanager/memory.go:407-911 | whatever steps a call takes between its start and its return without another call in between, it leaves the tasks, lists, queue lengths and closed flags that the one step of the registry leaves, for every operation of the manager and a subscriber's close, with full queues, failed sends and sweeps in any order |
| SerialRuns.SerialRunsAreRegistryRuns | taskmanager/memory.go:407-911 | from the empty manager every run in which calls take turns, with events taken from queues between them, is a run of the registry with the same outcome |
| SerialRuns.OffersAreDelivered | taskmanager/memory.go:688-702 | the send loop, one subscriber after the other from the front, delivers to and fails exactly those that the registry's delivery does |
| SerialRuns.DroppedAllEffect | taskmanager/memory.go:850-869 | a sweep over any list of tasks, repetitions included, removes their set of tasks and lists and collects exactly the members |
| SerialRuns.AloneGoesOn | taskmanager/memory.go:152-188 | a call that runs alone can always go on, if need be after the consumer made room or the cleanup goroutine exited |
| LateRegistration.OnlyLateRegistrationsOrphan | taskmanager/memory_handler.go:86-107 | a step of any call leaves a list without its task if and only if it registers a subscriber whose task has gone since the call looked for it |
| LateRegistration.ListsStayLive | taskmanager/memory_handler.go:86-107 | all lists belong to live tasks throughout an interleaved run if and only if no call of the run registers that late |
| LateRegistration.AnOrphanIsLeft | taskmanager/memory_handler.go:86-107 | a run from the empty manager, a subscription overlapping with CleanTask, at whose end every call has returned and an open subscriber is listed under an ID that is no task |
| FanOut.FanOutLosesNothing | taskmanager/memory.go:673-751 | in every interleaving of notifications, registrations, cleanups and closes a subscriber has accepted only events published while it was listed, none twice, and those of one call in its order; when all calls have returned and it is open it has accepted all of them |
| FanOut.GapFreeInTurn | taskmanager/memory.go:688-702 | a step keeps what a subscriber accepted a beginning of what was published for it if and only if it is not a send that overtakes another call's or follows one it missed |
| FanOut.GapFreeRuns | taskmanager/memory.go:673-751 | the same throughout any run |
| FanOut.OneAtATimeIsGapFree | taskmanager/memory.go:673-751 | when at most one call is under way at any time there is no gap and nothing out of order, and an open subscriber ends with exactly the events published since it registered |
| FanOut.OverlapLeavesAGap | taskmanager/memory.go:688-707 | a run of two overlapping notifications at whose end a subscriber has the first and the third of its three events |
| FanOut.OverlapReorders | taskmanager/memory.go:673-707 | a run of two overlapping notifications that two subscribers see in opposite orders |
| FanOut.FinalEventReaches | taskmanager/memory_handler.go:36-83 | when a final update is about to close the subscribers on the list, one of them has accepted or refused the final event if and only if it registered before the update copied the list, and accepted it if it is open and nobody is dropping or closing it |
| FanOut.LateSubscriberMissesTheFinal | taskmanager/memory_handler.go:36-83 | a run on which a subscriber registers after that copy and is closed without an event |
| FanOut.BlockingLosesNothing | taskmanager/memory.go:673-751 | an open blocking subscriber has accepted every event published since it was listed, or the call that published it is still about to send it, however calls overlap; no queue overflows |
| FanOut.OnlyBlockingSendsWait | taskmanager/memory.go:688-702 | a notification waits at a subscriber if and only if that one blocks, is open and has no room |
| RegistryRuns.RegistryIsWellFormed | taskmanager/memory.go:673-780 | after any run: the lists are not empty and have no member twice; an open subscriber is on the list of its task ID and on no other |
| RegistryRuns.OnlyLateSubscriptionsOrphan | taskmanager/memory_handler.go:86-107 | among the operations on the registry, exactly the registration for a task that is not there leaves a list without its task |
| RegistryRuns.ListsStayLive | taskmanager/memory_handler.go:86-107 | all lists belong to live tasks throughout a run if and only if no subscription of the run registers after its task has gone |
| RegistryRuns.OrphansStay | taskmanager/memory.go:821-878 | a list without its task is kept, and its subscribers stay as open as they are, by every operation but a build of the same ID, the close of the manager and a close by the subscriber's user; sweeps and CleanTask do not reach it |
| RegistryRuns.PushOutlivesTasks | taskmanager/memory.go:432-443 | a step leaves a push configuration without its task if and only if it sets one for a task that is not there, or stops a manager that has some |
| RegistryRuns.PushWithoutTask | taskmanager/memory.go:432-443 | both of these happen: one run that sets a configuration on the empty manager, and one that stops a manager with a configured task |
| RegistryRuns.FanOutHasNoGaps | taskmanager/memory.go:673-707 | after any run of operations, each taken as atomic, what a subscriber received and has queued is a gap-free beginning of the events the manager published since it registered, and all of them while it is open |
| RegistryRuns.FinalStatusEndsTheStreams | taskmanager/memory_handler.go:36-83 | with the update taken as one step, a final status is the last event of every subscriber that has room, and every subscriber of the task ends closed and unregistered |
| RegistryRuns.StatusIsPublished | taskmanager/memory_handler.go:53-77 | the event published carries the status written, the task ID, the final flag exactly for final states, and the context of the task or else the first one a hook has to give |
| RegistryRuns.TaskIDAsContext | taskmanager/memory.go:621-646 | a published status carries the task ID as its context if and only if that is the context of the task, or the task has none and the first open subscriber to give one gives the task ID |
| RegistryRuns.ResubscriptionFillsTheTaskID | taskmanager/memory.go:462-494 | a run: a task built without a context, a resubscription and an update, whose event has the task ID as its context |
| RegistryRuns.ArtifactIsPublished | taskmanager/memory_handler.go:120-142 | the artifact is appended to the task, and the event carries it with its two flags in their places |
| RegistryRuns.HooksFillTheContext | taskmanager/memory.go:621-646 | all subscribers share one event; the first open one whose hook has a context fills it in if it is missing, and nothing else changes |
| RegistryRuns.FinalIsLeftOnlyByUpdate | taskmanager/memory_handler.go:53-57 | a task leaves a final state, other than by removal, if and only if the operation updates it to a state that is not final |
| RegistryRuns.WithoutIsStable | taskmanager/memory.go:719-745 | failed-subscriber cleanup keeps exactly the others, in their order |
| RegistryRuns.PublishReaches | taskmanager/memory.go:673-751 | each listed subscriber gets an event at the end of its queue, or is closed and taken off the list |
| RegistryRuns.PublishSpares | taskmanager/memory.go:673-751 | who is not listed for the task is not changed |
| RegistryRuns.RemovalIsExact | taskmanager/memory.go:850-869 | removed tasks go with their lists, their contexts cancelled and their subscribers closed; other tasks, lists and subscribers stay as they are and no live task is cancelled |
| RegistryRuns.CleanLeavesNothing | taskmanager/memory_handler.go:285-321 | after CleanTask the ID is in no map, its subscribers are closed, and nothing of any other task has changed |
| RegistryRuns.ExpiredBounds | taskmanager/memory.go:831-850 | expiry in terms of the exact time of the last status write: the age counts up to the fraction of a second that the timestamp loses |
| RegistryRuns.SweepIsExact | taskmanager/memory.go:821-878 | a sweep removes only final tasks older than the limit minus a second, all final tasks older than the limit, with their lists, contexts and push configurations; other tasks, lists, subscribers and configurations stay as they are |
| RegistryRuns.RunInv | taskmanager/memory.go:407-494 | every operation on tasks, subscribers, push configurations and sweeps keeps the registry invariant |
| TaskOutcomes.FinalUpdates | taskmanager/memory_handler.go:36-83 | an update to "completed", "failed", "canceled" or "rejected" is published as final, closes and unlists every subscriber, and every sweep reaps the task once it is older than the limit |
| TaskOutcomes.OngoingUpdates | taskmanager/memory_handler.go:36-83 | an update to "submitted", "working", "input-required", "auth-required" or "unknown" is published as not final, leaves every subscriber with room open and listed with the event last in its queue, and no sweep reaps the task |
| TaskOutcomes.PublishedStatusIsGood | taskmanager/memory_handler.go:62-72 | a published status is of kind "status-update" and survives the encoding if and only if its message does |
| TaskOutcomes.PublishedArtifactIsGood | taskmanager/memory_handler.go:127-142 | a published artifact is of kind "artifact-update" and survives the encoding if and only if the artifact does |
| TaskOutcomes.HooksTouchOnlyContexts | taskmanager/memory.go:621-646 | a hook fills in the missing context of a task, a status or an artifact event, and changes nothing else |
| TaskOutcomes.NotificationsReach | taskmanager/memory.go:673-751 | for each of the five ways a send can go, the subscriber after a notification: its queue, whether it is open and whether it is listed |
| TaskOutcomes.BuiltTasks | taskmanager/memory_handler.go:231-278 | a built task is "submitted", of kind "task" and empty, with the given ID and context and a context of its own; nothing else changes |
| TaskOutcomes.SubscribersJoin | taskmanager/memory.go:103-127 | a new subscriber is open and empty at the end of the list of its task, with room for 1024 events when the size is not positive |
| TaskOutcomes.ClosedManagers | taskmanager/memory.go:884-911 | stopping the manager removes and cancels every task, closes every subscriber, and keeps push configurations and events |
| TaskOutcomes.PushConfigsReplace | taskmanager/memory.go:432-443 | a push configuration replaces the one of its task ID and no other |
| MemoryTaskManager.MemoryTaskSubscriber.constructor | taskmanager/memory.go:103-127 | a size that is not positive becomes 1024; the queue starts open and empty |
| MemoryTaskManager.MemoryTaskSubscriber.Send | taskmanager/memory.go:152-188 | closed: an error and no change; room: the event is appended; full: an error, or in blocking mode a wait that ends with a receive or a close; the hook runs before the queue is tried |
| MemoryTaskManager.MemoryTaskSubscriber.Close | taskmanager/memory.go:130-139 | closes and keeps what is queued |
| MemoryTaskManager.MemoryTaskManager.SplitFailed | taskmanager/memory.go:719-736 | the filter loops split a list into those kept and those removed, both in order |
| MemoryTaskManager.MemoryTaskManager.SendToEach | taskmanager/memory.go:688-702 | the send loop delivers to every listed subscriber in turn and collects exactly those that rejected |
| MemoryTaskManager.MemoryTaskManager.NotifySubscribers | taskmanager/memory.go:673-707 | the whole effect of a notification on lists, queues and the shared event |
| MemoryTaskManager.MemoryTaskManager.CleanupFailedSubscribers | taskmanager/memory.go:710-751 | takes the failed ones off, drops an empty list, closes those taken off |
| MemoryTaskManager.MemoryTaskManager.CleanSubscribers | taskmanager/memory.go:754-769 | drops a list and closes its members |
| MemoryTaskManager.MemoryTaskManager.BuildTask | taskmanager/memory_handler.go:231-278 | a given or generated ID; an ID in use is an error without effect; otherwise a submitted task with a context of its own |
| MemoryTaskManager.ProblemsAre | taskmanager/memory_handler.go:36-52 | which error an operation on a named task reports: one for a missing or empty ID, one for an unknown task, and no other |
| MemoryTaskManager.MemoryTaskManager.UpdateTaskState | taskmanager/memory_handler.go:36-83 | the error cases without effect; otherwise the status is written, published, and a final one ends the streams |
| MemoryTaskManager.MemoryTaskManager.AddArtifact | taskmanager/memory_handler.go:110-144 | the error cases without effect; otherwise the artifact is appended and published |
| MemoryTaskManager.MemoryTaskManager.SubscribeTask | taskmanager/memory_handler.go:86-107 | run by itself: a new subscriber at the end of the list of a live task, registered at the current end of its log |
| MemoryTaskManager.MemoryTaskManager.OnResubscribe | taskmanager/memory.go:462-494 | the same for a resubscription, also to a final task |
| MemoryTaskManager.MemoryTaskManager.CleanTask | taskmanager/memory_handler.go:285-321 | the error cases without effect; otherwise the task goes with everything attached to it |
| MemoryTaskManager.MemoryTaskManager.OnCancelTask | taskmanager/memory.go:407-429 | removes the task and answers with a copy marked canceled |
| MemoryTaskManager.MemoryTaskManager.OnPushNotificationSet | taskmanager/memory.go:432-443 | stores the configuration, whether the task exists or not |
| MemoryTaskManager.MemoryTaskManager.OnPushNotificationGet | taskmanager/memory.go:446-459 | the stored configuration or an error |
| MemoryTaskManager.MemoryTaskManager.FindExpired | taskmanager/memory.go:831-850 | the scan finds each expired task once, in whatever order the map is walked |
| MemoryTaskManager.MemoryTaskManager.CleanExpiredTasks | taskmanager/memory.go:821-878 | the state after a sweep and the number of tasks reaped; a limit that is not positive does nothing |
| MemoryTaskManager.MemoryTaskManager.Close | taskmanager/memory.go:884-911 | the first call cancels all tasks, closes all subscribers and empties the maps; later calls do nothing |
| Conversations.MemoryConversations.StoreMessage | taskmanager/memory.go:501-532 | stores the message, appends its ID to the window of its context and evicts the oldest when the window is over its size |
| Conversations.MemoryConversations.GetConversationHistory | taskmanager/memory.go:535-558 | the stored messages of the last IDs of a window, and the window is touched |
| Conversations.MemoryConversations.GetMessageHistory | taskmanager/memory_handler.go:199-228 | the whole window of the context of a message, or nothing |
| Conversations.MemoryConversations.CleanExpiredConversations | taskmanager/memory.go:784-816 | the windows not touched for longer than the limit go with their messages; their number is returned |
| Conversations.MemoryConversations.ProcessRequestMessage | taskmanager/memory.go:607-618 | a request gets an ID and a context if it lacks them, and is stored |
| Conversations.MemoryConversations.ProcessReplyMessage | taskmanager/memory.go:649-663 | a reply gets the agent role and the context it answers in, an ID and a context if missing, and is stored |
| Conversations.StoredIsLast | taskmanager/memory.go:501-558 | a message whose ID is not listed yet is the last one that every read of its context returns, and no other list changes |
| Conversations.RepliesGoToTheirContext | taskmanager/memory.go:649-663 | a reply ends the history of the context it answers in, whatever context it carried, with the role "agent", its own or the generated ID, and all other fields |
| Conversations.RequestsStayInTheirContext | taskmanager/memory.go:607-618 | a request that carries a context ends the history of that context, and is stored unchanged when it is complete |
| ConversationLog.HistoryIsTheEndOfTheLog | taskmanager/memory.go:501-558 | with fresh IDs, after any run of stores, reads and expiries a history read returns exactly the last min(n, maximum, total) messages of that context since it last expired |
| ConversationLog.OtherContextsDoNotInterfere | taskmanager/memory.go:784-816 | operations on other contexts never change a history |
| ConversationLog.StoredIsListed | taskmanager/memory.go:501-532 | with fresh IDs no ID is listed twice, the stored messages are exactly the listed ones and as many as the windows are long, and no window exceeds the maximum |
| ConversationLog.StoreKeepsHistories | taskmanager/memory.go:517-530 | from any state whose histories are right, one store keeps them right if and only if it neither evicts nor overwrites with another message an ID that stays in some window, and does not evict the message it stores |
| ConversationLog.ExpireKeepsHistories | taskmanager/memory.go:784-816 | an expiry keeps them right if and only if no ID of a window that stays is in a window that goes |
| ConversationLog.HistoriesStayRight | taskmanager/memory.go:501-558 | on any run from the empty store, with IDs used once or many times, every history is the end of the log all the way if and only if every operation of the run meets its condition |
| ConversationLog.AgreeIsStored | taskmanager/memory.go:535-558 | once the windows list the right IDs, all histories are right if and only if every listed ID has the message stored that was sent under it |
| ConversationLog.FreshIDLosesARepeatedMessage | taskmanager/memory.go:524-530 | with room for two, a message sent twice is answered twice, and the next message, whose ID is new, loses the remaining copy |
| ConversationLog.RepeatedIDLosesTheMessage | taskmanager/memory.go:524-530 | with room for one message, sending it twice leaves its ID listed and the history empty |
| ConversationLog.UseKeepsAlive | taskmanager/memory.go:784-816 | after a read or a store a context survives every expiry until the limit has passed |
| ConversationLog.DisuseExpires | taskmanager/memory.go:784-816 | a context not used for longer than the limit goes, with every message it lists |
| RedisConversations.Manager.StoreMessage | taskmanager/redis/redis_manager.go:454-487 | set, push, renew, trim, each executed or not and heard of or not; an error of the first two ends the call, one of the others is passed over |
| RedisConversations.Manager.GetConversationHistory | taskmanager/redis/redis_manager.go:490-539 | the messages of the last IDs of a list that has not expired, those missing, expired, unreadable or failing to be read skipped; no context or no count gives nothing, a failing range is an error |
| RedisConversations.StoresUnderItsKeys | taskmanager/redis/redis_manager.go:454-487 | a store leaves the value under "msg:" with the ID and the ID at the end of the list under "conv:" with the context, each with its own time to live, and touches no other key; what it leaves when it is refused, or executed unheard |
| RedisRuns.TrimKeepsTheEnd | taskmanager/redis/redis_manager.go:483-485 | trimming to the negative maximum keeps exactly the last IDs, as many as the window may have |
| RedisRuns.ReadsTheYoungEnd | taskmanager/redis/redis_manager.go:490-539 | when nothing unexpired is missing from its list, a read returns the messages of the last n IDs pushed that have not expired, however the list was trimmed and whichever of its own commands fail |
| RedisRuns.RightIsComplete | taskmanager/redis/redis_manager.go:490-539 | all reads are right if and only if nothing unexpired is missing |
| RedisRuns.WaitKeepsComplete | taskmanager/redis/redis_manager.go:479-480 | while time passes nothing unexpired goes missing if and only if no list expires that names an unexpired message |
| RedisRuns.CommandKeepsComplete | taskmanager/redis/redis_manager.go:463-487 | a command makes something unexpired go missing if and only if it sends a message under an ID that reads have lost; pushes, renewals and trims never do |
| RedisRuns.RedisHistoriesStayRight | taskmanager/redis/redis_manager.go:454-539 | on any run of commands, calls of many callers interleaved and cut off anywhere, all reads of at most the window, at any times between the commands too, are right all the way if and only if those two conditions hold at every entry of the run |
| RedisRuns.RenewedHistoriesAreRight | taskmanager/redis/redis_manager.go:454-487 | after stores with fresh IDs, whatever fails in them as long as each pushed list is renewed, a read returns those of the last n messages pushed that have not expired |
| RedisRuns.FailedRenewalLosesHistory | taskmanager/redis/redis_manager.go:479-480 | two stores of which the second fails to renew: at the time to live the history is empty though its message has not expired |
| RedisRuns.ShortListsLoseHistory | taskmanager/redis/redis_manager.go:463-480 | were the list given less time than the value, one store would be enough for that |
| RedisBackends.BackendsAgree | taskmanager/redis/redis_manager.go:454-539 | after the same stores with fresh IDs a Redis read of any length returns the messages that the store in memory returns, less the expired ones, as the encoding leaves them |
| RedisBackends.BackendsReturnTheSame | taskmanager/redis/redis_manager.go:454-539 | both return the same messages, normalised, if and only if all of them are well formed and none has expired |
| Protocol.UnmarshalMessage | protocol/types.go:381-405 | the decoding loop returns the decoded message, or the error of the first part that fails; on a literal null it panics |
| Protocol.UnmarshalArtifact | protocol/types.go:423-444 | the same for artifacts |
| NullDecoding.OnlyNullPanics | protocol/types.go:381-444 | decoding a message, or an artifact, panics on a literal null and on nothing else |
| NullDecoding.TaskPanics | protocol/types.go:497-512 | decoding a task panics if and only if, in the order of the members, a list with a null after elements that decode comes before every other member that ends the decoding; wrong-typed scalars do not matter |
| NullDecoding.EventPanics | protocol/types.go:787-842 | decoding an event, bare or wrapped in a Result member, panics if and only if it is a task as above, or an artifact update whose artifact is null |
| NullDecoding.ResultPanics | protocol/types.go:727-752 | decoding the answer to a message panics if and only if it is a task as above |
| NullDecoding.WithoutNullItReturns | protocol/types.go:727-842 | without a null in history, artifacts or artifact both decoders return a value or an error, in every order of the members |
| NullDecoding.WithNullItPanics | protocol/types.go:727-842 | with such a null they panic in every order of the members when everything else that is nested decodes, whatever type errors there are besides |
| NullDecoding.NullsPanic | protocol/types.go:381-395 | a history of one null, artifacts of one null, and a history of one null beside a context ID of the wrong type panic |
| NullDecoding.NullArtifactPanics | protocol/types.go:423-437 | an artifact update whose artifact is null panics |
| NullDecoding.TheOrderDecides | protocol/types.go:787-842 | a task with a null in its history and an artifact that does not decode panics or returns an error, depending on which member comes first |
| WireValues.SentIsReceived | protocol/types.go:787-858 | an event whose discriminators fit decodes to the same event, field by field, up to the difference between an empty and an absent collection |
| WireValues.KindsOnTheWire | protocol/types.go:125-142 | the discriminators that fit, spelled out |
| WireValues.AbsentIsZero | protocol/types.go:787-842 | an update without its other members decodes to zero values; one without a final member is not final |
| WireValues.AbsentIsEmpty | protocol/types.go:787-842 | the same for a task and a message |
| WireValues.AbsentInParts | protocol/types.go:198-234 | a text or data part without its other members decodes to an empty one, a file part does not decode |
| WireValues.UnknownKindsFail | protocol/types.go:816-842 | events and parts of an unknown kind or none do not decode |
| WireValues.MessagesDecode | protocol/types.go:381-405 | a message decodes if and only if its members have the types of its fields, or are absent or null, and its parts decode |
| WireValues.ArtifactsDecode | protocol/types.go:423-444 | the same for an artifact |
| WireValues.PartDecodes | protocol/types.go:198-234 | which parts decode, for each kind |
| WireValues.TasksDecode | protocol/types.go:497-512 | which tasks decode |
| WireValues.StatusEventsDecode | protocol/types.go:787-842 | which status updates decode |
| WireValues.ArtifactEventsDecode | protocol/types.go:787-842 | which artifact updates decode |
| WireValues.MessagesSay | protocol/types.go:381-405 | each field of a decoded message is what its member says, and its zero value only without one |
| WireValues.ArtifactsSay | protocol/types.go:423-444 | the same for an artifact |
| WireValues.PartSays | protocol/types.go:198-234 | the same for a part; bytes win over an address |
| WireValues.PartsSay | protocol/types.go:381-444 | the parts of a message and of an artifact are those of its member, none without one |
| WireValues.TasksSay | protocol/types.go:497-512 | the same for a task |
| WireValues.StatusEventsSay | protocol/types.go:787-842 | the same for a status update |
| WireValues.ArtifactEventsSay | protocol/types.go:787-842 | the same for an artifact update |
| WireValues.FirstPartThatFails | protocol/types.go:394-402 | the index reported is that of the first part that does not decode, with its error |
| WireValues.MessageErrors | protocol/types.go:389-402 | a wrong-typed member is reported before any part |
| WireValues.ArtifactErrors | protocol/types.go:431-444 | the same for an artifact |
| RoundTrip.PartRoundTrip | protocol/types.go:198-234 | a part whose kind matches and whose file is present decodes to its normal form, and no other part does |
| RoundTrip.MessageRoundTrip | protocol/types.go:381-482 | a message decodes to its normal form if and only if its parts do |
| RoundTrip.ArtifactRoundTrip | protocol/types.go:423-482 | the same for artifacts |
| RoundTrip.EventRoundTrip | protocol/types.go:787-858 | an event, bare or wrapped in a Result member, decodes to its normal form, in every order of its members, if and only if its kinds match and its file parts have files, through history, artifacts, status message and parts |
| RoundTrip.ResultRoundTrip | protocol/types.go:727-767 | the same for the answer to a message |
| RoundTrip.ConstructorFollowsKind | protocol/types.go:816-842 | whatever decodes at all, bare or wrapped in a Result member, decodes to the type its kind member names |
| RoundTrip.NormIsIdempotent | protocol/types.go:845-858 | the normal form of a normal form is itself |
| Sse.EventReader.Scan | internal/sse/sse.go:46-68 | one line without its end and without one carriage return, or the end of the stream, or a line too long |
| Sse.EventReader.ReadEvent | internal/sse/sse.go:58-116 | the loop returns the next event; at the end of the stream pending data comes together with the error |
| SseRoundTrip.RoundTrip | internal/sse/sse.go:58-135 | reading what was printed gives the printed events in order, and then the plain end of the stream |
| SseRoundTrip.BatchesAreInvisible | internal/sse/sse.go:147-178 | every split of a list of events into batches gives the same bytes |
| SseRoundTrip.Truncation | internal/sse/sse.go:93-116 | of a printed stream cut at any byte exactly the events whose closing blank line is inside are read |
| SseRoundTrip.CompleteIsExact | internal/sse/sse.go:122-135 | the number of those events is the largest whose print fits into the bytes |
| SseRoundTrip.CutFrameIsNoEvent | internal/sse/sse.go:93-116 | an event cut anywhere, also inside a field name, is never read |
| SseRoundTrip.HeadOfStream | internal/sse/sse.go:58-116 | what is read next from a cut stream is its first event, complete; the plain end is read only at the end of the whole |
| SseRoundTrip.ReturnsAreDropped | internal/sse/sse.go:46-68 | lines that end in a carriage return and a line feed read like lines that end in a line feed |
| SseRoundTrip.OtherLinesAreData | internal/sse/sse.go:94-100 | a line of no known field is data as it stands |
| SseRoundTrip.PendingComesWithTheEnd | internal/sse/sse.go:106-115 | a stream that ends without the closing blank line gives the pending event together with the end |
| SseRoundTrip.TrimIsExact | internal/sse/sse.go:79-80 | event names lose the white space at both ends, all of it and nothing else |
| EventStreamStandard.ReaderAgreesWithTheStandard | internal/sse/sse.go:58-116 | on LF-only streams of known fields with trimmed, non-empty names, the reader returns exactly the events the standard dispatches if and only if no unnamed block with data follows a name, other than the default one, carried over from a block without data |
| EventStreamStandard.NamedBlocksFit | internal/sse/sse.go:58-116 | in particular they agree when every block with a name has data |
| EventStreamStandard.StandardReadsPrinted | internal/sse/sse.go:122-135 | a standard parser reads exactly the printed events |
| EventStreamStandard.NamesWithoutDataStick | internal/sse/sse.go:70-92 | for a name in one block and its data in the next the reader gives the event that name and the standard the default name, so the two results differ exactly when the name is not the default one |
| SseTunnel.FormatJSONRPCEventBatch | internal/sse/sse.go:147-178 | all events in one write, of which a broken write leaves some beginning; nothing when one event does not marshal |
| SseTunnel.CollectItems | server/sse_tunnel.go:91-113 | the batch without events of unknown type, in order, each with its text and under the name that its type and no other has |
| SseTunnel.EventsAreNamed | server/sse_tunnel.go:127-148 | an event is named "task_status_update", "task_artifact_update", "task" or "message" if and only if it is of that type |
| SseTunnel.ReadersGetNames | server/sse_tunnel.go:85-124 | a reader of flushed batches gets one event for each known one, with its text and under the name of its type |
| SseTunnel.Tunnel.FlushBatch | server/sse_tunnel.go:85-124 | a flush writes the known events of the batch and empties it; when one does not marshal nothing is written, when the write breaks a beginning of them is on the wire, and the batch stays as it is |
| SseTunnel.Tunnel.Serve | server/sse_tunnel.go:42-82 | one outcome of the select: the effect on batch and wire, and which exit it takes; the loop goes on only with the batch below its size |
| SseTunnel.Tunnel.Start | server/sse_tunnel.go:42-82 | for any sequence of select outcomes: written events followed by the pending ones are the known events received, a broken write leaves a beginning of the pending ones and ends the loop, the batch stays below its size at every loop head, a closed input leaves nothing pending unless a write fails, and each exit has its cause |
| SseTunnel.ReceivedInOrder | server/sse_tunnel.go:42-82 | what a tunnel has received are the events of exactly the rounds that received one, in order |
| StreamRelay.TrackStreamEvents | server/server.go:764-792 | for any sequence of select outcomes the events handed on are those taken from the queue, in order; only a disconnect can lose one, the last |
| StreamClient.Process | client/client.go:291-327 | data under the name "close" stops; other data that decodes is handed on, exactly the result, whatever the name; everything else is skipped |
| StreamClient.ProcessSSEStream | client/client.go:254-343 | what is handed on are the results of the first of the events that have data that decodes and that no close event precedes, in order, and of all of them without a cancel |
| StreamClient.DeliveriesInOrder | client/client.go:254-343 | an uncancelled client hands on the result of exactly each such event |
| Pipeline.ConservedStep | server/server.go:764-792 | what was written followed by what the server still holds equals the known accepted events, in every step |
| Pipeline.WireStep | server/sse_tunnel.go:85-124 | the bytes on the wire are the frames of the written events, and of a failed write at most a beginning, in every step |
| Pipeline.ClientStep | client/client.go:254-343 | the client has parsed whole frames only, and handed on exactly what decodes of them, in every step |
| Pipeline.DeliveredIsAPrefix | client/client.go:254-343 | in every interleaving, with cancels, failed writes and a connection cut anywhere, the caller has received a prefix of the decodable accepted events, and the missing ones are in the stages in order |
| Pipeline.EverythingIsDelivered | server/server.go:764-792 | when nothing goes wrong and the client has seen the end, all of them were delivered and the queue is closed and empty |
| Pipeline.SomeStageMoves | server/sse_tunnel.go:42-82 | as long as the client has not seen the end, some stage has work it can do |
| Pipeline.WorkShrinks | server/sse_tunnel.go:42-82 | each such step lowers one number, computed from what the stages hold |
| Pipeline.WorkCompletes | client/client.go:254-343 | once the queue is closed, work alone leads to the end and to the delivery of everything |
| Pipeline.WorkInAnyOrder | client/client.go:254-343 | and it does so in every order: any sequence of work steps is at most as long as that number, and if no work is left at its end the client has seen the end and everything is delivered |
| Pipeline.DeliveredInOrder | client/client.go:254-343 | in every interleaving the caller has the results of the first so many accepted events that are known and have text that decodes, one for each, in order, whatever their type |
| Pipeline.NothingIsLost | client/client.go:254-343 | of all of them when nothing goes wrong: when every known event marshals to text that decodes, there is one result for each known event accepted, the one its text decodes to |
| Pipeline.RoundsAgree | client/client.go:291-327 | the client of the pipeline does with an event what a round of the loop does |
| Pipeline.BatchesStayBounded | server/sse_tunnel.go:42-82 | on every run no batch is longer than its size |
| Pipeline.AnythingCanFail | server/server.go:764-792 | after a cancel relay and tunnel can end in any state, a write can break off after any number of bytes, the client can stop and the connection be cut at any time |
| EndToEnd.EventsArriveAsSent | client/client.go:254-343 | when nothing goes wrong and the discriminators fit, the caller of the client gets the normal form of every event the subscriber accepted, in order |
| StreamBody.ClosesOnce | client/stream_lifecycle.go:24-46 | the wrapped body and done are closed at most once, all callers see the same error, and after a close the listener can finish |
| StreamBody.CallersMove | client/stream_lifecycle.go:40-46 | a caller of Close can always move, or the one caller inside the once can, with fewer steps left |
| StreamBody.FirstCloses | client/stream_lifecycle.go:40-46 | the first one to ask closes done and the body once each and returns what the body returned |
| StreamBody.CancelCloses | client/stream_lifecycle.go:24-38 | a cancel makes the listener do so |

## Left out

- MemoryTaskManager.MemoryTaskSubscriber.Send: models the hook of the manager, which fills in a context and does not
  fail. Hooks supplied by users are left out; in SubscriberProtocol a hook may fail.
- MemoryTaskManager.MemoryTaskManager.SubscribeTask: runs its two lock sections without another call in between.
  LockSections and LateRegistration interleave them, and in RegistryRuns the second one is an operation by itself.
- RedisConversations.Manager.GetConversationHistory: takes a read as one step; RedisRuns interleaves the commands of
  stores, not those of reads.
- RegistryRuns.FinalStatusEndsTheStreams: takes the update as one step; `FanOut.FinalEventReaches` lets registrations
  come between.
- RegistryRuns.FanOutHasNoGaps: takes a notification as one step; FanOut lets them overlap. Both are about the events
  the manager publishes; a processor may also send on its subscriber directly, which SubscriberProtocol covers.
- SseTunnel: the bytes of an event are fixed when the tunnel accepts it. The source marshals at the flush, after the
  hooks of other subscribers may have filled in the context of the event they share.
- HTTP: routing, headers, CORS, timeouts, and the request and response halves of client and server.
- Authentication, telemetry, metrics, logging, option setters, agent cards and the examples.
- JSON text: the model starts from the JSON tree. Case-insensitive and repeated member names are not modelled.
- The JSON payload of an event is opaque to the pipeline; the decoder of the client is any function. EndToEnd assumes
  of it that it reads the text of an event as the encoding of that event is decoded.
- UTF-8 decoding, and the stream fields the reader ignores (`id`, `retry`).
- Growing buffers of the scanner: a line of the maximum size or more is a read error, shorter ones are read.
- The Redis subscriber and handler: their `Send` blocks under its lock.
- The part of the manager's hook that stores messages: the manager publishes none, so it appears only as a lock
  section in LockSections.
- SerialRuns leaves out the content of events and of tasks, which the lock-section machine does not have, and a `Send`
  of a processor on its subscriber, which the registry does not have.
- LockSections sweeps any list of tasks, expired or not, and stopping the manager sweeps any list, which covers the
  lists the source computes; timestamps are in Registry.
- The access time of a window is written under a read lock; the model takes that write as atomic.
- GetTask, OnGetTask, GetContextID and GetConversationStats, which only copy out what the other operations keep.
- OnSendMessage and OnSendMessageStream beyond the two message-processing paths: they call the user's processor.
- A losing concurrent `Close` of a subscriber may return before the queue is closed; nothing is claimed about it.
