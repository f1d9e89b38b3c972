# Verified models of the ECS agent's core state machines

This project models the parts of the Amazon ECS agent whose correctness spans several functions or
several goroutines, and proves what they keep. Each part comes as a specification (values, functions,
step machines and theorems about every run) and, where the agent updates state in place, as a class
whose methods are proved to compute the specification.

| part | files | what is proved |
|---|---|---|
| task event submission | `EventTypes`, `EventMachine`, `EventSafety`, `EventConservation`, `EventChanges`, `EventSent`, `EventRuns`, `EventDecisions`, `EventDrain`, `EventLimits`, `TaskHandler` | every interleaving keeps one submitter per list, strands no event, submits in order and accounts for every container change; exactly when sent statuses follow the backend, never drop, and no change is lost |
| managed task | `TaskState`, `TaskMachine`, `TaskRuns`, `TaskStop`, `TaskUpdates`, `TaskShortcut`, `WaitGroup`, `StopWaiters`, `ManagedTask` | statuses only advance, what a known status means, failed containers never start again, stop accounting, the stop shortcut and starts in flight, waiting for earlier stops |
| image manager | `ImageRecords`, `ImageManager` | one state per image under concurrent recording; a cleanup cycle removes the least recently used images |
| LRU cache | `LruCache` | refinement of a recency list; which keys survive |
| state saver and writers | `StateSaver`, `UnixStateFile`, `WindowsStateFile` | no request dropped, writes spaced, crash safety of both write protocols |
| stats | `StatsQueue`, `StatsEngine` | the sliding window and its aggregates; the agreement of the three maps; collectors and the containers they belong to |
| slices | `SlicesEqual` | the greedy matcher decides multiset equality |
| shared | `Basics` | |

Conventions. A lock-protected critical section is one step of a machine; goroutines interleave between
steps. Clocks, Docker's replies, the backend's replies, system call outcomes and dependency checks are
parameters, so a theorem about every run covers every such answer. Statuses are integers in the agent's
order. Integers are unbounded, and 32-bit and 64-bit wrap-around is written out where the agent relies on
it. Times are nanoseconds. Floating point is modelled by reals, with None for NaN.

Results that differ from what one would expect of the code, each with its exact condition:

- Two lists of one task can be drained at once, and a recorded sent status can then fall below one the
  backend has. Runs without a push between the moment a submitter clears `sending` and the moment it deletes
  the map entry never show this (`GuardedHasOneLive`, `GuardedSentOnlyGrows`); every such push can be
  continued to both (`WindowBreaksOneLive`, `WindowLowersSent`), and the window is open to every task in
  every state (`WindowReachable`).
- The client sends a change that has an attachment as the attachment alone, and leaves out containers that are
  neither RUNNING nor STOPPED. A recorded sent status never exceeds what the backend accepted as long as no
  change claims more than the backend has after accepting it (`SentWithinBackend`); every other change can put
  a sent status ahead of the backend (`UntruthfulOutrunsBackend`, `OverclaimOutruns`). Changes without an
  attachment, with containers that run or have stopped, are the agent's usual ones and meet the condition
  (`PlainIsTruthful`).
- A container change is dropped or left off the wire only if the backend has its status, as long as that is so
  for all containers of every change, and of its batch, after the backend accepts it (`DropsOnlyCovered`);
  every other container of a change can be lost (`UnreachingLosesChange`).
- A task known to be stopped is meant to be stopped if and only if it has no containers, has an essential
  one, or was meant to stop from the start (`StoppedIsMeantIff`). Leaving the main loop without that
  leaves the stop group unbalanced (`ExitBalancesIff`).
- A report that a container is running, with an error, or stopped, with a timeout or a retriable error,
  clears its applied status. If that happens while the container's start is in progress, the stop shortcut
  can overtake the start (`EndangeredLosesStart`); otherwise it never does (`ShortcutSparesStarts`).
- A task waiting for earlier stops can sleep on after the last of them has ended, but only if an end fell
  between its look at the counts and its sleep (`SleepsOnlyIfMissed`, `WakeUpCanBeMissed`).
- An image with an empty name is not taken out of the cleanup pool by a pick (`PickShrinksIff`), and the
  budget left for other images is 1, not 0, after N picks (`RemoveUnusedImages`).
- A name stays on one image as long as no recording begins that clashes with one under the read lock, that
  is, has another image with a state for the same name (`OneImagePerName`); every such recording can leave
  the name on both images (`ClashDuplicates`).
- A failed save drops the plan for the next one (`FailedWriteLosesIff`), and that is the only way in which a
  request is lost (`LostOnlyByFailedWrite`).
- The Windows writer acknowledges a save when the registry value from before it may still be the one on
  disk. It keeps its promise as long as no such value leads to other data when the save is acknowledged
  (`NeverPartialOrLost`), and can lose the acknowledged state after every other acknowledgement
  (`UnsettledAckCanBeLost`, `LazyRegistryLosesSave`). It also removes its own new file if the registry named
  a missing file of that name (`ReadsBackIff`).
- A stats queue of size 0 is unbounded (`BoundedIff`); the two largest unsigned values are not recovered
  from their split (`SplitIsExactIff`).
- The comment on `removeAll` in the stats engine says that it stops collection for all containers. It does
  so exactly when no collector is left over, and its second loop deletes from the map of tracked containers
  again, so the health map and the definitions stay (`RemoveAllKeepsIff`).
- With metrics disabled, a health report that removes some containers of a task and not all drops the task's
  definition (`DisabledDropsDefinitionIff`). No later report looks at the task until a container of it is added
  (`ForgottenUntilAdded`, `AddingRemembers`).
- A collector may stop itself while its container is tracked, and may outlive its place in the map; in every
  run that happens only to containers that are terminal or no longer known (`CollectorsReconcile`). None
  outlives its place as long as health is never reported for a container that is tracked without it and still
  collects (`CollectsAlways`). After every such report a collector can be left that no map holds
  (`LateHealthLeaks`), so that only its own check stops it (`LeftOverStopsItself`).

## Model

| member | source | states |
|---|---|---|
| EventRuns.EveryRun | agent/eventhandler/task_handler.go:223-386 | in every reachable state a list has exactly one submitter while sending and none otherwise, a list with events is sending even if the map forgot it, attempts follow push order, and every accepted container change is in exactly one place |
| EventSafety.SafeStep | agent/eventhandler/task_handler.go:249-386 | every step keeps the submitter count, the progress of the head, the order of attempts and the ARN map consistent |
| EventConservation.ConservedStep | agent/eventhandler/task_handler.go:223-410 | every step keeps accepted = batched + in hand + queued + delivered + unreported + redundant + rejected, counted per container change |
| EventRuns.NeverStranded | agent/eventhandler/task_handler.go:272-332 | a list with events always has an enabled next step of its own submitter |
| EventRuns.DrainBound | agent/eventhandler/task_handler.go:272-386 | without failed submissions the steps of a list's submitter are bounded by the work in the list |
| EventSent.RedundantWasCovered | agent/eventhandler/task_handler_types.go:68-98 | a task event is dropped as redundant only if the backend was sent and accepted at least its task status and the status of every carried container, for the objects whose sent status is covered |
| EventDecisions.AttachmentSentIff | agent/eventhandler/task_handler_types.go:103-113 | after every run, an attempt at an event with an attachment and no task submits it exactly when it has no status, has not expired, and was neither sent before the start nor accepted since; otherwise it drops the event |
| EventDecisions.NeverAnnouncedAgain | agent/eventhandler/task_handler_types.go:103-113 | an attachment that was accepted or has expired is not submitted in any later run, and its count of acceptances stays |
| EventDecisions.DroppedIffCovered | agent/eventhandler/task_handler_types.go:68-101 | in guarded runs of truthful changes a task event is dropped exactly when the backend has its status and the known statuses of its containers, and submitted otherwise |
| EventDecisions.FailedIsRetried | agent/eventhandler/task_handler.go:340-386 | a submission that fails leaves the list, the objects and the record of the backend as they were, so the head is tried again |
| EventDecisions.MarkedIsDropped | agent/eventhandler/task_handler_types.go:68-101 | in any state an event whose task and containers are all marked sent is not submitted again |
| EventSent.CoveredStep | agent/eventhandler/task_handler_types.go:129-211 | while queued changes are truthful, no step records or owes as sent what the backend was not sent |
| EventRuns.SentWithinBackend | agent/api/ecsclient/client.go:359-469 | in every run in which no change claims more than the backend has after accepting it, no sent status exceeds what was sent and accepted |
| EventLimits.UntruthfulOverclaims | agent/api/ecsclient/client.go:359-469 | a change breaks that condition exactly when it will be marked with a status that the backend still lacks; this takes an attachment, or a container that is neither RUNNING nor STOPPED |
| EventLimits.UntruthfulOutrunsBackend | agent/api/ecsclient/client.go:359-469 | for every such status of a change handed in in any state there is a run that puts the sent status of that object ahead of the backend |
| EventLimits.OverclaimOutruns | agent/eventhandler/task_handler_types.go:129-211 | every run from an empty handler that such a change can follow has a continuation that starts with it and puts the sent status ahead |
| EventChanges.PlainIsTruthful | agent/api/ecsclient/client.go:422-469 | a change without an attachment whose containers run or have stopped tells the backend all that it is marked with |
| EventTypes.SupportedCount | agent/api/ecsclient/client.go:422-469 | of the carried container changes exactly those with status RUNNING or STOPPED go over the wire |
| EventRuns.DropsOnlyCovered | agent/eventhandler/task_handler.go:230-245 | in every run in which the backend has all container statuses of a change and its batch after accepting it, whatever is redundant or unreported is covered |
| EventLimits.UnreachingLosesChange | agent/eventhandler/task_handler_types.go:68-113 | every other container of a change, handed in in any state, has a run in which it is lost: all is dropped as redundant and the backend told nothing, or the payload is told and the rest goes unreported |
| EventSent.SentNeverDrops | agent/eventhandler/task_handler_types.go:198-211 | no step lowers a sent status while every pending write is above the recorded status |
| EventRuns.SentOnlyGrows | agent/eventhandler/task_handler_types.go:198-211 | over runs with one live list per task no sent status decreases |
| EventRuns.GuardedSentOnlyGrows | agent/eventhandler/task_handler.go:272-386 | over runs from an empty handler without a push in the removal window no sent status decreases |
| EventRuns.SentTracksBackend | agent/eventhandler/task_handler_types.go:129-211 | over runs of truthful changes with one live list per task, sent statuses equal the highest accepted status once the task is at rest |
| EventRuns.GuardedHasOneLive | agent/eventhandler/task_handler.go:272-332 | a run that never pushes into the window before the entry removal keeps one live list per task |
| EventRuns.GuardedSentTracksBackend | agent/eventhandler/task_handler.go:272-386 | a run of truthful changes from an empty handler without a push in the window keeps sent statuses equal to the accepted ones |
| EventRuns.WindowBreaksOneLive | agent/eventhandler/task_handler.go:274-332 | every push inside the window can be continued to two live lists of the task |
| EventLimits.WindowReachable | agent/eventhandler/task_handler.go:272-332 | from every state between two calls, for every task, a run leads to a push inside the window |
| EventLimits.OverlapLowersSent | agent/eventhandler/task_handler_types.go:198-211 | two live lists can lower a task's sent status below one the backend has |
| EventLimits.WindowLowersSent | agent/eventhandler/task_handler.go:272-386 | every push inside the window can be continued to a run that lowers the sent status of any object of that task between any two higher statuses |
| EventDrain.DrainAll | agent/eventhandler/task_handler.go:272-410 | from every state a list can be emptied by its own submitter with nothing new told to the backend |
| TaskHandler.SubmitIsRun | agent/eventhandler/task_handler.go:339-386 | an uninterrupted attempt on a head is a run of steps on its list |
| TaskHandler.FlushIsRun | agent/eventhandler/task_handler.go:230-332 | an uninterrupted addition of a task event is a run, once the list's lock is free |
| TaskHandler.Handler.AddStateChangeEvent | agent/eventhandler/task_handler.go:129-156 | container events are batched, task events flushed and pushed, others refused |
| TaskHandler.Handler.BatchContainerEvent | agent/eventhandler/task_handler.go:223-227 | the change joins its task's batch |
| TaskHandler.Handler.FlushBatch | agent/eventhandler/task_handler.go:230-245 | the batch leaves the map with the task event, on the task's list |
| TaskHandler.Handler.GetTaskEvents | agent/eventhandler/task_handler.go:249-268 | the task's list is found or created empty |
| TaskHandler.Handler.SendChange | agent/eventhandler/task_handler.go:311-332 | the event is pushed and a submitter started exactly when none runs |
| TaskHandler.Handler.SomeContainerUnsent | agent/eventhandler/task_handler_types.go:83-95 | whether some carried container has an unsent known status |
| TaskHandler.Handler.ChooseSubmission | agent/eventhandler/task_handler.go:353-372 | the choice between container, task, attachment and dropping that EventDecisions is about |
| TaskHandler.Handler.SetSent | agent/eventhandler/task_handler_types.go:198-211 | every object of the event is raised, none lowered |
| TaskHandler.Handler.SubmitFirstEvent | agent/eventhandler/task_handler.go:339-386 | the new handler, objects and log after one attempt, for every reply |
| TaskHandler.Handler.RefuseFirst | agent/eventhandler/task_handler.go:404-410 | only an invalid task or attachment event is dropped on an error |
| TaskHandler.Handler.StopIfEmpty | agent/eventhandler/task_handler.go:376-385 | sending ends exactly when the list is empty |
| TaskHandler.Handler.RemoveTaskEvents | agent/eventhandler/task_handler.go:301-306 | the map entry of the task is deleted |
| TaskHandler.Handler.TaskStateChangesToSend | agent/eventhandler/task_handler.go:187-220 | one event, without containers, for exactly the batched tasks that are known and not stopped |
| TaskRuns.StatusesOnlyAdvance | agent/engine/task_manager.go:391-452 | over every run no known or desired status decreases, and known statuses change at most five times per container in all |
| TaskRuns.ForwardOnlyWithoutError | agent/engine/task_manager.go:619-692 | a container becomes created, running or provisioned only by an event without error |
| TaskMachine.HandleEventGrows | agent/engine/task_manager.go:391-452 | handling an event moves only its container's known status, to the event's status, and lowers no status |
| TaskMachine.UpdateStatusGrows | agent/api/task/task.go:1783-1829 | updating a task lowers no status and leaves container known and applied statuses alone |
| TaskStop.StopAccounting | agent/engine/task_manager.go:368-386 | over every run from the start of a task the stop sequence is set at most once, with at most one Add under it and at most one Done, and no Add once the task is meant to stop |
| TaskStop.ExitBalancesIff | agent/engine/task_manager.go:193-253 | leaving the main loop balances the stop group for good exactly when the task is meant to stop |
| TaskStop.StoppedMeansAllStopped | agent/api/task/task.go:1214-1278 | an update makes a task known to be stopped exactly when all its containers are |
| TaskUpdates.KnownMeansReached | agent/api/task/task.go:1214-1278 | an update takes a task to CREATED, RUNNING or STOPPED exactly when all its containers have reached it and no stopped essential container holds it back |
| TaskUpdates.RunningMeansSteady | agent/api/task/status/statusmapping.go:26-43 | a task is known to run exactly when every container is steady or stopped and no essential one stopped before all the others |
| TaskUpdates.KnownIsOneOf | agent/api/task/status/statusmapping.go:26-43 | no other known status is set |
| TaskUpdates.DesiredStopsIff | agent/api/task/task.go:1801-1813 | a task is meant to stop exactly when it was or an essential container has stopped or is meant to |
| TaskUpdates.DesiredReachesContainers | agent/api/task/task.go:1819-1826 | what each container is then meant to do, for every desired status of the task |
| TaskUpdates.FailedForward | agent/engine/task_manager.go:654-692 | after a failed create, start or provisioning the container is where it was, is meant to stop, and nothing else has changed |
| TaskUpdates.FailedStop | agent/engine/task_manager.go:697-740 | a failed stop leaves the container alone if it may be retried and counts as stopped otherwise |
| TaskUpdates.FailedPull | agent/engine/task_manager.go:628-650 | a failed pull counts as pulled, and stops the task exactly when it must fail on it |
| TaskUpdates.Succeeded | agent/engine/task_manager.go:391-454 | an event without an error takes the container to its status and ends a transition up to there |
| TaskUpdates.StartsStopIff | agent/engine/task_manager.go:590-692 | a stop call is started exactly for a start that may have happened and for the first stopped container that comes back |
| TaskUpdates.FailedNeverStartsAgain | agent/engine/task_manager.go:654-692 | after a failed create, start or provisioning no pull, create, start or provisioning of that container begins in any run |
| TaskUpdates.StoppingNeverStarts | agent/engine/task_manager.go:979-1045 | no such call begins in any run for a container that is meant to stop |
| TaskUpdates.OrderTakesEffect | agent/engine/task_manager.go:368-389 | an order for more than before reaches the task and all its containers; any other changes nothing |
| TaskUpdates.ResourceFailureStops | agent/engine/task_manager.go:456-489 | after a failed resource the task, and with the next update every container, is meant to stop |
| TaskUpdates.EndsAreTaken | agent/engine/task_manager.go:391-454 | the end of a call or message is handled once, and no forward call begins with it |
| TaskUpdates.ForwardByOne | agent/engine/task_manager.go:979-1045 | a look at a container that is meant to go on starts the call to the next status |
| TaskUpdates.StopByCallOrMessage | agent/engine/task_manager.go:979-1045 | a look at a container that is meant to stop starts a stop call if it runs and a message otherwise |
| TaskUpdates.NothingToStart | agent/engine/task_manager.go:845-893 | a container that is where it should be, must wait or has a transition in progress starts no call |
| TaskUpdates.DrivenToDesired | agent/engine/task_manager.go:845-893 | from every state a container at rest has a run of looks and successful calls to its desired status |
| TaskStop.StoppedIsMeantIff | agent/api/task/task.go:1801-1816 | in every run known stopped implies meant to stop, exactly when the task has no containers, an essential one, or was meant to stop |
| TaskShortcut.PendingStopIsSafe | agent/engine/task_manager.go:1014-1046 | in every run a container with a pending no-action stop is meant to stop and has no start applied |
| TaskShortcut.ShortcutSparesStarts | agent/engine/task_manager.go:845-891 | in every run without a report that takes back the applied status of a start in progress, no start is in progress for a container with a pending no-action stop |
| TaskShortcut.EndangeredLosesStart | agent/engine/task_manager.go:619-734 | every such report, of a running container with an error or of a stopped one with a timeout or retriable error, has a run that sends the stop message while the start is in progress |
| WaitGroup.HoldsOpenStops | agent/utils/sync/sequential_waitgroup.go:40-68 | after any Adds and Dones the map holds exactly the numbers with open stops, with their counts |
| WaitGroup.OpenIsLargestSurplus | agent/utils/sync/sequential_waitgroup.go:40-68 | the open stops of a number are the largest surplus of Adds over Dones since any point, so a stray Done never counts |
| WaitGroup.SequentialWaitGroup.Add | agent/utils/sync/sequential_waitgroup.go:40-54 | the count of the number grows by the delta |
| WaitGroup.SequentialWaitGroup.Done | agent/utils/sync/sequential_waitgroup.go:57-68 | the count of the number falls by one and the number goes with its last |
| WaitGroup.SequentialWaitGroup.WaitOver | agent/utils/sync/sequential_waitgroup.go:72-87 | a wait ends exactly when no stop with that or a lower number is open |
| StopWaiters.SleepsOnlyIfMissed | agent/utils/sync/sequential_waitgroup.go:72-91 | in every run a waiter that sleeps with no stop open at or below its number missed a broadcast between its last look and its sleep |
| StopWaiters.EndsOnlyByClearLook | agent/utils/sync/sequential_waitgroup.go:72-91 | a wait ends only by a look that finds nothing at or below its number open |
| StopWaiters.UnmissedEnds | agent/utils/sync/sequential_waitgroup.go:72-91 | a waiter with nothing to wait for that missed nothing is about to look, and its look ends the wait |
| StopWaiters.MissedHappened | agent/utils/sync/sequential_waitgroup.go:40-91 | a missed broadcast goes back to a stop that was closed between the last look and the sleep |
| StopWaiters.WakeUpCanBeMissed | agent/utils/sync/sequential_waitgroup.go:57-91 | whenever a waiter looks while it has to wait, the open stops can all end before its sleep, and it sleeps on |
| ManagedTask.ConsideredIsRun | agent/engine/task_manager.go:845-891 | the loop over the containers is a run that considers each once, in order |
| ManagedTask.Managed.UpdateKnownStatus | agent/api/task/task.go:1214-1278 | the loops compute the earliest task status of the containers, held back as in the source |
| ManagedTask.Managed.UpdateDesiredStatus | agent/api/task/task.go:1791-1829 | an ending essential container stops the task, and every container's desired status is raised to the task's |
| ManagedTask.Managed.UpdateStatuses | agent/api/task/task.go:1783-1789 | known first, then desired; reports whether the known status changed |
| ManagedTask.Managed.HandleDesiredStatusChange | agent/engine/task_manager.go:368-386 | orders that do not raise the desired status are dropped, and the first numbered stop joins the group |
| ManagedTask.Managed.HandleContainerChange | agent/engine/task_manager.go:391-452 | the task after an event with any error, and whether a stop call is started |
| ManagedTask.Managed.HandleEventError | agent/engine/task_manager.go:619-734 | per status and error: which known status is restored, what is meant to stop, and whether handling goes on |
| ManagedTask.Managed.StartTransition | agent/engine/task_manager.go:979-1046 | one container is blocked, gets a message, or starts an action and its applied status |
| ManagedTask.Managed.StartContainerTransitions | agent/engine/task_manager.go:845-891 | the messages, calls and applied statuses after the loop, and whether anything can move |
| ManagedTask.Managed.FinishStop | agent/engine/task_manager.go:237-249 | a numbered stop leaves the group |
| ManagedTask.Managed.HandleUnableToTransition | agent/engine/task_manager.go:1065-1079 | a stuck task is marked stopped if it is meant to stop, else it is told to stop |
| ImageRecords.OneStatePerId | agent/engine/docker_image_manager.go:170-204 | however recordings and cleanups interleave, an image ID has at most one state |
| ImageRecords.Recorded | agent/engine/docker_image_manager.go:111-205 | a recording puts the container and the name on its image, takes the name off all others, and changes nothing else |
| ImageRecords.CallIsRun | agent/engine/docker_image_manager.go:111-205 | an uninterrupted call is a run of steps that records exactly that |
| ImageRecords.RecordKeepsNamesUnique | agent/engine/docker_image_manager.go:111-141 | recordings one at a time keep every name on a single image |
| ImageRecords.OneImagePerName | agent/engine/docker_image_manager.go:170-204 | concurrent recordings keep names on single images as long as none begins that clashes with a reader: same name, another ID, and both images have a state |
| ImageRecords.DisagreementDuplicates | agent/engine/docker_image_manager.go:170-179 | two disagreeing readers past the untagging always put the name on both images |
| ImageRecords.ClashDuplicates | agent/engine/docker_image_manager.go:170-179 | from every tidy state a recording that clashes with a reader has a run that leaves its name on two images |
| ImageManager.PickShrinksIff | agent/engine/docker_image_manager.go:608-648 | a pick leaves the pool for every sequence of Docker replies exactly when no target name is empty |
| ImageManager.KeptOnlyOnFailure | agent/engine/docker_image_manager.go:608-648 | which names remain after a removal, and that without empty names something remains exactly when a call failed |
| ImageManager.RemovalIsRun | agent/engine/docker_image_manager.go:608-648 | a removal is a run of cleanup steps among concurrent recordings |
| ImageManager.Manager.RecordedIsSpared | agent/engine/docker_image_manager.go:257-277 | the image of a recorded container is in use, so it is not eligible for removal |
| ImageManager.Manager.RemoveNameOfOthers | agent/engine/docker_image_manager.go:308-315 | the name leaves every image with another ID |
| ImageManager.Manager.AddReferenceToExisting | agent/engine/docker_image_manager.go:170-179 | the container joins the image if it has a state, and the name leaves the others either way |
| ImageManager.Manager.AddReferenceToNew | agent/engine/docker_image_manager.go:182-204 | the check is repeated under the write lock before a state is added |
| ImageManager.Manager.RecordContainerReference | agent/engine/docker_image_manager.go:111-141 | the image states after a call, for restarted containers, failed inspections and new images |
| ImageManager.Manager.ImagesToConsider | agent/engine/docker_image_manager.go:563-587 | the pool is the images without an excluded name |
| ImageManager.Manager.CandidateImages | agent/engine/docker_image_manager.go:257-277 | the candidates are the pooled images older than the minimum age that no container uses |
| ImageManager.Manager.LeastRecent | agent/engine/docker_image_manager.go:285-306 | a candidate with the smallest last use |
| ImageManager.Manager.DeleteImage | agent/engine/docker_image_manager.go:623-648 | one removal call: the name goes unless the call failed, and the state goes with its last name from manager and engine |
| ImageManager.Manager.RemoveNames | agent/engine/docker_image_manager.go:608-621 | untagging each name in turn leaves exactly the names whose removal failed, in order |
| ImageManager.Manager.RemoveImage | agent/engine/docker_image_manager.go:608-648 | the state leaves manager and engine exactly when everything was removed or gone; all other states keep their order |
| ImageManager.Manager.RemoveUnusedImages | agent/engine/docker_image_manager.go:341-369 | every pick is older than the minimum age, unused and without an excluded name; every image in use, too young or excluded is still there unchanged, and so are all others not picked; the picks are the least recently used of the images with those three fields, in order of last use, at most N; the budget left over |
| LruCache.HoldsLastValue | agent/async/lru_cache.go:57-98 | after any history an entry holds the last value set under its key and not deleted |
| LruCache.HitIsFreshAndLast | agent/async/lru_cache.go:57-75 | a hit returns the last value set, less than a ttl old |
| LruCache.HitsIff | agent/async/lru_cache.go:57-75 | a Get hits exactly when the key is held and its last Set is younger than the ttl |
| LruCache.MissIsGone | agent/async/lru_cache.go:57-75 | a Get that misses leaves nothing under the key |
| LruCache.SurvivesFewOthers | agent/async/lru_cache.go:57-153 | a key just used keeps its entry through any operations on fewer than `size` other keys |
| LruCache.SurvivesIff | agent/async/lru_cache.go:78-89 | through Sets of other keys it survives exactly when fewer than `size` different keys are set |
| LruCache.UsedSurvives | agent/async/lru_cache.go:57-90 | after any history, a key that was set or hit last keeps its last value through operations on fewer than size other keys |
| LruCache.UsedSurvivesIff | agent/async/lru_cache.go:57-90 | through Sets of other keys it is held exactly when fewer than size of them are set |
| LruCache.ReplayWellFormed | agent/async/lru_cache.go:57-153 | no history lets the cache exceed its size or list a key twice |
| LruCache.Cache.Get | agent/async/lru_cache.go:57-75 | a miss, an expired entry dropped, or a hit moved to the back |
| LruCache.Cache.Set | agent/async/lru_cache.go:78-89 | the entry is replaced at the back and the least recently used key evicted if the size is exceeded |
| LruCache.Cache.Delete | agent/async/lru_cache.go:92-98 | the key leaves map and list |
| LruCache.Cache.UpdateAccessed | agent/async/lru_cache.go:100-108 | the key's element moves to the back |
| LruCache.Cache.RemoveFromEvictList | agent/async/lru_cache.go:110-120 | the first element with the key is removed |
| LruCache.Cache.EvictStale | agent/async/lru_cache.go:122-139 | the entry goes exactly when its age reached the ttl |
| LruCache.Cache.PurgeSize | agent/async/lru_cache.go:141-153 | at most one eviction, from the front, when the size is exceeded |
| StateSaver.NoRequestDropped | agent/statemanager/state_manager.go:221-243 | in every run what a returned client wanted was handed to a write, or a save is planned an interval after the last, with a goroutine asleep until then or already up |
| StateSaver.CallsAreAccounted | agent/statemanager/state_manager.go:221-243 | from its call on a client is waiting, saving, or counted among those that returned |
| StateSaver.PlanIsFulfilled | agent/statemanager/state_manager.go:231-239 | every plan has a run that waits until it is due and no longer, wakes its goroutine and writes all that was wanted |
| StateSaver.WritesAreSpaced | agent/statemanager/state_manager.go:221-243 | the writes of Save start at least ten seconds after the end of every earlier one |
| StateSaver.GoodWritesLoseNothing | agent/statemanager/state_manager.go:221-265 | if every write succeeds, what a returned client wanted is on disk or planned |
| StateSaver.PlanEndsInWrite | agent/statemanager/state_manager.go:225-240 | a plan is dropped only by a write that covers everything wanted so far |
| StateSaver.DuePlanWrites | agent/statemanager/state_manager.go:231-239 | once a plan is due the next goroutine in Save writes and fulfils it |
| StateSaver.FailedWriteLosesIff | agent/statemanager/state_manager.go:225-230 | exactly when the end of a write leaves a wanted change neither on disk nor on its way |
| StateSaver.LostOnlyByFailedWrite | agent/statemanager/state_manager.go:221-243 | a run that ends with a lost request holds a failed write that met this condition, and the request is lost in every state since |
| StateSaver.FirstWriteCanLose | agent/statemanager/state_manager.go:225-230 | the first save of an agent can lose its request that way |
| StateSaver.StateManager.Save | agent/statemanager/state_manager.go:221-243 | the two times, the started goroutine and the error agree with a run of the machine |
| UnixStateFile.NeverPartialOrLost | agent/statemanager/state_manager_unix.go:47-101 | after any run of writes, errors and crashes, now and after one more crash, the loader finds the last acknowledged state or a newer complete one |
| UnixStateFile.AckedIsDurable | agent/statemanager/state_manager_unix.go:62-101 | after a write that returned without error every crash leaves exactly its data |
| UnixStateFile.DirSyncIsNeeded | agent/statemanager/state_manager_unix.go:62-101 | until the directory is synced a crash can bring back the state from before the rename |
| UnixStateFile.FileSyncIsNeeded | agent/statemanager/state_manager_unix.go:62-101 | until the temporary file is synced a crash can leave anything in it |
| UnixStateFile.OpenFileIsStable | agent/statemanager/state_manager_unix.go:47-60 | a loader that opened the file reads that state whatever is saved meanwhile |
| UnixStateFile.OpenedIsHeld | agent/statemanager/state_manager_unix.go:47-60 | no writer works on the file that is in place |
| UnixStateFile.StateFile.WriteFile | agent/statemanager/state_manager_unix.go:62-101 | which error exits there are, and what is acknowledged or in place after each |
| UnixStateFile.StateFile.ReadFile | agent/statemanager/state_manager_unix.go:47-60 | no data without a file, else its content, which is an allowed state |
| WindowsStateFile.NeverPartialOrLost | agent/statemanager/state_manager_windows.go:65-173 | in every run that acknowledges only settled writes the loader finds the last acknowledged state or a newer complete one, now and after one more crash |
| WindowsStateFile.UnsettledAckCanBeLost | agent/statemanager/state_manager_windows.go:144-159 | after every other acknowledgement, with or without an old file, a crash can leave the loader without the acknowledged state |
| WindowsStateFile.LazyRegistryLosesSave | agent/statemanager/state_manager_windows.go:144-159 | with a lazily written registry every save, the first included, can be acknowledged and lost |
| WindowsStateFile.ReadsBackIff | agent/statemanager/state_manager_windows.go:111-159 | from any disk a write without errors reads back exactly when the new file does not take the name the registry had |
| WindowsStateFile.StateFile.WriteNewFile | agent/statemanager/state_manager_windows.go:120-143 | the new file is flushed and whole, or an error leaves the registry alone |
| WindowsStateFile.StateFile.SavePath | agent/statemanager/state_manager_windows.go:161-173 | the registry names the new file; the value before may still be the one on disk unless it was flushed |
| WindowsStateFile.StateFile.RemoveOldFile | agent/statemanager/state_manager_windows.go:149-159 | the old file is removed if there was one; a missing one is an error |
| WindowsStateFile.StateFile.WriteFile | agent/statemanager/state_manager_windows.go:111-159 | which errors there are, and what is acknowledged, in place and in the registry after each |
| WindowsStateFile.StateFile.ReadFile | agent/statemanager/state_manager_windows.go:65-87 | no data without a registry value or its file, else its content |
| StatsQueue.PercentTelescopes | agent/stats/queue.go:77-111 | with increasing timestamps percent times elapsed time adds up to 100 times the counter difference plus one wrap per decrease |
| StatsQueue.BufferTelescopes | agent/stats/queue.go:77-111 | for the buffer of a queue with a counter that does not go down, exactly 100 times the counter difference |
| StatsQueue.BoundedIff | agent/stats/queue.go:104-107 | the size bounds the queue exactly when it is not zero |
| StatsQueue.SplitIsExactIff | agent/stats/queue.go:291-297 | base plus overflow is the value exactly below twice the largest int64; the two largest values are the exceptions |
| StatsQueue.SplitIsInjectiveIff | agent/stats/queue.go:291-297 | which values share their split with another |
| StatsQueue.Queue.Reset | agent/stats/queue.go:52-57 | the queue is empty and the reset time recorded |
| StatsQueue.Queue.Add | agent/stats/queue.go:77-111 | the queue holds the last min(n, size) samples since the reset, each with its percentage against the sample before it |
| StatsQueue.Queue.GetRawUsageStats | agent/stats/queue.go:243-271 | the latest samples, latest first, field by field, without their counters; an error exactly when there are none |
| StatsQueue.Queue.GetULongStatsSet | agent/stats/queue.go:358-400 | the true minimum and maximum, the sum modulo 2^64 and the count, split; an error exactly below two samples |
| StatsQueue.Queue.GetCWStatsSet | agent/stats/queue.go:317-352 | minimum, maximum, sum and count of the values that are numbers, the extreme floats when there are none |
| StatsEngine.MapsAgree | agent/stats/engine.go:235-313 | with metrics enabled no reachable state keeps an empty task, health checks are a part of what is tracked, definitions are exactly those of tracked tasks, and a health report looks at every health container |
| StatsEngine.CollectorsReconcile | agent/stats/container.go:66-101 | in every run a tracked container has its collector or is terminal or unknown, and a collector without a tracked container can stop itself at once |
| StatsEngine.RemovedIsGone | agent/stats/engine.go:529-555 | after a removal neither map has the container, its collector is stopped, the definition goes with the last container, and everything else is as it was |
| StatsEngine.StopsOnlyItself | agent/stats/container.go:66-101 | a collector that stops itself is the only thing to change |
| StatsEngine.CollectsAlways | agent/stats/engine.go:146-160 | in every run in which health is never reported for a container tracked without it and still collecting, each running collector belongs to a tracked container, and a tracked container without one is terminal or no longer known |
| StatsEngine.CollectsRemoveIff | agent/stats/engine.go:644-669 | a removal leaves no collector behind exactly when the object in hand is the tracked one or that one has stopped itself |
| StatsEngine.LateHealthLeaks | agent/stats/engine.go:235-277 | every late report has a run after which a collector runs that no map holds |
| StatsEngine.LeftOverStopsItself | agent/stats/container.go:66-101 | such a collector runs on in every run until it stops itself |
| StatsEngine.DisabledDropsDefinitionIff | agent/stats/engine.go:445-503 | with metrics disabled a health report leaves a task without a definition exactly when some of its containers are over and some are not |
| StatsEngine.ForgottenUntilAdded | agent/stats/engine.go:445-451 | such a task keeps its health containers, and none is looked at, in every run that adds no container of it |
| StatsEngine.AddingRemembers | agent/stats/engine.go:235-277 | adding one makes the next report look at all of them and remove exactly those that are over |
| StatsEngine.DisabledTracksNothing | agent/stats/engine.go:235-277 | with metrics disabled nothing is ever tracked or collected |
| StatsEngine.RemoveAllKeepsIff | agent/stats/engine.go:218-232 | removing everything stops all collectors exactly when none is left over, and breaks the agreement of the maps exactly when anything was tracked |
| StatsEngine.DockerStatsEngine.AddToMap | agent/stats/engine.go:289-313 | the container is added unless it is already watched |
| StatsEngine.DockerStatsEngine.AddAndStart | agent/stats/engine.go:146-277 | which containers are refused, and the three maps and collectors after an addition |
| StatsEngine.DockerStatsEngine.DoRemove | agent/stats/engine.go:644-669 | the container leaves both maps and the task leaves with its last container |
| StatsEngine.DockerStatsEngine.RemoveContainer | agent/stats/engine.go:529-555 | a stop event removes the container exactly when it is tracked |
| StatsEngine.DockerStatsEngine.ReapTask | agent/stats/engine.go:573-589 | removing terminal containers one by one, in any order, leaves exactly the others, and the maps agree |
| StatsEngine.DockerStatsEngine.GetTaskHealth | agent/stats/engine.go:420-503 | nothing without a definition; otherwise the loop removes the containers that are over from both maps and looks up the others |
| StatsEngine.DockerStatsEngine.RemoveAll | agent/stats/engine.go:218-232 | both loops empty the map of tracked containers only |
| SlicesEqual.SlicesDeepEqual | agent/utils/utils.go:67-97 | true exactly when the slices are equal as multisets |

## Left out

- The Docker, CNI, EC2, ECR, SSM, ASM and S3 clients: thin calls into libraries; their replies are parameters.
- The websocket client, the ACS session, the HTTP servers and handlers, and metrics publishing.
- Configuration, capabilities, container metadata, version comparison and repository tag parsing: short, flat branching.
- The semaphore that bounds concurrent submissions, the retry backoff and the jitter of the event ticker: they only delay steps.
- Task events that carry containers of another task, and container events pushed on a list of their own: the handler's callers produce neither.
- Task resources: a failed resource appears as an order to stop; known statuses of resources are not modelled.
- Events for containers a task does not have: the source logs and drops them; here a container is an index of its task.
- Dependency resolution, the waits for host resources and credentials, and the cleanup after a stop.
- Non-ECS images and containers, and the helper that excludes images from their removal.
- Sorting candidate images: taking the first after a sort is modelled as taking some smallest one.
- The clock within one cleanup cycle is fixed.
- The cleanup pool is a set of image IDs, which are unique; the source keys a map by ID.
- JSON encoding and decoding of the saved state, and the version check on load.
- Temporary files left behind by failed writes are kept on disk, as in the source, and never read.
- StateSaver.StateManager.Save: does not model a clock that steps back, because the spacing of writes assumes a monotone clock.
- StatsQueue.Queue.GetCWStatsSet: does not model floating point rounding, because the values are reals.
- StatsQueue.Queue.Add: does not model rounding of the percentage to 32 bits or the saturation of time differences beyond 292 years.
- StatsEngine.DockerStatsEngine.GetTaskHealth: does not model health reports that mutate the maps under the shared lock at the same time, because each report is one atomic step.
- A container that is terminal, or gone from the task engine's state, stays so; a cancelled collector counts as stopped, although its goroutine ends a little later.
- SlicesEqual.SlicesDeepEqual: does not model elements that are unequal to themselves, such as NaN.
