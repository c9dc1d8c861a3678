# Verified model of the entservices-infra1 control logic

This project models the stateful cores of the RDK services repository and proves what
they keep over every run:

| file | component |
|---|---|
| `TransitionSearch.dfy` | the backward search over the state table, for any table |
| `Lifecycle.dfy` | states, handlers with the events they wait for, the walk along a found path |
| `LifecycleHistory.dfy` | events, change ids, instance ids and refused terminations of all contexts, piece by piece |
| `LifecycleObjects.dfy`, `LifecycleManager.dfy` | the same as objects updated in place: contexts with their semaphores, state handler, loaded-application list, request queue |
| `TransitionSystem.dfy` | the worker thread, its clients, its terminator and the managers' events, as interleaved steps |
| `TransitionInvariants.dfy`, `TransitionWorker.dfy` | what every step keeps; what holds in every system that can be reached |
| `TransitionPasses.dfy` | a whole drain pass, and which queues it empties |
| `Launches.dfy` | what becomes of a first-launch SpawnApp, which waits for LOADING |
| `Requests.dfy` | what clients ask for and are told: requests, kill flags, instance ids, names of events |
| `Containers.dfy` | the application's container beside its context, over whole runs |
| `TransitionWitnesses.dfy` | runs in which things go wrong |
| `MonitorTicks.dfy`, `RestartBudget.dfy`, `Monitor.dfy` | tick and countdown arithmetic, slot grid, restart budget; monitored objects and the dispatch pass |
| `MonitorRuns.dfy` | a monitored object over any run of passes |
| `RetryBackoff.dfy`, `Downloads.dfy` | golden-ratio back-off, retry loop, double-ended queue, sleeping worker |
| `PackageLocks.dfy` | lock counting around the package library |
| `UserIds.dfy` | the FIFO pool of user ids |
| `Observers.dfy` | attach/detach of remote connections around released locks |
| `CpuCores.dfy` | printing of the CPU core mask |
| `Common.dfy` | shared definitions |

`dafny verify dfyconfig.toml` checks all of it.

How the model is built:

- Each operation has a value-level specification function. The classes hold the
  source's fields, and their methods are proved to change them exactly as that function says.
  Runs are then studied on the functions.
- Everything outside the source (runtime manager, window manager, package library, HTTP
  client, clock, observed processes) is an argument that ranges over all answers.
- Threads are step systems. A critical section that touches only data guarded by its
  mutex is one step. The drain pass, which holds the request mutex across many requests, is
  taken piece by piece: each iteration of a walk is a step, or two if its handler waits, with
  every other section of that mutex disabled and everything else free to come in between.
- A handler that waits for an event (State.cpp:60, 120 and 209 in LifecycleManager) keeps the
  worker until its context's semaphore holds a post. `Lifecycle.Walk` is a walk whose waits
  end; `TransitionSystem` does not assume that they do.
- 32-bit counters wrap: change ids, download ids, countdowns, restart and lock counts.
- `Container`, `Suits` and `Commanded` are this model's reading of the runtime manager's
  commands: which container a command is meant for and which one it leaves when it
  succeeds. Of these the runtime manager itself tests only that a container to be woken is
  hibernating (RuntimeManager/RuntimeManagerImplementation.cpp:673-675).

Where the code differs from what it says, the model follows the code:

- The restart message speaks of failing more than *limit* times within the window. The
  count goes 0, 1, 3, 7, ..., so floor(log2 limit) + 1 restarts are granted
  (`RestartBudget.GrantsFromFreshWindow`), which is the limit only for limits 1 and 2; and a
  refusal starts the count anew, so that later failures of the same window are granted again
  (`RestartBudget.OutcomesFromFreshWindow`, and over several windows `OutcomeInItsWindow`).
- The run and resume handlers overwrite the result of a command that failed. A failed resume
  is announced as PAUSED while the container stays frozen. After a failed run the worker
  waits for a "running" event; only if one is left over from before does the launch go on
  without a container, and only a context that was unloaded before can have such a post
  (`Containers.LeftoverNeedsRelaunch`): a request queued behind its termination has to be
  served before the UNLOADED event removes it. `Lifecycle.StepMirrorsIff` gives the guard of both branches,
  `Containers.OutOfStepIffLapsed` and `Containers.LapsesIff` the exact condition over whole
  runs, `TransitionWitnesses.ResumeCanFailUnnoticed` and `RunCanFailUnnoticed` a run of each.
- The worker waits for such events while it holds the request mutex. It cannot move in
  exactly three situations (`TransitionWorker.CannotMoveIff`), and terminate() joins a worker
  that cannot move exactly when a handler waits for an event that has not come
  (`TransitionWorker.JoinIsStuckIff`, with a run in `TransitionWitnesses.JoinCanBeStuck`).
  Until it comes every addRequest caller waits too (`TransitionWorker.StuckHandlerHoldsAll`).
- A termination is announced before it is attempted. Events still replay once an
  announcement without UNLOADED behind it is read as void
  (`TransitionWorker.EveryInterleavingReplays`); they form a plain chain exactly when no
  TERMINATING handler of the context has failed (`TransitionWorker.PlainChainIffNoneRefused`,
  `RefusalIsAFailedTermination`, and `TransitionWitnesses.TerminationCanBeRefused`).
- A request that fails stays at the head of the queue, so one that can never succeed stops
  all others (`TransitionWorker.StuckHeadBlocksForever`, `TransitionWitnesses.HeadCanBeStuck`).
  `TransitionPasses.EveryBenignPassEmptiesIff` says which queues hold such a request.
- SpawnApp looks a context up and creates one without a lock, so overlapping calls can make
  two contexts for one application (`TransitionWorker.SecondContextIff`,
  `TransitionWitnesses.OneAppCanHaveTwoContexts`). It does not test for an empty application
  id either, which no look-up finds: every such call makes a context.
- A first-launch SpawnApp moves on exactly when its context has reached LOADING
  (`Launches.AwaitingMovesIff`). A launch to UNLOADED is accepted and never gets there, so
  its caller waits on (`TransitionWitnesses.LaunchToUnloadedWaits`).
- SpawnApp returns an empty instance id exactly when the context it read has never reached
  LOADING (`TransitionWorker.ReadIdIsEmptyIff`), which a second SpawnApp of an application
  still launching can meet (`TransitionWitnesses.SpawnCanReturnNothing`).
- The downloader waits without a predicate, so a download or a stop that comes between its
  check and its wait is slept through (`Downloads.WakeupIsLostIff`, `Downloads.WakeupCanBeLost`,
  `Downloads.StopCanBeLost`).
- A monitored object whose slot grid contains the scheduled time stays due at that very
  slot (`MonitorTicks.MovesPastIff`), and each such pass makes its periods an interval
  shorter (`MonitorRuns.RatesKeepTime`).
- The 32-bit lock count loses a package that is locked 2^32 times
  (`PackageLocks.CountsBalanceIff`).

## Model

| member | source | states |
|---|---|---|
| TransitionSearch.SearchDecidesReachability | LifecycleManager/StateHandler.cpp:93-122 | for every finite table, start and target, the search from an empty visited map succeeds iff a chain of allowed steps leads from start to target; sharing the map between siblings hides nothing |
| TransitionSearch.SearchPathIsSimple | LifecycleManager/StateHandler.cpp:107-121 | a found path plus the target is an allowed chain from the start without repeats; failed branches add nothing; no state is expanded twice |
| TransitionSearch.SearchKeepsPromise | LifecycleManager/StateHandler.cpp:93-122 | one call with any visited map: the path avoids it, and on failure the newly marked states are closed under predecessors |
| TransitionSearch.ScanKeepsPromise | LifecycleManager/StateHandler.cpp:107-120 | the same for the loop over predecessors |
| TransitionSearch.ClosedHoldsWalk | LifecycleManager/StateHandler.cpp:109-112 | a set closed under predecessors holds every walk that ends in it |
| TransitionSearch.ReachesTransitive | LifecycleManager/StateHandler.cpp:93-122 | reachability composes |
| TransitionSearch.SuffixReaches | LifecycleManager/StateHandler.cpp:180-189 | every state on a walk still reaches its end |
| TransitionSearch.IsValidTransition | LifecycleManager/StateHandler.cpp:93-122 | the recursive procedure on its two by-reference arguments makes exactly the marks, path and answer of the specified search, and terminates |
| Lifecycle.RequestIsAcceptedIff | LifecycleManager/StateHandler.cpp:126-151 | with the shipped table a request is accepted iff it goes forward through launch, moves among the four loaded states, terminates one of them or an earlier one, or asks for the current state |
| Lifecycle.FullPathIsLegal | LifecycleManager/StateHandler.cpp:180-194 | the walked path starts at the current state, takes only table steps plus TERMINATING to UNLOADED, ends outside TERMINATING, and every state on it reaches the target |
| Lifecycle.FullPathIsSimple | LifecycleManager/StateHandler.cpp:180-194 | it ends where the request asks and visits no state twice on the way |
| Lifecycle.HandleOutcome | LifecycleManager/State.cpp:32-213 | a handler that fails changes nothing; only LOADING touches the record; each state can wait for one event only, and TERMINATING never succeeds without waiting |
| Lifecycle.HandlerFailsIff | LifecycleManager/State.cpp:32-213 | for each state exactly when its handler returns false |
| Lifecycle.HandlerWaitsIff | LifecycleManager/State.cpp:48-213 | a handler waits iff INITIALIZING is entered with a runtime manager, ACTIVE with a window manager that answers and has not rendered, or TERMINATING with a command that succeeds |
| Lifecycle.AdvanceIsBeginFinish | LifecycleManager/StateHandler.cpp:199-253 | an iteration cut at its handler's wait amounts, once the wait ends, to the uncut iteration |
| Lifecycle.StepMirrorsIff | LifecycleManager/State.cpp:48-97 | from a context in step with its container every command suits the container and, if it succeeds, takes it where the next state needs it, and an iteration parts them iff there is a runtime manager and either PAUSED is entered from SUSPENDED and the resume fails, or INITIALIZING is entered, the run fails and a "running" post is left over |
| Lifecycle.AdvanceOutcome | LifecycleManager/StateHandler.cpp:199-253 | one step arrives or leaves the state alone; LOADING and UNLOADED cannot fail, and with a runtime manager only ACTIVE, SUSPENDED, HIBERNATED and TERMINATING can |
| Lifecycle.WalkOutcome | LifecycleManager/StateHandler.cpp:199-255 | a walk ends at the last state of the path or rests at an earlier one, never in TERMINATING or UNLOADED |
| Lifecycle.SucceedsIffArrived | LifecycleManager/StateHandler.cpp:164-255 | changeState returns true iff the context ends in the requested state (UNLOADED for TERMINATING), for every context, target and handler outcome |
| Lifecycle.FailureIsResumable | LifecycleManager/StateHandler.cpp:180-255 | a failed request either changed nothing, or rests on the found path where the target is still reachable |
| Lifecycle.RetryCompletes | LifecycleManager/StateHandler.cpp:164-255 | retrying after a failure, with handlers that succeed, completes the request |
| Lifecycle.BenignWalkArrives | LifecycleManager/State.cpp:32-213 | when managers answer and commands succeed, no handler on a table path fails |
| LifecycleHistory.FollowsIffCompleted | LifecycleManager/StateHandler.cpp:222-252 | an event continues the one before it iff that one did not announce a termination left uncompleted |
| LifecycleHistory.CompleteIffCountsAgree | LifecycleManager/StateHandler.cpp:222-252 | every announced termination of a context was completed iff as many were announced as completed |
| LifecycleHistory.PlainChainIff | LifecycleManager/StateHandler.cpp:222-252 | a context's events are a plain chain from UNLOADED to its current state iff every announced termination was completed |
| LifecycleHistory.BeginKeepsRecord | LifecycleManager/StateHandler.cpp:199-245 | an iteration up to its handler's wait keeps the context's events linked to its state, change id and instance id, counts a failed TERMINATING handler, and leaves a waiting one pending |
| LifecycleHistory.FinishKeepsRecord | LifecycleManager/StateHandler.cpp:215-253 | so does the rest of the iteration |
| LifecycleHistory.BeganKeepsInv | LifecycleManager/StateHandler.cpp:199-245 | beginning an iteration on one of many contexts keeps change ids consecutive over all of them and every context's record |
| LifecycleHistory.EndedKeepsInv | LifecycleManager/StateHandler.cpp:199-253 | so does ending one |
| LifecycleHistory.CreateKeepsInv | LifecycleManager/LifecycleManagerImplementation.cpp:236-242 | so does a new context, also in the middle of an iteration on another |
| LifecycleHistory.IdSetIff | LifecycleManager/State.cpp:37-46 | an instance id is empty iff the context has no event yet |
| LifecycleHistory.NeverLoadedIff | LifecycleManager/State.cpp:37-46 | a context has no event iff it has never reached LOADING |
| LifecycleHistory.RestingReplays | LifecycleManager/StateHandler.cpp:199-253 | the events of a context at rest replay to its state, never TERMINATING; its instance id is set when needed; and they are a plain chain iff none of its terminations was refused |
| LifecycleObjects.ApplicationContext.Handle | LifecycleManager/State.cpp:32-213 | the handlers as updates of the context |
| LifecycleObjects.StateHandler.Initialize | LifecycleManager/StateHandler.cpp:124-151 | filling the map leaves exactly the shipped table |
| LifecycleObjects.StateHandler.UpdateState | LifecycleManager/StateHandler.cpp:36-56 | the state changes iff the handler succeeds |
| LifecycleObjects.StateHandler.PathTo | LifecycleManager/StateHandler.cpp:180-194 | the search and the extended path |
| LifecycleObjects.StateHandler.ChangeState | LifecycleManager/StateHandler.cpp:164-255 | context, counter and event stream change exactly as specified; a null context changes nothing |
| LifecycleObjects.StateHandler.WalkPath | LifecycleManager/StateHandler.cpp:195-255 | the loop over the path |
| LifecycleObjects.StateHandler.WalkStep | LifecycleManager/StateHandler.cpp:201-252 | its body, with TERMINATING announced before it is handled |
| LifecycleManager.LifecycleManagerImplementation.GetContext | LifecycleManager/LifecycleManagerImplementation.cpp:467-488 | the first list entry that matches either non-empty id, or null if none does |
| LifecycleManager.LifecycleManagerImplementation.LoadContext | LifecycleManager/LifecycleManagerImplementation.cpp:234-242 | the list grows by a fresh context iff none matched, and otherwise the first match is found |
| LifecycleManager.LifecycleManagerImplementation.HandleManagerEvent | LifecycleManager/LifecycleManagerImplementation.cpp:510-557 | an event posts one semaphore of the loaded application with that instance id, or changes nothing if there is none |
| LifecycleManager.LifecycleManagerImplementation.HandleStateChangeEvent | LifecycleManager/LifecycleManagerImplementation.cpp:559-587 | UNLOADED removes the first entry with that instance id, and any other state none |
| LifecycleManager.LifecycleManagerImplementation.AddRequest | LifecycleManager/StateTransitionHandler.cpp:105-112 | a request joins the end of the queue and the request semaphore gets a post |
| LifecycleManager.LifecycleManagerImplementation.Drain | LifecycleManager/StateTransitionHandler.cpp:66-86 | the drain loop on the objects performs the same requests, and leaves the same queue, as the specified pass; a null context fails |
| TransitionSystem.Find | LifecycleManager/LifecycleManagerImplementation.cpp:467-488 | look-up by application id: the first match, and none for an empty id |
| TransitionInvariants.StepKeepsQueue | LifecycleManager/StateTransitionHandler.cpp:64-113 | every step keeps the queue equal to the submitted sequence minus its completed prefix, with every attempt at its head |
| TransitionInvariants.StepKeepsWake | LifecycleManager/StateTransitionHandler.cpp:59-113 | every step keeps: a blocked worker with an untried head has a post pending |
| TransitionInvariants.StepKeepsStop | LifecycleManager/StateTransitionHandler.cpp:87-103 | every step keeps the termination hand-shake |
| TransitionInvariants.StepKeepsCore | LifecycleManager/StateHandler.cpp:164-255 | every step, also one that comes in the middle of a walk, keeps the worker on a legal path to the head's target and all histories, and an attempt it ends succeeded iff the context is where the request asked |
| TransitionInvariants.StepKeepsClients | LifecycleManager/LifecycleManagerImplementation.cpp:228-259 | every step keeps clients' contexts known, the ids they are to return set, and their look-ups no older than the contexts made since |
| TransitionInvariants.EveryInterleaving | LifecycleManager/StateTransitionHandler.cpp:59-113 | all of this in every system that can be reached |
| TransitionWorker.NoLostWakeup | LifecycleManager/StateTransitionHandler.cpp:59-113 | a worker blocked for good with no client between push and post has an empty queue or a head that failed on its latest attempt |
| TransitionWorker.PassesAreBounded | LifecycleManager/StateTransitionHandler.cpp:72-103 | drain passes never exceed 1 + posts, and at most one begins after terminate() clears the flag |
| TransitionWorker.ServedInSubmissionOrder | LifecycleManager/StateTransitionHandler.cpp:64-113 | requests complete in submission order, none lost or repeated, and a failed head is the next one tried |
| TransitionWorker.CannotMoveIff | LifecycleManager/StateTransitionHandler.cpp:59-93 | the worker cannot move iff it has finished, is blocked on the request semaphore at zero, or waits in a handler on a semaphore at zero |
| TransitionWorker.JoinIsStuckIff | LifecycleManager/StateTransitionHandler.cpp:96-103 | terminate() waits for a worker that cannot move iff the worker waits in a handler on a semaphore at zero |
| TransitionWorker.EntersHandlerIff | LifecycleManager/State.cpp:57-60 | the worker comes to wait in a handler by exactly the steps that enter INITIALIZING with a runtime manager, ACTIVE before the first frame is rendered, or TERMINATING with a command that succeeds |
| TransitionWorker.HandlerFailsRequestIff | LifecycleManager/StateTransitionHandler.cpp:76-83 | a handler fails the request, which stays, and ends the pass by exactly the steps in which a manager it needs is missing or refuses the one command whose result it looks at |
| TransitionWorker.StuckHandlerHoldsAll | LifecycleManager/State.cpp:60 | in every continuation without that event the worker stays in the handler, nothing is submitted, and callers before the mutex stay there |
| TransitionWorker.WorkerWindsDown | LifecycleManager/StateTransitionHandler.cpp:72-103 | once the flag is cleared every worker step lowers a well-founded rank, which other steps raise only by pushing before the last pass, and the worker can move unless it has finished, waits in a handler, or terminate() is yet to post |
| TransitionWorker.EveryInterleavingReplays | LifecycleManager/StateHandler.cpp:199-253 | in every system that can be reached ids are consecutive, and every context the worker is not walking replays |
| TransitionWorker.PlainChainIffNoneRefused | LifecycleManager/StateHandler.cpp:222-252 | in every run a context's events are a plain chain from UNLOADED to its resting state iff no TERMINATING handler of it has failed |
| TransitionWorker.RefusalIsAFailedTermination | LifecycleManager/State.cpp:191-213 | a refusal is recorded by exactly those steps in which a TERMINATING handler finds no runtime manager or its kill or terminate command fails |
| TransitionWorker.AttemptSucceedsIffArrived | LifecycleManager/StateHandler.cpp:164-255 | under every interleaving an attempt succeeds iff it leaves the context where the request asked |
| TransitionWorker.ReadIdIsEmptyIff | LifecycleManager/LifecycleManagerImplementation.cpp:251-256 | SpawnApp returns an empty instance id iff the context it reads has never reached LOADING, which a first launch cannot meet |
| TransitionWorker.SpawnReturnsId | LifecycleManager/LifecycleManagerImplementation.cpp:245-257 | a first-launch SpawnApp that returns hands out a non-empty instance id, also when an earlier context of the application was unloaded |
| TransitionWorker.SecondContextIff | LifecycleManager/LifecycleManagerImplementation.cpp:234-242 | a SpawnApp about to create a context makes a second one for its id iff one made since its own look-up is loaded or, for the empty id, any is |
| TransitionWorker.RelaunchIsFirst | LifecycleManager/LifecycleManagerImplementation.cpp:234-242 | a SpawnApp is a first launch iff no context of its application is loaded, as after an unload |
| TransitionWorker.UnloadRemovesFirst | LifecycleManager/LifecycleManagerImplementation.cpp:559-587 | an UNLOADED that is handled takes the first context with its instance id off the list, and no other |
| TransitionWorker.StuckHeadBlocksForever | LifecycleManager/StateTransitionHandler.cpp:67-85 | a head that asks for an unreachable state stays at the head, and nothing behind it completes, in every continuation |
| TransitionPasses.WalkRuns | LifecycleManager/StateHandler.cpp:195-255 | served with the events it waits for, the worker can take a walk to where the uncut loop ends it |
| TransitionPasses.PassIsDrainAll | LifecycleManager/StateTransitionHandler.cpp:66-86 | served likewise, it can take a pass to where the drain loop ends it |
| TransitionPasses.BenignRequestSucceedsIff | LifecycleManager/StateHandler.cpp:164-255 | while handlers succeed, a request succeeds iff its context is known and its target acceptable by rank, and leaves the context at its goal |
| TransitionPasses.BenignPassEmptiesIff | LifecycleManager/StateTransitionHandler.cpp:66-86 | while handlers succeed, the drain loop empties the queue iff each request is acceptable where the earlier requests on its context leave it |
| TransitionPasses.StepKeepsProspect | LifecycleManager/StateTransitionHandler.cpp:66-86 | while handlers succeed no step of a pass, of any thread, changes whether the pass is going to empty its queue |
| TransitionPasses.EveryBenignPassEmptiesIff | LifecycleManager/StateTransitionHandler.cpp:66-86 | in every run of a pass whose handlers succeed, under every interleaving, the queue ends empty iff each request queued at its beginning was acceptable in turn |
| Launches.StepKeepsLaunches | LifecycleManager/LifecycleManagerImplementation.cpp:245-257 | every step keeps: no two callers wait for one context's LOADING, and the post made on reaching it stays for the caller that waits |
| Launches.AwaitingMovesIff | LifecycleManager/LifecycleManagerImplementation.cpp:251-255 | in every run a SpawnApp that waits for LOADING can move on iff its context has reached LOADING |
| Requests.ForceIsLast | LifecycleManager/LifecycleManagerImplementation.cpp:285-325 | in every run a context's kill flag is that of the last KillApp or UnloadApp on it |
| Requests.KillIsObeyed | LifecycleManager/State.cpp:191-213 | with a runtime manager the TERMINATING handler kills iff the last of these calls was KillApp, and otherwise asks to terminate |
| Requests.SubmittedAsAsked | LifecycleManager/LifecycleManagerImplementation.cpp:228-325 | in every run a client's request is submitted for the state it named, and for a context of the application it launched or the one it named |
| Requests.StepMovesPosts | LifecycleManager/LifecycleManagerImplementation.cpp:510-557 | every step: a context's semaphores are posted by, and only by, entering LOADING or the event they stand for, and taken by, and only by, the caller or handler that waits for them |
| Requests.NewContextHasNoPosts | LifecycleManager/LifecycleManagerImplementation.cpp:236-242 | a new context's semaphores are at zero |
| Requests.IdReadIsLatest | LifecycleManager/LifecycleManagerImplementation.cpp:251-256 | in every run the instance id that SpawnApp returns, if not empty, is that of its context's latest LOADING |
| Requests.EveryEventIsNamed | LifecycleManager/StateHandler.cpp:222-238 | in every run each event carries the application id of the context it is about |
| Containers.StepSettles | LifecycleManager/State.cpp:48-213 | every step with a true report keeps each context in step with its container or lapsed, also while its handler waits |
| Containers.OutOfStepIffLapsed | LifecycleManager/State.cpp:48-213 | in every run with true reports a context no handler is at work on is out of step with its container iff it has lapsed, and then it stands for a running container and has none |
| Containers.LapsesIff | LifecycleManager/State.cpp:48-97 | a context lapses by exactly those steps that overwrite the failure of a run, or of a resume out of SUSPENDED, and recovers by exactly a "running" report or a command that succeeds |
| Containers.LeftoverNeedsRelaunch | LifecycleManager/State.cpp:48-63 | in every run with true reports a launch finds a "running" post left over only in a context that was unloaded before |
| TransitionWitnesses.JoinCanBeStuck | LifecycleManager/State.cpp:57-60 | a run in which terminate() joins a worker that waits for "running" after a failed run |
| TransitionWitnesses.ResumeCanFailUnnoticed | LifecycleManager/State.cpp:78-97 | a run that ends PAUSED with a frozen container |
| TransitionWitnesses.RunCanFailUnnoticed | LifecycleManager/State.cpp:48-63 | a run that ends INITIALIZING without a container |
| TransitionWitnesses.TerminationCanBeRefused | LifecycleManager/StateHandler.cpp:240-252 | a run with a refused termination, whose events are no plain chain |
| TransitionWitnesses.HeadCanBeStuck | LifecycleManager/StateTransitionHandler.cpp:67-85 | a run to a head that can never succeed |
| TransitionWitnesses.SpawnCanReturnNothing | LifecycleManager/LifecycleManagerImplementation.cpp:236-257 | a run in which a later SpawnApp returns an empty id |
| TransitionWitnesses.LaunchToUnloadedWaits | LifecycleManager/LifecycleManagerImplementation.cpp:245-257 | a run in which a first launch to UNLOADED is served and its SpawnApp waits on |
| TransitionWitnesses.OneAppCanHaveTwoContexts | LifecycleManager/LifecycleManagerImplementation.cpp:234-242 | a run in which overlapping SpawnApps make two contexts for one application |
| MonitorTicks.GcdIsGreatest | Monitor/Monitor.h:29-32 | gcd divides both periods and every common divisor divides it |
| MonitorTicks.LongestTick | Monitor/Monitor.h:478 | the interval is the longest tick that meets both periods |
| MonitorTicks.CountdownKeepsTime | Monitor/Monitor.h:599-627 | after n ticks a countdown has fired floor(n*I/period) times, stands at a positive multiple of I, and never underflows |
| MonitorTicks.AlignedFacts | Monitor/Monitor.h:559-564 | a slot moves to a point of its grid not before the given time and less than an interval after it |
| MonitorTicks.AlignedIsUnique | Monitor/Monitor.h:559-564 | there is only one such point |
| MonitorTicks.MovesPastIff | Monitor/Monitor.h:559-564 | an evaluated slot moves beyond the scheduled time iff that time is not on its grid |
| Monitor.RatesAreExact | Monitor/Monitor.h:593-629 | after n evaluations with a live source: floor(n*I/op) probes, floor(n*I/mem) measurements, both countdowns positive multiples of I |
| Monitor.ReportedIff | Monitor/Monitor.h:602-626 | an evaluation reports an object iff it completes a period and finds it not operational or above its threshold |
| Monitor.FlagIsLatestProbe | Monitor/Monitor.h:602-609 | the operational flag changes iff an operational period completes, to what the probe answers |
| Monitor.VerdictIff | Monitor/Monitor.h:922-950 | a pass reports an object for memory iff it is active, due, has a source, completes a memory period and exceeds a nonzero threshold, and for failure iff it completes an operational period not operational and is not reported for memory |
| Monitor.PassTouchesIff | Monitor/Monitor.h:915-958 | a pass evaluates an object iff it is active, due and has a source, and moves its slot to the grid point in the interval from the pass on iff it is active and due |
| Monitor.MonitorObject.constructor | Monitor/Monitor.h:456-483 | a new object starts both countdowns at their periods |
| Monitor.MonitorObject.Set | Monitor/Monitor.h:565-580 | changing the source leaves the countdowns alone |
| Monitor.MonitorObject.Evaluate | Monitor/Monitor.h:593-629 | one evaluation, or nothing without a source |
| Monitor.MonitorObject.Retrigger | Monitor/Monitor.h:559-564 | the loop reaches the aligned slot |
| Monitor.MonitorObject.RegisterRestart | Monitor/Monitor.h:498-517 | one failure against the budget |
| Monitor.MonitorObjects.Dispatch | Monitor/Monitor.h:915-971 | a pass evaluates and moves exactly the due active objects, reports exactly the bad ones with their reason, finds the earliest slot, schedules itself 1 ms after it or at once if it has passed, and stops iff no object is active |
| Monitor.ClockFits | Monitor/Monitor.h:559-564 | a clock with 2^32 microseconds to spare never takes a slot past its word |
| Monitor.PassMovesSlots | Monitor/Monitor.h:922-959 | after a pass each active slot is on its grid, not before the scheduled time, and a late one less than an interval after it |
| MonitorRuns.PassKeepsTime | Monitor/Monitor.h:922-959 | one pass evaluates once for each grid slot moved on, but for those skipped, and once more if it comes at the slot itself |
| MonitorRuns.PassesKeepTime | Monitor/Monitor.h:922-959 | in any run of passes the intervals evaluated and skipped make up the time the slot has moved on plus one interval for each pass at the slot itself |
| MonitorRuns.NothingSkippedIff | Monitor/Monitor.h:559-564 | no grid slot is skipped iff no pass comes more than an interval after the slot |
| MonitorRuns.SlotFollowsPasses | Monitor/Monitor.h:559-564 | after passes in order of time the slot is not before the last one and, once moved, less than an interval after it |
| MonitorRuns.RatesKeepTime | Monitor/Monitor.h:593-629 | a new object is probed floor(t/op) and measured floor(t/mem) times, where t is the time its slot has moved on, less what was skipped, plus an interval for each pass at the slot itself |
| Monitor.StopsIffNoneActive | Monitor/Monitor.h:961-970 | the job stops iff no object is active |
| Monitor.EarliestExtends | Monitor/Monitor.h:954-956 | the running minimum over the objects visited |
| RestartBudget.GrantsInWindow | Monitor/Monitor.h:503-516 | after k counted failures the count is 2^k - 1 and floor(log2 limit) - k restarts remain |
| RestartBudget.GrantsFromFreshWindow | Monitor/Monitor.h:498-517 | failures that come when no window is open or the last has ended, and stay in the window they open, get exactly min(failures, floor(log2 limit) + 1) restarts, never more than the limit |
| RestartBudget.OutcomesInWindow | Monitor/Monitor.h:503-516 | after k counted failures in a window exactly every (floor(log2 limit) + 1)-th is refused, and the grants are counted |
| RestartBudget.OutcomesFromFreshWindow | Monitor/Monitor.h:498-517 | of all failures that open a window and stay in it the i-th is granted iff i is 0 or no multiple of floor(log2 limit) + 1 |
| RestartBudget.OutcomeInItsWindow | Monitor/Monitor.h:498-517 | over any number of windows a failure is granted iff it opens a window or lies no multiple of floor(log2 limit) + 1 failures after the one that did; each window ends where the source puts it |
| RestartBudget.BudgetIsLimitIff | Monitor/Monitor.h:787-788 | of more failures than the limit in one fresh window as many as the limit are granted before the first refusal iff the limit is 1 or 2 |
| RestartBudget.GrantsWithoutWindow | Monitor/Monitor.h:503-511 | without a window one restart fewer |
| RestartBudget.NoLimitNeverRefuses | Monitor/Monitor.h:511 | limit zero never refuses |
| RetryBackoff.NearestIsRounded | PackageManager/PackageManagerImplementation.h:189-192 | an integer condition decides the rounded product with (1 + sqrt 5)/2 |
| RetryBackoff.RoundsToSuccessor | PackageManager/PackageManagerImplementation.h:189-192 | rounding sends every Fibonacci number from F(2) on to its successor |
| RetryBackoff.NeighboursForm | PackageManager/PackageManagerImplementation.h:189-192 | why: the quadratic form of neighbours is plus or minus one |
| RetryBackoff.WaitIsFib | PackageManager/PackageManagerImplementation.cpp:728-733 | the wait before the j-th retry is F(j + 2) |
| RetryBackoff.TotalWait | PackageManager/PackageManagerImplementation.cpp:728-733 | n retries wait F(n + 4) - 3 in all |
| RetryBackoff.WaitFitsIff | PackageManager/PackageManagerImplementation.h:189-192 | the wait fits a 32-bit int iff j is at most 44 |
| Downloads.Download | PackageManager/PackageManagerImplementation.cpp:727-764 | at most the requested attempts, or two if none were requested; none after a success or a 404 or a cancelled wait; Fibonacci waits; a download failure iff the last attempt met an HTTP error or a 404, a disk failure iff a disk error otherwise |
| Downloads.PushKeepsQueue | PackageManager/PackageManagerImplementation.cpp:203-218 | a request keeps the queue ordered: priority first and newest first, then the others oldest first |
| Downloads.TakeKeepsQueue | PackageManager/PackageManagerImplementation.cpp:817-826 | taking the front keeps order and balance |
| Downloads.TakesTheFirst | PackageManager/PackageManagerImplementation.cpp:817-826 | what is taken was queued and comes before all that stay |
| Downloads.IssuedIsSomewhere | PackageManager/PackageManagerImplementation.cpp:197-221 | every issued download is in exactly one of queue, progress and finished |
| Downloads.IdsAreDistinct | PackageManager/PackageManagerImplementation.cpp:208 | ids coincide only 2^32 downloads apart |
| Downloads.PackageDownloader.Request | PackageManager/PackageManagerImplementation.cpp:197-221 | the queue and the counter after a request |
| Downloads.PackageDownloader.GetNext | PackageManager/PackageManagerImplementation.cpp:817-826 | the front becomes the download in progress iff there is none |
| Downloads.PackageDownloader.Reset | PackageManager/PackageManagerImplementation.cpp:764-765 | the download in progress is finished |
| Downloads.EveryInterleaving | PackageManager/PackageManagerImplementation.cpp:718-768 | order, balance and the sleep condition in every interleaving of clients and worker |
| Downloads.QueueIsFair | PackageManager/PackageManagerImplementation.cpp:197-221 | in every interleaving the next download comes before all queued ones, and none is lost or repeated |
| Downloads.WakeupIsLostIff | PackageManager/PackageManagerImplementation.cpp:720-725 | the worker sleeps on a non-empty queue, or through a stop, iff it came between its last look and its wait |
| Downloads.WakeupCanBeLost | PackageManager/PackageManagerImplementation.cpp:720-725 | a run in which the worker sleeps on a download |
| Downloads.StopCanBeLost | PackageManager/PackageManagerImplementation.cpp:720-725 | a run in which the worker sleeps on although it was told to stop |
| PackageLocks.CalledPackageStaysOk | PackageManager/PackageManagerImplementation.cpp:541-678 | one Lock or Unlock that does not overflow the count keeps counts and session of its package |
| PackageLocks.OverflowLosesCount | PackageManager/PackageManagerImplementation.cpp:557-560 | one that does is granted and leaves the package at count zero, with 2^32 locks granted that were not given back |
| PackageLocks.OtherPackageStaysOk | PackageManager/PackageManagerImplementation.cpp:551-553 | and does not touch the others |
| PackageLocks.CountsBalanceIff | PackageManager/PackageManagerImplementation.cpp:541-678 | after every call of a run the count is locks granted less unlocks accepted, and library locks less library unlocks is 1 iff the count is positive, iff no lock of the run overflows the count |
| PackageLocks.HoldersAgree | PackageManager/PackageManagerImplementation.cpp:558-590 | locks granted without a library unlock between them saw the same path and configuration |
| PackageLocks.GrantIsLibrarys | PackageManager/PackageManagerImplementation.cpp:557-590 | in every run without overflow each granted lock answers with the path and configuration of the successful library lock, at or before it, that no library unlock has followed |
| PackageLocks.AnswerIff | PackageManager/PackageManagerImplementation.cpp:541-678 | in every run without overflow each call's answer, lock id and use of the library are decided by the number of holders before it and the library's answer |
| PackageLocks.StoredIsWritten | PackageManager/PackageManagerImplementation.cpp:562-590 | in every run the stored path and configuration are what the library wrote last, the path empty once the package is given back |
| PackageLocks.PackageHandler.LockPackage | PackageManager/PackageManagerImplementation.cpp:541-600 | Lock on the stored state, including a failed library lock that still overwrites path and configuration |
| PackageLocks.PackageHandler.UnlockPackage | PackageManager/PackageManagerImplementation.cpp:648-678 | Unlock on the stored state, which drops the count even if the library fails |
| UserIds.GetKeepsPartition | RuntimeManager/UserIdManager.cpp:25-47 | handing out an id keeps the partition of 30001..31000 |
| UserIds.ClearKeepsPartition | RuntimeManager/UserIdManager.cpp:49-59 | so does giving one back |
| UserIds.RunKeepsPartition | RuntimeManager/UserIdManager.cpp:6-59 | in every run pool and assigned ids partition the range without repeats, and four stay in the pool |
| UserIds.RefusedIff | RuntimeManager/UserIdManager.cpp:25-47 | zero is returned iff the application has no id and 996 others do; otherwise its own, stable, unshared id |
| UserIds.PoolIsFifo | RuntimeManager/UserIdManager.cpp:42-57 | pool followed by returns equals issues followed by pool, in order |
| UserIds.ReissuedLast | RuntimeManager/UserIdManager.cpp:35-57 | an id given back is reissued only after all of the at least four ids then in the pool |
| UserIds.UserIdManager.constructor | RuntimeManager/UserIdManager.cpp:6-23 | the loop fills the pool with 30001 to 31000 in order |
| UserIds.UserIdManager.GetUserId | RuntimeManager/UserIdManager.cpp:25-47 | pool and map after a request |
| UserIds.UserIdManager.ClearUserId | RuntimeManager/UserIdManager.cpp:49-59 | pool and map after a release |
| Observers.StepKeepsConnection | MessageControl/MessageControl.h:163-277 | every step keeps each connection's protocol |
| Observers.CallsAlternate | MessageControl/MessageControl.h:217-277 | in every interleaving the calls for a connection alternate from Attach on, and outside a call the attached ids are those observing or detaching |
| Observers.JobEndsSettled | MessageControl/MessageControl.h:240-277 | when the job ends, attached ids, table and live connections are the same set |
| Observers.JobMakesProgress | MessageControl/MessageControl.h:246-274 | left alone the job settles one connection per call and can always go on |
| Observers.Observer.ConnectionActivated | MessageControl/MessageControl.h:163-184 | the table after an announcement |
| Observers.Observer.Drop | MessageControl/MessageControl.h:217-238 | the table after a drop |
| Observers.Observer.Scan | MessageControl/MessageControl.h:247-274 | the inner loop settles the first entry that needs a call, and finds none only if all are observing |
| CpuCores.OnesBits | RuntimeManager/DobbySpecGenerator.cpp:492 | (1 << n) - 1 has exactly the lowest n bits |
| CpuCores.Cores | RuntimeManager/DobbySpecGenerator.cpp:491-508 | the enabled cores, strictly increasing: the configured ones of the machine, or all if none is |
| CpuCores.ParseReadsPrint | RuntimeManager/DobbySpecGenerator.cpp:499-514 | every non-empty printed list parses back to itself |
| CpuCores.StreamIsPrint | RuntimeManager/DobbySpecGenerator.cpp:509-512 | dropping the last comma of the stream leaves the list |
| CpuCores.PrintIsNumberList | RuntimeManager/DobbySpecGenerator.cpp:499-514 | a printed list holds decimal numbers without leading zeros, separated by single commas, and nothing else |
| CpuCores.GetCpuCores | RuntimeManager/DobbySpecGenerator.cpp:488-515 | for 1 to 31 processors and any mask: a list of plain numbers that parses to the configured cores of the machine, or to all of them if none is configured |
| CpuCores.Masked | RuntimeManager/DobbySpecGenerator.cpp:490-497 | the mask in effect |

## Left out

- Use after deletion: an unloaded context leaves the list (LifecycleManager/LifecycleManagerImplementation.cpp:583-584) but keeps its last value in the model, so requests and callers that still point to it act on that value.
- SetTargetAppState, UnloadApp, KillApp, CloseApp: only their effect on the kill flag and the queue (a client step); target state, intent, session and time fields are dropped.
- TransitionSystem: each access to the list of applications, and a handler between its start, its wait and its end, is one step; data races inside those are not modelled.
- TransitionPasses.PassIsDrainAll: requires the contexts of the queued requests to be in the list still, since events for others find no context.
- Containers.OutOfStepIffLapsed: for runs in which the runtime manager reports what is so at that moment; a late report, or a container that dies by itself, parts the two without the worker's doing.
- Error-reason texts, navigation intents, time stamps and logging.
- Enabling and disabling of display rendering on resume and suspend, whose result no state depends on.
- Null entries of the request queue, which no caller creates.
- Transition requests' shortest paths: the search promises a path, not a short one.
- LifecycleObjects.ApplicationContext.Wait: the event comes if it is waited for; TransitionSystem covers the wait that does not end.
- Monitor.MonitorObject.Retrigger: requires that the slot reached is below the sentinel 2^64 - 1, because beyond it the 64-bit slot wraps and the loop starts over; MonitorObjects.Dispatch asks the same of its due objects.
- Monitor.MonitorObject.constructor: takes periods already in microseconds; the overflow of the conversion from seconds is not modelled. The first slot is a clock reading, below the sentinel.
- Monitor measurements themselves (minimum, average, maximum) and the JSON around them.
- MonitorRuns.RatesKeepTime: for an object that stays active with a live source through the run.
- Changing the restart limits between failures: OutcomesFromFreshWindow is about one fixed limit.
- RetryBackoff.Rounded: exact real arithmetic, because floating-point rounding is far below the distance to the next half; waits beyond the 44th retry overflow the source's int, which WaitFitsIff delimits.
- Downloads.Download: pausing, resuming, rate limits and progress; cancellation is an arbitrary answer per wait.
- Downloads.EveryInterleaving: the unlocked accesses to the download in progress by Pause, Resume and Cancel.
- Install, Uninstall, list and configuration queries of the package manager; builds without the package library.
- Observers: an empty table counts as settled, since the source reads the first entry without a check; the dispatch job does not overlap itself; clean-up of message files is not modelled.
- CpuCores.GetCpuCores: requires fewer than 32 processors, because the source shifts a 32-bit word by the processor count.
- Plugin plumbing, JSON-RPC, notification registration, reference counting, the other services of the repository.
