/**
 * Runs that show what the transition worker can come to: each theorem about when something
 * goes wrong has here a run in which it does.
 */
module TransitionWitnesses {
  import opened Common
  import opened TransitionSearch
  import opened Lifecycle
  import opened LifecycleHistory
  import opened TransitionSystem
  import opened TransitionInvariants
  import opened TransitionWorker
  import opened Containers

  // ------------------------------------------------- paths that the search finds

  lemma PathToInitializing()
    ensures Search(TRANSITIONS, Unloaded, Initializing, []).found
    ensures FullPath(Unloaded, Initializing) == [Unloaded, Loading, Initializing]
  {
    RequestIsAcceptedIff(Unloaded, Initializing);
    FullPathIsLegal(Unloaded, Initializing);
    FullPathIsSimple(Unloaded, Initializing);
    var p := FullPath(Unloaded, Initializing);
    assert Legal(p[0], p[1]) && p[1] == Loading;
    assert Legal(p[1], p[2]) && p[2] == Initializing;
  }

  /** The search goes into the first predecessor. */
  lemma SearchGoesFirst<S(!new)>(table: Table<S>, start: S, target: S, seen: seq<S>)
    requires target !in seen && start != target && target in table && table[target] != []
    requires table[target][0] !in seen + [target]
    ensures var r := Search(table, start, table[target][0], seen + [target]);
      r.found ==>
        var whole := Search(table, start, target, seen);
        whole.found && whole.path == r.path + [table[target][0]]
  {
    var marked := seen + [target];
    assert Search(table, start, target, seen) == Scan(table, start, table[target], marked);
  }

  lemma PathToSuspended()
    ensures Search(TRANSITIONS, Initializing, Suspended, []).found
    ensures FullPath(Initializing, Suspended) == [Initializing, Suspended]
  {
    SearchGoesFirst(TRANSITIONS, Initializing, Suspended, []);
  }

  lemma NoReturn(p: seq<LifecycleState>)
    requires |p| >= 2 && NoRepeats(p[..|p| - 1])
    ensures |p| > 3 ==> p[0] != p[2]
  {
  }

  lemma PathOutOfSuspended()
    ensures Search(TRANSITIONS, Suspended, Paused, []).found
    ensures FullPath(Suspended, Paused) == [Suspended, Paused]
  {
    hide Search, FullPath;
    RequestIsAcceptedIff(Suspended, Paused);
    RequestIsAcceptedIff(Terminating, Paused);
    SearchDecidesReachability(TRANSITIONS, Terminating, Paused);
    FullPathIsLegal(Suspended, Paused);
    FullPathIsSimple(Suspended, Paused);
    var p := FullPath(Suspended, Paused);
    assert Legal(p[0], p[1]);
    assert |p| > 2 ==> Legal(p[1], p[2]);
    NoReturn(p);
    assert p[1] == Paused;
  }

  lemma PathToTermination()
    ensures Search(TRANSITIONS, Initializing, Terminating, []).found
    ensures FullPath(Initializing, Terminating) == [Initializing, Paused, Terminating, Unloaded]
  {
    var marked: seq<LifecycleState> := [Terminating];
    assert [] + marked == marked;
    SearchGoesFirst(TRANSITIONS, Initializing, Paused, marked);
    SearchGoesFirst(TRANSITIONS, Initializing, Terminating, []);
  }

  // ------------------------------------------------- pieces of runs

  const APP: AppId := "app"

  const GOOD := Reply(true, true, (call: Call) => true, true, "0")

  function Refusing(c: Call): Reply {
    Reply(true, true, (call: Call) => call != c, true, "0")
  }

  lemma Take(s: System, a: Step) returns (s': System)
    requires Honest(s) && Enabled(s, a) && Truthful(s, a)
    ensures s' == Apply(s, a) && Honest(s')
  {
    HonestOn(s, a);
    s' := Apply(s, a);
  }

  /** One context, of which the worker knows nothing yet. */
  ghost predicate Launched(s: System, queue: seq<Request>) {
    && Honest(s)
    && s.engine == Engine([NewContext(0, APP)], 0, [], [])
    && s.loaded == [0] && s.queue == queue && s.worker == Starting && s.terminator == Idle && s.running
    && forall t :: t in s.callers ==> t < |queue|
  }

  lemma Launch(target: LifecycleState) returns (s: System)
    ensures Launched(s, [Request(0, target)])
    ensures s.callers == map[0 := Posting(Request(0, target), FirstSpawn)] && s.sem == 0
  {
    hide Honest;
    HonestAtFirst();
    s := Take(INITIAL, LookUp(0, APP, target));
    s := Take(s, Step.Create(0));
    s := Take(s, Push(0));
  }

  lemma AddRequest(before: System, queue: seq<Request>, target: LifecycleState) returns (s: System)
    requires Launched(before, queue)
    ensures Launched(s, queue + [Request(0, target)])
  {
    hide Honest;
    var t := |queue|;
    s := Take(before, LookUp(t, APP, target));
    s := Take(s, Push(t));
  }

  /** The worker at the loop over the queue, with the context where earlier requests left it. */
  ghost predicate AtLoop(s: System, ctx: Context, queue: seq<Request>) {
    && Honest(s) && s.worker == Draining && s.queue == queue
    && s.engine.contexts == [ctx] && s.engine.refused == [] && s.loaded == [0]
    && ctx.handle == 0
  }

  lemma BeginPass(before: System, queue: seq<Request>) returns (s: System)
    requires Launched(before, queue)
    ensures AtLoop(s, NewContext(0, APP), queue)
  {
    hide Honest;
    s := Take(before, WorkerStart);
    s := Take(s, WorkerLock);
  }

  /** The worker in the middle of the request at the head. */
  ghost predicate OnWay(s: System, ctx: Context, path: seq<LifecycleState>, i: nat, queue: seq<Request>) {
    && Honest(s) && s.worker == Walking(0, path, i) && s.queue == queue && queue != [] && i < |path|
    && s.engine.contexts == [ctx] && s.engine.refused == [] && s.loaded == [0]
    && ctx.handle == 0
  }

  lemma Pick(before: System, ctx: Context, queue: seq<Request>) returns (s: System)
    requires AtLoop(before, ctx, queue) && queue != [] && queue[0].handle == 0 && ctx.state != queue[0].target
    requires Search(TRANSITIONS, ctx.state, queue[0].target, []).found && |FullPath(ctx.state, queue[0].target)| > 1
    ensures OnWay(s, ctx, FullPath(ctx.state, queue[0].target), 1, queue) && s.terminator == before.terminator
  {
    hide Honest, Search, FullPath;
    s := Take(before, WorkerPick);
  }

  /** Where the worker is once an iteration has succeeded. */
  ghost predicate Past(s: System, ctx: Context, path: seq<LifecycleState>, i: nat, queue: seq<Request>) {
    if i < |path| then OnWay(s, ctx, path, i, queue) else queue != [] && AtLoop(s, ctx, queue[1..])
  }

  lemma StepAlong(
    before: System, ctx: Context, path: seq<LifecycleState>, i: nat, queue: seq<Request>, reply: Reply)
    returns (s: System, c: Context)
    requires OnWay(before, ctx, path, i, queue) && Legal(ctx.state, path[i])
    requires Handle(ctx, path[i], reply).progress == Succeeds
    ensures c == Handle(ctx, path[i], reply).ctx.(state := path[i], changeId := c.changeId)
    ensures Past(s, c, path, i + 1, queue) && s.terminator == before.terminator
  {
    HandleOutcome(ctx, path[i], reply);
    LegalMoves(ctx.state, path[i]);
    hide Honest, Handle, Legal;
    s := Take(before, WorkerAdvance(reply));
    c := s.engine.contexts[0];
  }

  /** The worker in a handler that waits. */
  ghost predicate Waiting(
    s: System, ctx: Context, path: seq<LifecycleState>, i: nat, queue: seq<Request>, signal: Signal)
  {
    && Honest(s) && s.worker == InHandler(0, path, i, signal) && s.queue == queue && queue != [] && i < |path|
    && s.engine.contexts == [ctx] && s.engine.refused == [] && s.loaded == [0]
    && ctx.handle == 0
  }

  lemma StepToWait(
    before: System, ctx: Context, path: seq<LifecycleState>, i: nat, queue: seq<Request>, reply: Reply,
    signal: Signal)
    returns (s: System, c: Context)
    requires OnWay(before, ctx, path, i, queue) && Legal(ctx.state, path[i])
    requires var started := if path[i] == Terminating then ctx.(changeId := before.engine.count) else ctx;
      Handle(started, path[i], reply).progress == Waits(signal)
    ensures c == Handle(ctx.(changeId := c.changeId), path[i], reply).ctx
    ensures Waiting(s, c, path, i, queue, signal) && s.terminator == before.terminator
  {
    var started := if path[i] == Terminating then ctx.(changeId := before.engine.count) else ctx;
    HandleOutcome(started, path[i], reply);
    LegalMoves(ctx.state, path[i]);
    hide Honest, Handle, Legal;
    s := Take(before, WorkerAdvance(reply));
    c := s.engine.contexts[0];
    assert ctx.(changeId := ctx.changeId) == ctx;
  }

  lemma Tell(
    before: System, ctx: Context, path: seq<LifecycleState>, i: nat, queue: seq<Request>, signal: Signal,
    told: Signal)
    returns (s: System)
    requires Waiting(before, ctx, path, i, queue, signal) && ctx.instanceId != ""
    requires told == signal == AppRunning || (told == AppTerminated && ctx.container == Absent)
    ensures Waiting(s, Signalled(ctx, told), path, i, queue, signal)
  {
    hide Honest;
    s := Take(before, Report(0, told));
  }

  lemma GoOn(
    before: System, ctx: Context, path: seq<LifecycleState>, i: nat, queue: seq<Request>, signal: Signal)
    returns (s: System, c: Context)
    requires Waiting(before, ctx, path, i, queue, signal) && Posts(ctx, signal) > 0
    ensures c == Taken(ctx, signal).(state := path[i], changeId := c.changeId)
    ensures Past(s, c, path, i + 1, queue)
  {
    hide Honest;
    s := Take(before, WorkerResume);
    c := s.engine.contexts[0];
  }

  /** A launch to INITIALIZING up to the wait that follows its run command. */
  lemma UpToRun(before: System, ctx: Context, queue: seq<Request>, reply: Reply) returns (s: System, c: Context)
    requires AtLoop(before, ctx, queue) && queue != [] && queue[0] == Request(0, Initializing) && ctx.state == Unloaded
    requires reply.runtime
    ensures Waiting(s, c, [Unloaded, Loading, Initializing], 2, queue, AppRunning)
    ensures s.terminator == before.terminator
    ensures c == Handle(ctx.(instanceId := "0", state := Loading, changeId := c.changeId,
                             loadingPosts := ctx.loadingPosts + 1), Initializing, reply).ctx
  {
    hide OnWay, Waiting, AtLoop, Search, FullPath;
    PathToInitializing();
    s := Pick(before, ctx, queue);
    s, c := StepAlong(s, ctx, [Unloaded, Loading, Initializing], 1, queue, GOOD);
    s, c := StepToWait(s, c, [Unloaded, Loading, Initializing], 2, queue, reply, AppRunning);
  }

  lemma InitializeOnce(before: System, ctx: Context, queue: seq<Request>, again: bool) returns (s: System, c: Context)
    requires AtLoop(before, ctx, queue) && queue != [] && queue[0] == Request(0, Initializing) && ctx.state == Unloaded
    requires ctx.running == 0
    ensures AtLoop(s, c, queue[1..])
    ensures c == ctx.(instanceId := "0", state := Initializing, changeId := c.changeId,
                      loadingPosts := ctx.loadingPosts + 1, running := if again then 1 else 0,
                      container := Running, lapsed := false)
  {
    s, c := UpToRun(before, ctx, queue, GOOD);
    s := Tell(s, c, [Unloaded, Loading, Initializing], 2, queue, AppRunning, AppRunning);
    c := Signalled(c, AppRunning);
    if again {
      s := Tell(s, c, [Unloaded, Loading, Initializing], 2, queue, AppRunning, AppRunning);
      c := Signalled(c, AppRunning);
    }
    s, c := GoOn(s, c, [Unloaded, Loading, Initializing], 2, queue, AppRunning);
  }

  /** A launch to INITIALIZING that succeeds; the "running" report may come twice. */
  lemma Initialized(queue: seq<Request>, before: System, again: bool) returns (s: System, c: Context)
    requires Launched(before, queue) && queue != [] && queue[0] == Request(0, Initializing)
    ensures AtLoop(s, c, queue[1..])
    ensures c == NewContext(0, APP).(instanceId := "0", state := Initializing, changeId := c.changeId,
                                     loadingPosts := 1, running := if again then 1 else 0, container := Running)
  {
    hide AtLoop, OnWay, Waiting, Launched;
    s := BeginPass(before, queue);
    s, c := InitializeOnce(s, NewContext(0, APP), queue, again);
  }

  // ------------------------------------------------- the runs

  /** terminate() comes between the worker's look at sRunning and its first pass. */
  lemma JoinsEarly() returns (s: System)
    ensures AtLoop(s, NewContext(0, APP), [Request(0, Initializing)]) && s.terminator == Joining
  {
    hide Honest;
    s := Launch(Initializing);
    s := Take(s, WorkerStart);
    s := Take(s, ClearRunning);
    s := Take(s, TerminatorPost);
    s := Take(s, WorkerLock);
  }

  /** terminate() can wait forever: the worker is in the handler of INITIALIZING, whose run
      command failed, and the "running" event that it waits for need never come. */
  lemma JoinCanBeStuck()
    ensures exists s :: Honest(s) && s.terminator == Joining && StuckInHandler(s) && !CanMove(s)
  {
    hide Honest, Reachable, CanMove, AtLoop;
    var s := JoinsEarly();
    var c;
    s, c := UpToRun(s, NewContext(0, APP), [Request(0, Initializing)], Refusing(Run));
    HonestIsReachable(s);
    CannotMoveIff(s);
  }

  lemma SuspendedNow(before: System, ctx: Context, queue: seq<Request>) returns (s: System, c: Context)
    requires AtLoop(before, ctx, queue) && queue != [] && queue[0] == Request(0, Suspended)
    requires ctx.state == Initializing
    ensures AtLoop(s, c, queue[1..])
    ensures c == ctx.(state := Suspended, changeId := c.changeId, container := Frozen, lapsed := false)
  {
    hide Honest, OnWay, AtLoop, Search, FullPath;
    PathToSuspended();
    s := Pick(before, ctx, queue);
    s, c := StepAlong(s, ctx, [Initializing, Suspended], 1, queue, GOOD);
  }

  lemma PausedUnresumed(before: System, ctx: Context, queue: seq<Request>) returns (s: System, c: Context)
    requires AtLoop(before, ctx, queue) && queue != [] && queue[0] == Request(0, Paused)
    requires ctx.state == Suspended
    ensures AtLoop(s, c, queue[1..])
    ensures c == ctx.(state := Paused, changeId := c.changeId, lapsed := true)
  {
    hide Honest, OnWay, AtLoop, Search, FullPath;
    PathOutOfSuspended();
    s := Pick(before, ctx, queue);
    s, c := StepAlong(s, ctx, [Suspended, Paused], 1, queue, Refusing(Resume));
  }

  lemma LaunchThree(second: LifecycleState, third: LifecycleState, again: bool)
    returns (s: System, c: Context)
    ensures AtLoop(s, c, [Request(0, second), Request(0, third)])
    ensures c == NewContext(0, APP).(instanceId := "0", state := Initializing, changeId := c.changeId,
                                     loadingPosts := 1, running := if again then 1 else 0, container := Running)
  {
    hide Launched, AtLoop;
    var queue := [Request(0, Initializing), Request(0, second), Request(0, third)];
    s := Launch(Initializing);
    assert queue == [Request(0, Initializing)] + [Request(0, second)] + [Request(0, third)];
    s := AddRequest(s, [Request(0, Initializing)], second);
    s := AddRequest(s, [Request(0, Initializing)] + [Request(0, second)], third);
    s, c := Initialized(queue, s, again);
    assert queue[1..] == [Request(0, second), Request(0, third)];
  }

  /** A resume that fails leaves PAUSED announced and the container frozen. */
  lemma ResumeCanFailUnnoticed()
    ensures exists s :: Honest(s) && s.engine.contexts != [] && Busy(s.worker) == None
              && s.engine.contexts[0].state == Paused && s.engine.contexts[0].container == Frozen
  {
    var s, c := LaunchThree(Suspended, Paused, false);
    var queue := [Request(0, Suspended), Request(0, Paused)];
    s, c := SuspendedNow(s, c, queue);
    s, c := PausedUnresumed(s, c, queue[1..]);
    hide Honest;
  }

  lemma UpToTerminating(before: System, ctx: Context, queue: seq<Request>) returns (s: System, c: Context)
    requires AtLoop(before, ctx, queue) && queue != [] && queue[0] == Request(0, Terminating)
    requires ctx.state == Initializing
    ensures OnWay(s, c, [Initializing, Paused, Terminating, Unloaded], 2, queue)
    ensures c == ctx.(state := Paused, changeId := c.changeId)
  {
    hide Honest;
    PathToTermination();
    s := Pick(before, ctx, queue);
    s, c := StepAlong(s, ctx, [Initializing, Paused, Terminating, Unloaded], 1, queue, GOOD);
  }

  lemma Terminated(before: System, ctx: Context, queue: seq<Request>) returns (s: System, c: Context)
    requires AtLoop(before, ctx, queue) && queue != [] && queue[0] == Request(0, Terminating)
    requires ctx.state == Initializing && ctx.instanceId != "" && ctx.terminated == 0
    ensures AtLoop(s, c, queue[1..])
    ensures c == ctx.(state := Unloaded, changeId := c.changeId, container := Absent, lapsed := false)
  {
    hide Honest;
    var path := [Initializing, Paused, Terminating, Unloaded];
    s, c := UpToTerminating(before, ctx, queue);
    s, c := StepToWait(s, c, path, 2, queue, GOOD, AppTerminated);
    s := Tell(s, c, path, 2, queue, AppTerminated, AppTerminated);
    c := Signalled(c, AppTerminated);
    s, c := GoOn(s, c, path, 2, queue, AppTerminated);
    s, c := StepAlong(s, c, path, 3, queue, GOOD);
  }

  /** A run that fails while a "running" post is left over leaves INITIALIZING announced
      and no container: the second launch of a context that was reported running twice. */
  lemma RunCanFailUnnoticed()
    ensures exists s :: Honest(s) && s.engine.contexts != [] && Busy(s.worker) == None
              && s.engine.contexts[0].state == Initializing && s.engine.contexts[0].container == Absent
  {
    hide Honest;
    var s, c := LaunchThree(Terminating, Initializing, true);
    var queue := [Request(0, Terminating), Request(0, Initializing)];
    s, c := Terminated(s, c, queue);
    s, c := UpToRun(s, c, queue[1..], Refusing(Run));
    s, c := GoOn(s, c, [Unloaded, Loading, Initializing], 2, queue[1..], AppRunning);
  }

  /** A termination that is refused leaves the announced TERMINATING without an UNLOADED, and
      the events of the context are no plain chain. */
  lemma TerminationCanBeRefused()
    ensures exists s :: Reachable(s) && s.engine.contexts != [] && Busy(s.worker) == None
              && s.engine.refused == [0] && !PlainChain(Of(s.engine.events, 0), s.engine.contexts[0].state)
  {
    hide Honest, PlainChain, Reachable;
    var queue := [Request(0, Initializing), Request(0, Terminating)];
    var s := Launch(Initializing);
    s := AddRequest(s, [Request(0, Initializing)], Terminating);
    assert s.queue == queue;
    var c;
    s, c := Initialized(queue, s, false);
    s, c := UpToTerminating(s, c, queue[1..]);
    s := Take(s, WorkerAdvance(Refusing(Terminate)));
    HonestIsReachable(s);
    PlainChainIffNoneRefused(s, 0);
  }

  /** A request for a state behind its context is a head that can never succeed. */
  lemma HeadCanBeStuck()
    ensures exists s :: Reachable(s) && StuckHead(s)
  {
    hide Honest, Reachable, Search;
    var queue := [Request(0, Initializing), Request(0, Loading)];
    var s := Launch(Initializing);
    s := AddRequest(s, [Request(0, Initializing)], Loading);
    assert s.queue == queue;
    var c;
    s, c := Initialized(queue, s, false);
    RequestIsAcceptedIff(Initializing, Loading);
    HonestIsReachable(s);
    assert StuckHead(s);
  }

  /** A SpawnApp that finds a context still on its way to LOADING returns an empty id. */
  lemma SpawnCanReturnNothing()
    ensures exists s :: Reachable(s) && exists t :: t in s.callers && s.callers[t] == Returned("", LaterSpawn)
  {
    hide Honest, Reachable;
    var s := Launch(Initializing);
    s := Take(s, LookUp(1, APP, Active));
    s := Take(s, Push(1));
    s := Take(s, Post(1));
    s := Take(s, ReadId(1));
    assert s.callers[1] == Returned("", LaterSpawn);
    HonestIsReachable(s);
  }

  /** Two overlapping SpawnApps of one application make two contexts for it. */
  lemma OneAppCanHaveTwoContexts()
    ensures exists s :: Reachable(s) && s.loaded == [0, 1] && |s.engine.contexts| == 2
              && s.engine.contexts[0].appId == s.engine.contexts[1].appId != ""
  {
    hide Honest, Reachable;
    HonestAtFirst();
    var s := Take(INITIAL, LookUp(0, APP, Active));
    s := Take(s, LookUp(1, APP, Active));
    s := Take(s, Step.Create(0));
    s := Take(s, Step.Create(1));
    HonestIsReachable(s);
  }

  /** A first launch to UNLOADED, served at once. */
  lemma LaunchToUnloaded() returns (s: System)
    ensures Honest(s) && s.engine == Engine([NewContext(0, APP)], 0, [], [])
    ensures s.worker == Draining && s.queue == [] && s.sem == 1 && s.running && s.callers == map[0 := AwaitingLoad(0)]
  {
    hide Honest;
    s := Launch(Unloaded);
    s := Take(s, Post(0));
    s := Take(s, WorkerStart);
    s := Take(s, WorkerLock);
    assert s.engine.contexts[0] == NewContext(0, APP) && s.queue == [Request(0, Unloaded)];
    s := Take(s, WorkerPick);
  }

  /** It reaches no LOADING, and its SpawnApp waits on while the worker has nothing left to do. */
  lemma LaunchToUnloadedWaits()
    ensures exists s :: Reachable(s) && s.worker == Blocked && s.queue == [] && s.sem == 0
              && 0 in s.callers && s.callers[0] == AwaitingLoad(0) && !Enabled(s, TakeLoad(0))
  {
    hide Honest, Reachable;
    var s := LaunchToUnloaded();
    s := Take(s, WorkerDrained);
    s := Take(s, WorkerWake);
    s := Take(s, WorkerRecheck);
    s := Take(s, WorkerLock);
    s := Take(s, WorkerDrained);
    HonestIsReachable(s);
  }
}
