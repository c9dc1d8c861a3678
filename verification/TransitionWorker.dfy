/**
 * What holds in every system that any interleaving of the worker, its clients, its
 * terminator and the managers' events can reach.
 */
module TransitionWorker {
  import opened Common
  import opened TransitionSearch
  import opened Lifecycle
  import opened LifecycleHistory
  import opened TransitionSystem
  import opened TransitionInvariants

  // ------------------------------------------------- wake-ups and order

  /** No lost wake-up: when the worker is blocked for good and no client is between
      push and post, nothing is queued or the head failed on its latest attempt. */
  lemma NoLostWakeup(s: System)
    requires Reachable(s)
    ensures s.worker == Blocked && s.sem == 0 && !SomePosting(s) ==>
      s.queue == [] || (HeadFailed(s) && s.tries[|s.tries| - 1].index == s.completed)
  {
    EveryInterleaving(s);
    hide CoreInv, ClientInv;
  }

  /** One drain pass to start with, and at most one more per post; at most one begins
      after sRunning has been cleared. */
  lemma PassesAreBounded(s: System)
    requires Reachable(s)
    ensures s.passes <= 1 + s.posts && s.latePasses <= 1
  {
    EveryInterleaving(s);
    hide CoreInv, ClientInv;
  }

  function Successes(tries: seq<Try>): nat {
    if tries == [] then 0
    else Successes(tries[..|tries| - 1]) + if tries[|tries| - 1].ok then 1 else 0
  }

  lemma TryFollows(tries: seq<Try>, submitted: nat, k: nat)
    requires TriesInOrder(tries, submitted) && k < |tries|
    ensures tries[k].index == if k == 0 then 0 else After(tries[k - 1])
  {
    assert TryInOrder(tries, k);
  }

  lemma {:induction false} SuccessesAreIndices(tries: seq<Try>, submitted: nat, k: nat)
    requires TriesInOrder(tries, submitted) && k <= |tries|
    ensures Successes(tries[..k]) == if k == 0 then 0 else After(tries[k - 1])
  {
    hide TriesInOrder;
    if k > 0 {
      SuccessesAreIndices(tries, submitted, k - 1);
      TryFollows(tries, submitted, k - 1);
      assert tries[..k][..k - 1] == tries[..k - 1];
    }
  }

  lemma TriesCountSuccesses(s: System)
    requires QueueInv(s)
    ensures Successes(s.tries) == s.completed
    ensures forall k :: 0 <= k < |s.tries| ==> s.tries[k].index == Successes(s.tries[..k])
  {
    SuccessesAreIndices(s.tries, |s.submitted|, |s.tries|);
    assert s.tries[..|s.tries|] == s.tries;
    forall k | 0 <= k < |s.tries|
      ensures s.tries[k].index == Successes(s.tries[..k])
    {
      SuccessesAreIndices(s.tries, |s.submitted|, k);
      assert TryInOrder(s.tries, k);
    }
  }

  /** Requests are tried in submission order, each until it succeeds, and none is lost:
      the k-th attempt is at the request after those that succeeded before it. */
  lemma ServedInSubmissionOrder(s: System)
    requires Reachable(s)
    ensures s.completed <= |s.submitted|
    ensures s.submitted == s.submitted[..s.completed] + s.queue
    ensures Successes(s.tries) == s.completed
    ensures forall k :: 0 <= k < |s.tries| ==> s.tries[k].index == Successes(s.tries[..k])
  {
    EveryInterleaving(s);
    hide CoreInv, ClientInv, WakeInv, StopInv;
    TriesCountSuccesses(s);
  }

  // ------------------------------------------------- when the worker cannot move

  /** The worker waits in a handler for an event that has not come. */
  predicate StuckInHandler(s: System) {
    && s.worker.InHandler? && s.worker.handle < |s.engine.contexts|
    && Posts(s.engine.contexts[s.worker.handle], s.worker.signal) == 0
  }

  ghost predicate CanMove(s: System) {
    exists a :: WorkerStep(a) && Enabled(s, a)
  }

  const SOME_REPLY := Reply(true, true, (call: Call) => true, true, "0")

  lemma EnabledMoves(s: System, a: Step)
    requires WorkerStep(a) && Enabled(s, a)
    ensures CanMove(s)
  {
    hide Enabled;
  }

  /** In a walk the worker is kept only by an event that has not come. */
  lemma WalkMovesIff(s: System)
    requires WalkInv(s) && Busy(s.worker).Some?
    ensures CanMove(s) <==> !StuckInHandler(s)
  {
    hide LegalPath, WaitsFor;
    if s.worker.Walking? {
      EnabledMoves(s, WorkerAdvance(SOME_REPLY));
    } else if !StuckInHandler(s) {
      EnabledMoves(s, WorkerResume);
    }
  }

  lemma IdleMovesIff(s: System)
    requires Busy(s.worker) == None
    ensures CanMove(s) <==> s.worker != Finished && (s.worker == Blocked ==> s.sem > 0)
  {
    match s.worker
    case Starting => EnabledMoves(s, WorkerStart);
    case Entering => EnabledMoves(s, WorkerLock);
    case Draining => EnabledMoves(s, if s.queue == [] then WorkerDrained else WorkerPick);
    case Blocked =>
      if s.sem > 0 {
        EnabledMoves(s, WorkerWake);
      }
    case Rechecking => EnabledMoves(s, WorkerRecheck);
    case Finished =>
  }

  /** The worker can always move, but for when it has finished, when it waits for a post of
      the request semaphore, and when it waits in a handler for an event. */
  lemma CannotMoveIff(s: System)
    requires Reachable(s)
    ensures !CanMove(s) <==> s.worker == Finished || (s.worker == Blocked && s.sem == 0) || StuckInHandler(s)
  {
    EveryInterleaving(s);
    hide QueueInv, WakeInv, StopInv, ClientInv, EngineInv, WalkInv, CanMove;
    if Busy(s.worker) == None {
      IdleMovesIff(s);
    } else {
      WalkMovesIff(s);
    }
  }

  /** terminate() waits for a worker that cannot move exactly when the worker waits in a
      handler for an event that has not come. */
  lemma JoinIsStuckIff(s: System)
    requires Reachable(s) && s.terminator == Joining
    ensures s.worker != Finished && !CanMove(s) <==> StuckInHandler(s)
  {
    CannotMoveIff(s);
    EveryInterleaving(s);
    hide CoreInv, ClientInv, QueueInv, WakeInv, CanMove;
  }

  lemma AdvanceBlocksIff(s: System, reply: Reply)
    requires Enabled(s, WorkerAdvance(reply))
    ensures var s' := Advanced(s, reply);
      var b := Begin(s.engine.contexts[s.worker.handle], s.engine.count, s.worker.path[s.worker.index], reply);
      s'.worker == Blocked && s'.queue == s.queue && s'.tries == s.tries + [Try(s.completed, false)]
      <==> b.progress == Fails
  {
    hide Begin;
  }

  lemma BeginFailsIff(ctx: Context, count: nat, next: LifecycleState, reply: Reply)
    ensures Begin(ctx, count, next, reply).progress == Fails <==> Handle(ctx, next, reply).progress == Fails
    ensures Handle(ctx, next, reply).progress == Fails <==>
      match next
      case Unloaded => false
      case Loading => false
      case Initializing => !reply.runtime
      case Paused => ctx.state != Initializing && ctx.state != Active && (ctx.state != Suspended || !reply.runtime)
      case Active => reply.window && !reply.succeeds(RenderReady)
      case Suspended => !reply.runtime || !reply.succeeds(if ctx.state == Hibernated then Wake else Suspend)
      case Hibernated => !reply.runtime || !reply.succeeds(Hibernate)
      case Terminating => !reply.runtime || !reply.succeeds(if ctx.force then Kill else Terminate)
  {
    HandlerFailsIff(ctx, next, reply);
    HandlerFailsIff(ctx.(changeId := count), next, reply);
    hide Handle, Finish;
  }

  lemma PausedComesFrom(from: LifecycleState, next: LifecycleState)
    requires Legal(from, next)
    ensures next == Paused ==> from == Initializing || from == Active || from == Suspended
  {
  }

  /** A handler fails the request, and ends the pass, by exactly the steps in which a manager it
      needs is missing or refuses the one command whose result it looks at. */
  lemma HandlerFailsRequestIff(s: System, reply: Reply)
    requires Reachable(s) && Enabled(s, WorkerAdvance(reply))
    ensures var s' := Apply(s, WorkerAdvance(reply));
      var from, next := s.engine.contexts[s.worker.handle].state, s.worker.path[s.worker.index];
      s'.worker == Blocked && s'.queue == s.queue && s'.tries == s.tries + [Try(s.completed, false)] <==>
        match next
        case Initializing => !reply.runtime
        case Paused => from == Suspended && !reply.runtime
        case Active => reply.window && !reply.succeeds(RenderReady)
        case Suspended => !reply.runtime || !reply.succeeds(if from == Hibernated then Wake else Suspend)
        case Hibernated => !reply.runtime || !reply.succeeds(Hibernate)
        case Terminating =>
          !reply.runtime || !reply.succeeds(if s.engine.contexts[s.worker.handle].force then Kill else Terminate)
        case _ => false
  {
    EveryInterleaving(s);
    hide QueueInv, WakeInv, StopInv, CoreInv, ClientInv, Handle, LegalPath, OnPath, EngineInv, Advanced;
    WalksLegally(s);
    var ctx, next := s.engine.contexts[s.worker.handle], s.worker.path[s.worker.index];
    AdvanceBlocksIff(s, reply);
    BeginFailsIff(ctx, s.engine.count, next, reply);
    PausedComesFrom(ctx.state, next);
  }

  /** The worker comes to wait in a handler by exactly the steps that enter INITIALIZING with a
      runtime manager, ACTIVE before the first frame that the window manager says is yet to
      come, or TERMINATING with a command that succeeds. */
  lemma EntersHandlerIff(s: System, a: Step)
    requires Enabled(s, a) && !s.worker.InHandler?
    ensures Apply(s, a).worker.InHandler? <==>
      a.WorkerAdvance?
      && var ctx, next, reply := s.engine.contexts[s.worker.handle], s.worker.path[s.worker.index], a.reply;
         || (next == Initializing && reply.runtime)
         || (next == Active && reply.window && reply.succeeds(RenderReady) && !reply.rendered)
         || (next == Terminating && reply.runtime && reply.succeeds(if ctx.force then Kill else Terminate))
  {
    if a.WorkerAdvance? {
      var ctx, next := s.engine.contexts[s.worker.handle], s.worker.path[s.worker.index];
      HandlerWaitsIff(ctx, next, a.reply);
      HandlerWaitsIff(ctx.(changeId := s.engine.count), next, a.reply);
      hide Handle, Finish;
    } else {
      hide Search, FullPath, Find, Without;
    }
  }

  /** Whoever waits for the request mutex keeps waiting: clients about to push a request, and
      a terminate() that has not begun. */
  predicate StillWaiting(s: System, s': System) {
    && s'.worker == s.worker && s'.queue == s.queue && s'.submitted == s.submitted && s'.running == s.running
    && forall t :: t in s.callers && s.callers[t].Submitting? ==> t in s'.callers && s'.callers[t] == s.callers[t]
  }

  lemma StuckStepHoldsAll(s: System, a: Step)
    requires StuckInHandler(s) && Enabled(s, a) && a != Report(s.worker.handle, s.worker.signal)
    ensures StuckInHandler(Apply(s, a)) && StillWaiting(s, Apply(s, a))
  {
    hide Find, Without;
  }

  /** While the event does not come the worker stays in the handler, no request is submitted,
      and every addRequest caller and terminate() itself stay before the mutex, whatever
      else happens. */
  lemma {:induction false} StuckHandlerHoldsAll(s: System, steps: seq<Step>)
    requires StuckInHandler(s) && ExecFrom(s, steps).Some?
    requires forall k :: 0 <= k < |steps| ==> steps[k] != Report(s.worker.handle, s.worker.signal)
    ensures var s' := ExecFrom(s, steps).value; StuckInHandler(s') && StillWaiting(s, s')
  {
    hide Enabled, Apply;
    if steps != [] {
      var front := steps[..|steps| - 1];
      StuckHandlerHoldsAll(s, front);
      StuckStepHoldsAll(ExecFrom(s, front).value, steps[|steps| - 1]);
    }
  }

  /** A rank in two parts: the work left in the queue, and the path left in the request. */
  function Remaining(s: System): (nat, int) {
    match s.worker
    case Starting => (1, 0)
    case Entering => (2 * |s.queue| + 5, 0)
    case Draining => (2 * |s.queue| + 4, 0)
    case Walking(h, path, i) => (2 * |s.queue| + 3, 2 * (|path| - i) + 1)
    case InHandler(h, path, i, signal) => (2 * |s.queue| + 3, 2 * (|path| - i))
    case Blocked => (2, 0)
    case Rechecking => (1, 0)
    case Finished => (0, 0)
  }

  /** The second part falls no further than zero, so the two together are well-founded. */
  lemma RemainingIsRank(s: System)
    requires Reachable(s)
    ensures Remaining(s).1 >= 0
  {
    EveryInterleaving(s);
    hide QueueInv, WakeInv, StopInv, ClientInv, EngineInv, LegalPath;
  }

  predicate Lower(a: (nat, int), b: (nat, int)) {
    a.0 < b.0 || (a.0 == b.0 && a.1 < b.1)
  }

  lemma AttemptLowersRemaining(s: System, a: Step)
    requires Enabled(s, a) && MayAttempt(a) && (a.WorkerPick? ==> s.worker == Draining)
    ensures Lower(Remaining(Apply(s, a)), Remaining(s))
  {
    hide Search, FullPath, Begin, Began, Ended;
  }

  lemma WorkerLowersRemaining(s: System, a: Step)
    requires !s.running && Enabled(s, a) && WorkerStep(a) && !MayAttempt(a)
    ensures Lower(Remaining(Apply(s, a)), Remaining(s))
  {
  }

  lemma OthersKeepRemaining(s: System, a: Step)
    requires !s.running && Enabled(s, a) && !WorkerStep(a)
    ensures Remaining(Apply(s, a)) == Remaining(s) || (a.Push? && s.worker == Entering)
  {
    hide Find, Without;
  }

  lemma StepLowersRemaining(s: System, a: Step)
    requires !s.running && Enabled(s, a)
    ensures WorkerStep(a) ==> Lower(Remaining(Apply(s, a)), Remaining(s))
    ensures !WorkerStep(a) ==> Remaining(Apply(s, a)) == Remaining(s) || (a.Push? && s.worker == Entering)
  {
    if MayAttempt(a) {
      AttemptLowersRemaining(s, a);
    } else if WorkerStep(a) {
      WorkerLowersRemaining(s, a);
    } else {
      OthersKeepRemaining(s, a);
    }
    hide Apply, Remaining;
  }

  /** Once sRunning is cleared the worker winds down: every step of its own lowers the rank,
      nothing else raises it but a push before the last pass, and unless it waits in a handler
      for an event, or for the post that terminate() is about to make, it has a step to take. */
  lemma WorkerWindsDown(s: System)
    requires Reachable(s) && !s.running
    ensures forall a :: Enabled(s, a) && WorkerStep(a) ==> Lower(Remaining(Apply(s, a)), Remaining(s))
    ensures forall a :: Enabled(s, a) && !WorkerStep(a) ==>
              Remaining(Apply(s, a)) == Remaining(s) || (a.Push? && s.worker == Entering)
    ensures s.worker == Finished || CanMove(s) || StuckInHandler(s) || s.terminator == Cleared
    ensures Remaining(s).1 >= 0
  {
    RemainingIsRank(s);
    forall a | Enabled(s, a)
      ensures WorkerStep(a) ==> Lower(Remaining(Apply(s, a)), Remaining(s))
      ensures !WorkerStep(a) ==> Remaining(Apply(s, a)) == Remaining(s) || (a.Push? && s.worker == Entering)
    {
      StepLowersRemaining(s, a);
    }
    hide Enabled, Apply, Remaining, WorkerStep, CanMove;
    CannotMoveIff(s);
    EveryInterleaving(s);
    hide CoreInv, ClientInv, QueueInv, WakeInv;
  }

  // ------------------------------------------------- histories

  /** At every moment ids are consecutive over all contexts, and every context that the worker
      is not in the middle of replays. */
  lemma EveryInterleavingReplays(s: System)
    requires Reachable(s)
    ensures Consecutive(s.engine)
    ensures forall h :: 0 <= h < |s.engine.contexts| && Busy(s.worker) != Some(h) ==> Replays(s.engine, h)
  {
    EveryInterleaving(s);
    hide QueueInv, WakeInv, StopInv, ClientInv, WalkInv, Replays;
    forall h | 0 <= h < |s.engine.contexts| && Busy(s.worker) != Some(h)
      ensures Replays(s.engine, h)
    {
      RestingReplays(s.engine, h, Busy(s.worker), PendingOf(s));
    }
  }

  /** The events of a context are a plain chain from UNLOADED to the state it rests in exactly
      when no TERMINATING handler of it has failed. */
  lemma PlainChainIffNoneRefused(s: System, h: nat)
    requires Reachable(s) && h < |s.engine.contexts| && Busy(s.worker) != Some(h)
    ensures PlainChain(Of(s.engine.events, h), s.engine.contexts[h].state) <==> h !in s.engine.refused
  {
    EveryInterleavingReplays(s);
  }

  lemma AdvanceRefuses(s: System, reply: Reply)
    requires Enabled(s, WorkerAdvance(reply))
    ensures var h, next := s.worker.handle, s.worker.path[s.worker.index];
      var b := Begin(s.engine.contexts[h], s.engine.count, next, reply);
      Advanced(s, reply).engine.refused
      == s.engine.refused + (if next == Terminating && b.progress == Fails then [h] else [])
  {
    hide Begin;
  }

  lemma OthersRefuseNothing(s: System, a: Step)
    requires Enabled(s, a) && !a.WorkerAdvance?
    ensures Apply(s, a).engine.refused == s.engine.refused
  {
    if a.WorkerPick? {
      PickedKeepsEngine(s);
    }
    hide Picked, Finish, Find, Without;
  }

  /** A refusal is recorded by, and only by, the step in which a TERMINATING handler fails:
      there is no runtime manager, or it refuses the command that the kill flag selects. */
  lemma RefusalIsAFailedTermination(s: System, a: Step)
    requires Enabled(s, a)
    ensures Apply(s, a).engine.refused
         == if a.WorkerAdvance? && s.worker.path[s.worker.index] == Terminating
               && (!a.reply.runtime
                   || !a.reply.succeeds(if s.engine.contexts[s.worker.handle].force then Kill else Terminate))
            then s.engine.refused + [s.worker.handle]
            else s.engine.refused
  {
    if a.WorkerAdvance? {
      TerminationFailsIff(s.engine.contexts[s.worker.handle], s.engine.count, a.reply);
      AdvanceRefuses(s, a.reply);
      hide Begin, Advanced;
    } else {
      OthersRefuseNothing(s, a);
      hide Apply;
    }
  }

  /** Under every interleaving an attempt at a request succeeds exactly when it leaves the
      context where the request asked it to be. */
  lemma AttemptSucceedsIffArrived(s: System, a: Step)
    requires Reachable(s) && Enabled(s, a)
    ensures EndsRight(s, Apply(s, a))
  {
    EveryInterleaving(s);
    hide Inv, Enabled, Apply, EndsRight;
    StepKeepsInv(s, a);
  }

  // ------------------------------------------------- what SpawnApp returns

  /** SpawnApp returns an empty instance id exactly when the context it found, or made, has
      never reached LOADING at the moment it reads. */
  lemma ReadIdIsEmptyIff(s: System, t: nat)
    requires Reachable(s) && Enabled(s, ReadId(t))
    ensures Apply(s, ReadId(t)).callers[t].instanceId == "" <==> NeverLoaded(s.engine, s.callers[t].handle)
    ensures s.callers[t].kind == FirstSpawn ==> !NeverLoaded(s.engine, s.callers[t].handle)
  {
    EveryInterleaving(s);
    var h := s.callers[t].handle;
    assert CallerOk(s, s.callers[t]);
    hide QueueInv, WakeInv, StopInv, WalkInv, EngineInv, NeverLoaded;
    IdSetIff(s.engine, h, Busy(s.worker), PendingOf(s));
    NeverLoadedIff(s.engine, h, Busy(s.worker), PendingOf(s));
  }

  /** So a first-launch SpawnApp, also one of an application unloaded before, returns a set
      instance id. */
  lemma SpawnReturnsId(s: System, t: nat)
    requires Reachable(s) && t in s.callers && s.callers[t].Returned? && s.callers[t].kind == FirstSpawn
    ensures s.callers[t].instanceId != ""
  {
    EveryInterleaving(s);
    hide QueueInv, WakeInv, StopInv, CoreInv;
    assert CallerOk(s, s.callers[t]);
  }

  /** A context of application `app` is in the list. */
  ghost predicate IsLoaded(s: System, app: AppId) {
    exists h :: h in s.loaded && h < |s.engine.contexts| && s.engine.contexts[h].appId == app
  }

  /** A SpawnApp that is about to create a context makes a second one for its id exactly when
      another is loaded that has been created since its own look-up or, for the empty id,
      which no look-up finds, at any time. */
  lemma SecondContextIff(s: System, t: nat)
    requires Reachable(s) && Enabled(s, Create(t))
    ensures var c := s.callers[t];
      IsLoaded(s, c.app)
      <==> exists h :: h in s.loaded && (c.app == "" || c.seen <= h) && h < |s.engine.contexts|
                       && s.engine.contexts[h].appId == c.app
  {
    EveryInterleaving(s);
    hide QueueInv, WakeInv, StopInv, CoreInv;
    assert CallerOk(s, s.callers[t]);
  }

  /** A SpawnApp whose application has been unloaded finds no context and is a first launch. */
  lemma RelaunchIsFirst(s: System, t: nat, app: AppId, target: LifecycleState)
    requires Reachable(s) && Enabled(s, LookUp(t, app, target))
    ensures Apply(s, LookUp(t, app, target)).callers[t].Creating? <==> app == "" || !IsLoaded(s, app)
  {
    var p := Find(s.engine.contexts, s.loaded, app, 0);
    if p == |s.loaded| && IsLoaded(s, app) {
      var h :| h in s.loaded && h < |s.engine.contexts| && s.engine.contexts[h].appId == app;
      var j :| 0 <= j < |s.loaded| && s.loaded[j] == h;
    } else if p < |s.loaded| {
      assert s.loaded[p] in s.loaded;
    }
  }

  lemma {:induction false} FirstWith(contexts: seq<Context>, loaded: seq<nat>, id: string) returns (p: nat)
    requires forall j :: 0 <= j < |loaded| ==> loaded[j] < |contexts|
    ensures p <= |loaded| && forall j :: 0 <= j < p ==> contexts[loaded[j]].instanceId != id
    ensures if p == |loaded| then Without(contexts, loaded, id) == loaded
            else contexts[loaded[p]].instanceId == id && Without(contexts, loaded, id) == loaded[..p] + loaded[p + 1..]
  {
    p := 0;
    if loaded != [] && contexts[loaded[0]].instanceId != id {
      var q := FirstWith(contexts, loaded[1..], id);
      p := q + 1;
      assert loaded == [loaded[0]] + loaded[1..];
    }
  }

  /** An UNLOADED that is handled takes the first context with its instance id off the list, and
      no other. */
  lemma UnloadRemovesFirst(s: System, k: nat) returns (p: nat)
    requires Enabled(s, Unload(k))
    ensures var id, loaded' := s.engine.events[k].instanceId, Apply(s, Unload(k)).loaded;
      && p <= |s.loaded|
      && (forall j :: 0 <= j < p ==> s.engine.contexts[s.loaded[j]].instanceId != id)
      && (if p == |s.loaded| then loaded' == s.loaded
          else s.engine.contexts[s.loaded[p]].instanceId == id && loaded' == s.loaded[..p] + s.loaded[p + 1..])
  {
    p := FirstWith(s.engine.contexts, s.loaded, s.engine.events[k].instanceId);
  }

  // ------------------------------------------------- a head that cannot succeed

  /** The request can never succeed where its context stands. */
  ghost predicate Hopeless(e: Engine, r: Request) {
    && r.handle < |e.contexts|
    && var state := e.contexts[r.handle].state;
       state != r.target && !Search(TRANSITIONS, state, r.target, []).found
  }

  /** The head is hopeless, and the worker is not in the middle of anything. */
  ghost predicate StuckHead(s: System) {
    s.queue != [] && Hopeless(s.engine, s.queue[0]) && Busy(s.worker) == None
  }

  lemma PickStaysStuck(s: System)
    requires StuckHead(s) && Enabled(s, WorkerPick)
    ensures Picked(s) == Attempted(s, false)
  {
    hide Search, FullPath;
  }

  lemma StepKeepsStuck(s: System, a: Step)
    requires StuckHead(s) && Enabled(s, a)
    ensures StuckHead(Apply(s, a)) && Apply(s, a).completed == s.completed && Apply(s, a).queue[0] == s.queue[0]
  {
    if a.WorkerPick? {
      PickStaysStuck(s);
      hide Picked, Search;
    } else {
      QuietKeepsStates(s, a);
      hide Apply, Search;
      var s' := Apply(s, a);
      assert s'.queue[0] == s.queue[0];
    }
  }

  lemma StuckHeadHasQueue(s: System)
    requires StuckHead(s)
    ensures s.queue != []
  {
  }

  /** Because a failed head stays, a request that can never succeed stops every request
      behind it, whatever the threads do from then on. */
  lemma {:induction false} StuckHeadBlocksForever(s: System, steps: seq<Step>)
    requires StuckHead(s) && ExecFrom(s, steps).Some?
    ensures var s' := ExecFrom(s, steps).value;
      StuckHead(s') && s'.completed == s.completed && s'.queue[0] == s.queue[0]
  {
    hide Enabled, Apply, StuckHead;
    if steps != [] {
      StuckHeadBlocksForever(s, steps[..|steps| - 1]);
      StuckHeadHasQueue(ExecFrom(s, steps[..|steps| - 1]).value);
      StepKeepsStuck(ExecFrom(s, steps[..|steps| - 1]).value, steps[|steps| - 1]);
    }
  }
}
