/**
 * What every step of worker, clients, terminator and events keeps.
 */
module TransitionInvariants {
  import opened Common
  import opened TransitionSearch
  import opened Lifecycle
  import opened LifecycleHistory
  import opened TransitionSystem

  // ------------------------------------------------- order and conservation

  predicate HeadFailed(s: System) {
    s.tries != [] && !s.tries[|s.tries| - 1].ok
  }

  function After(t: Try): nat { if t.ok then t.index + 1 else t.index }

  predicate TryInOrder(tries: seq<Try>, k: nat)
    requires k < |tries|
  {
    tries[k].index == if k == 0 then 0 else After(tries[k - 1])
  }

  /** Every attempt is at the first request not completed before it. */
  predicate TriesInOrder(tries: seq<Try>, submitted: nat) {
    forall k :: 0 <= k < |tries| ==> TryInOrder(tries, k) && tries[k].index < submitted
  }

  lemma TriesAppend(tries: seq<Try>, submitted: nat, last: Try)
    requires TriesInOrder(tries, submitted) && last.index < submitted
    requires last.index == if tries == [] then 0 else After(tries[|tries| - 1])
    ensures TriesInOrder(tries + [last], submitted)
  {
    forall k | 0 <= k < |tries|
      ensures TryInOrder(tries + [last], k)
    {
      assert TryInOrder(tries, k);
    }
  }

  /** The queue is the submitted sequence minus its completed prefix. */
  predicate QueueInv(s: System) {
    && s.completed <= |s.submitted|
    && s.queue == s.submitted[s.completed..]
    && s.completed == (if s.tries == [] then 0 else After(s.tries[|s.tries| - 1]))
    && TriesInOrder(s.tries, |s.submitted|)
  }

  lemma AttemptKeepsQueue(s: System, ok: bool)
    requires QueueInv(s) && s.queue != []
    ensures QueueInv(Attempted(s, ok))
  {
    TriesAppend(s.tries, |s.submitted|, Try(s.completed, ok));
    assert s.submitted[s.completed..][1..] == s.submitted[s.completed + 1..];
  }

  /** The three steps that can end a request. */
  predicate MayAttempt(a: Step) {
    a.WorkerPick? || a.WorkerAdvance? || a.WorkerResume?
  }

  /** Such a step leaves the bookkeeping of worker and clients alone, or records an attempt. */
  predicate Keeps(s: System, s': System) {
    s' == s.(engine := s'.engine, worker := s'.worker)
  }

  lemma AttemptOrKeep(s: System, a: Step)
    requires Enabled(s, a) && MayAttempt(a)
    ensures var s' := Apply(s, a);
      || (Keeps(s, s') && (s'.worker.Walking? || s'.worker.InHandler?))
      || s' == Attempted(s.(engine := s'.engine), true)
      || s' == Attempted(s.(engine := s'.engine), false)
  {
    hide Search, FullPath, Begin, Began, Ended;
  }

  lemma StepsInPass(s: System, a: Step)
    requires Enabled(s, a) && MayAttempt(a)
    ensures InPass(s.worker) && s.queue != []
  {
  }

  lemma SameQueue(s: System, t: System)
    requires QueueInv(s)
    requires t.submitted == s.submitted && t.completed == s.completed && t.queue == s.queue && t.tries == s.tries
    ensures QueueInv(t)
  {
  }

  lemma AttemptStepKeepsQueue(s: System, a: Step)
    requires QueueInv(s) && Enabled(s, a) && MayAttempt(a)
    ensures QueueInv(Apply(s, a))
  {
    hide Apply, Enabled, QueueInv, Attempted;
    AttemptOrKeep(s, a);
    StepsInPass(s, a);
    var s' := Apply(s, a);
    var t := s.(engine := s'.engine);
    SameQueue(s, t);
    AttemptKeepsQueue(t, true);
    AttemptKeepsQueue(t, false);
    if Keeps(s, s') {
      SameQueue(s, s');
    }
  }

  lemma QuietStepKeepsQueue(s: System, a: Step)
    requires QueueInv(s) && Enabled(s, a) && !MayAttempt(a)
    ensures QueueInv(Apply(s, a))
  {
    hide TryInOrder, Find, Without;
    var s' := Apply(s, a);
    if a.Push? {
      assert s'.submitted[s'.completed..] == s.submitted[s.completed..] + [s.callers[a.t].request];
    } else {
      assert s'.queue == s.queue && s'.tries == s.tries && s'.submitted == s.submitted && s'.completed == s.completed;
    }
  }

  lemma StepKeepsQueue(s: System, a: Step)
    requires QueueInv(s) && Enabled(s, a)
    ensures QueueInv(Apply(s, a))
  {
    hide Apply, Enabled, QueueInv;
    if MayAttempt(a) {
      AttemptStepKeepsQueue(s, a);
    } else {
      QuietStepKeepsQueue(s, a);
    }
  }

  /** A step that ends no request leaves the queued requests, and the states of all contexts. */
  lemma QuietKeepsStates(s: System, a: Step)
    requires Enabled(s, a) && !MayAttempt(a)
    ensures var s' := Apply(s, a);
      && s.queue <= s'.queue && (InPass(s.worker) ==> s'.queue == s.queue) && s'.completed == s.completed
      && |s'.engine.contexts| >= |s.engine.contexts|
      && (forall h :: 0 <= h < |s.engine.contexts| ==> s'.engine.contexts[h].state == s.engine.contexts[h].state)
      && ((s.worker.Walking? || s.worker.InHandler?) ==> s'.worker == s.worker)
      && (s'.worker.Walking? || s'.worker.InHandler? ==> s'.worker == s.worker)
      && (s.worker == Draining ==> s'.worker == s.worker || (s.queue == [] && s'.worker == Blocked))
  {
    hide Find, Without;
  }

  // ------------------------------------------------- wake-ups

  ghost predicate SomePosting(s: System) {
    exists t :: t in s.callers && s.callers[t].Posting?
  }

  ghost predicate WakeInv(s: System) {
    && s.posts == s.sem + s.waits
    && s.passes == s.waits + (if InPass(s.worker) || s.worker == Blocked then 1 else 0)
    && (s.worker == Starting ==> s.waits == 0)
    && (s.worker == Blocked && s.queue != [] && !HeadFailed(s) ==> s.sem > 0 || SomePosting(s))
  }

  lemma AttemptStepKeepsWake(s: System, a: Step)
    requires WakeInv(s) && Enabled(s, a) && MayAttempt(a)
    ensures WakeInv(Apply(s, a))
  {
    AttemptOrKeep(s, a);
    StepsInPass(s, a);
    hide Apply, Enabled;
  }

  lemma PostingStays(s: System, a: Step)
    requires Enabled(s, a) && !MayAttempt(a)
    requires SomePosting(s) || a.Push?
    ensures SomePosting(Apply(s, a)) || a.Post?
  {
    hide Find, Without;
    var s' := Apply(s, a);
    if a.Push? {
      assert a.t in s'.callers && s'.callers[a.t].Posting?;
    } else {
      var t :| t in s.callers && s.callers[t].Posting?;
      assert a.Post? || (t in s'.callers && s'.callers[t].Posting?);
    }
  }

  lemma QuietStepKeepsWake(s: System, a: Step)
    requires WakeInv(s) && Enabled(s, a) && !MayAttempt(a)
    ensures WakeInv(Apply(s, a))
  {
    if SomePosting(s) || a.Push? {
      PostingStays(s, a);
    }
    hide SomePosting, Find, Without;
  }

  lemma StepKeepsWake(s: System, a: Step)
    requires WakeInv(s) && Enabled(s, a)
    ensures WakeInv(Apply(s, a))
  {
    hide Apply, Enabled, WakeInv;
    if MayAttempt(a) {
      AttemptStepKeepsWake(s, a);
    } else {
      QuietStepKeepsWake(s, a);
    }
  }

  // ------------------------------------------------- termination

  predicate StopInv(s: System) {
    && (s.running <==> s.terminator == Idle)
    && (s.running ==> s.latePasses == 0)
    && (s.worker in {Starting, Entering} ==> s.latePasses == 0)
    && s.latePasses <= 1
    && (s.terminator == Joining && s.worker !in {Rechecking, Finished} ==> s.sem > 0)
    && (s.terminator == Joined ==> s.worker == Finished)
    && (s.worker == Finished ==> !s.running)
  }

  lemma AttemptStepKeepsStop(s: System, a: Step)
    requires StopInv(s) && Enabled(s, a) && MayAttempt(a)
    ensures StopInv(Apply(s, a))
  {
    AttemptOrKeep(s, a);
    StepsInPass(s, a);
    hide Apply, Enabled;
  }

  lemma QuietStepKeepsStop(s: System, a: Step)
    requires StopInv(s) && Enabled(s, a) && !MayAttempt(a)
    ensures StopInv(Apply(s, a))
  {
    hide Find, Without;
  }

  lemma StepKeepsStop(s: System, a: Step)
    requires StopInv(s) && Enabled(s, a)
    ensures StopInv(Apply(s, a))
  {
    hide Apply, Enabled, StopInv;
    if MayAttempt(a) {
      AttemptStepKeepsStop(s, a);
    } else {
      QuietStepKeepsStop(s, a);
    }
  }

  // ------------------------------------------------- the walk and the histories

  function Busy(w: Worker): Option<nat> {
    if w.Walking? || w.InHandler? then Some(w.handle) else None
  }

  function PendingOf(s: System): nat {
    match s.worker
    case Walking(h, path, i) => if h < |s.engine.contexts| then PendingAt(s.engine.contexts[h].state) else 0
    case InHandler(h, path, i, signal) => if i < |path| then PendingAt(path[i]) else 0
    case _ => 0
  }

  /** Where a request for `target` is to end. */
  function Destination(target: LifecycleState): LifecycleState {
    if target == Terminating then Unloaded else target
  }

  /** The worker is on a legal path to the head's target, at the state before `path[i]`. */
  ghost predicate OnPath(s: System, h: nat, path: seq<LifecycleState>, i: nat) {
    && h < |s.engine.contexts|
    && s.queue != [] && s.queue[0].handle == h
    && LegalPath(path) && 1 <= i < |path|
    && s.engine.contexts[h].state == path[i - 1]
    && path[|path| - 1] == Destination(s.queue[0].target)
    && forall j :: 0 <= j < |path| - 1 && path[j] == path[|path| - 1] ==> path[j] == Unloaded
  }

  ghost predicate WalkInv(s: System) {
    match s.worker
    case Walking(h, path, i) => OnPath(s, h, path, i)
    case InHandler(h, path, i, signal) =>
      && OnPath(s, h, path, i)
      && WaitsFor(path[i], signal)
      && (path[i] == Terminating ==>
            AnnouncedTermination(Of(s.engine.events, h), |Of(s.engine.events, h)|))
    case _ => true
  }

  ghost predicate CoreInv(s: System) {
    && EngineInv(s.engine, Busy(s.worker), PendingOf(s))
    && WalkInv(s)
    && forall k :: 0 <= k < |s.engine.refused| ==> s.engine.refused[k] < |s.engine.contexts|
  }

  /** What the invariant says of a context while the worker walks it. */
  lemma WalksLegally(s: System)
    requires CoreInv(s) && s.worker.Walking?
    ensures var h, path, i := s.worker.handle, s.worker.path, s.worker.index;
      && h < |s.engine.contexts| && s.queue != [] && s.queue[0].handle == h
      && LegalPath(path) && 1 <= i < |path| && OnPath(s, h, path, i)
      && s.engine.contexts[h].handle == h && s.engine.contexts[h].state == path[i - 1]
      && Legal(path[i - 1], path[i])
      && EngineInv(s.engine, Some(h), PendingAt(path[i - 1]))
  {
    assert ContextOk(s.engine, s.worker.handle, Busy(s.worker), PendingOf(s));
    hide Record, Legal, Linked, Standing;
  }

  /** The attempt that a step ends, if any, with the state its context is left in. */
  ghost predicate EndsRight(s: System, s': System) {
    s'.tries == s.tries
    || (&& |s'.tries| == |s.tries| + 1
        && s.queue != [] && s.queue[0].handle < |s'.engine.contexts|
        && (s'.tries[|s.tries|].ok
            <==> s'.engine.contexts[s.queue[0].handle].state == Destination(s.queue[0].target)))
  }

  lemma PathEndsRight(start: LifecycleState, target: LifecycleState)
    requires start != target && start != Terminating && Search(TRANSITIONS, start, target, []).found
    ensures var path := FullPath(start, target);
      && LegalPath(path) && path[0] == start
      && path[|path| - 1] == Destination(target)
      && forall j :: 0 <= j < |path| - 1 && path[j] == path[|path| - 1] ==> path[j] == Unloaded
  {
    FullPathIsLegal(start, target);
    FullPathIsSimple(start, target);
    hide Search, FullPath, LegalPath, Reaches, NoRepeats;
  }

  lemma WalkBegins(s: System)
    requires CoreInv(s) && Enabled(s, WorkerPick) && s.queue[0].handle < |s.engine.contexts|
    requires var start := s.engine.contexts[s.queue[0].handle].state;
      && start != s.queue[0].target && start != Terminating
      && Search(TRANSITIONS, start, s.queue[0].target, []).found
    ensures CoreInv(Picked(s)) && Picked(s).tries == s.tries
  {
    var r := s.queue[0];
    var start := s.engine.contexts[r.handle].state;
    BusyChanges(s.engine, r.handle);
    PathEndsRight(start, r.target);
    hide EngineInv, Search, FullPath, Legal, Destination;
  }

  lemma PickKeepsCore(s: System)
    requires CoreInv(s) && Enabled(s, WorkerPick) && s.queue[0].handle < |s.engine.contexts|
    ensures CoreInv(Picked(s)) && EndsRight(s, Picked(s))
  {
    var r := s.queue[0];
    var start := s.engine.contexts[r.handle].state;
    assert ContextOk(s.engine, r.handle, None, 0);
    RequestIsAcceptedIff(start, r.target);
    hide EngineInv, ContextOk, Search, FullPath, LegalPath;
    if start != r.target && Search(TRANSITIONS, start, r.target, []).found {
      WalkBegins(s);
      hide Picked, CoreInv;
    }
  }

  /** After an iteration that has arrived the worker goes on, or the request has ended right. */
  lemma ProceedKeepsCore(s: System, e: Engine, h: nat, path: seq<LifecycleState>, i: nat)
    requires OnPath(s, h, path, i) && |e.contexts| == |s.engine.contexts|
    requires EngineInv(e, Some(h), PendingAt(e.contexts[h].state)) && e.contexts[h].state == path[i]
    requires forall k :: 0 <= k < |e.refused| ==> e.refused[k] < |e.contexts|
    ensures var s' := Proceed(s.(engine := e), h, path, i + 1); CoreInv(s') && EndsRight(s, s')
  {
    hide EngineInv, Legal;
    if i + 1 == |path| {
      BusyChanges(e, h);
    }
  }

  lemma BeganRefuses(e: Engine, h: nat, next: LifecycleState, reply: Reply)
    requires h < |e.contexts| && forall k :: 0 <= k < |e.refused| ==> e.refused[k] < |e.contexts|
    ensures var e' := Began(e, h, next, reply); forall k :: 0 <= k < |e'.refused| ==> e'.refused[k] < |e'.contexts|
  {
    hide Begin;
  }

  lemma FailsBeforeUnloaded(ctx: Context, count: nat, next: LifecycleState, reply: Reply)
    requires Legal(ctx.state, next)
    ensures Begin(ctx, count, next, reply).progress == Fails ==> ctx.state != Unloaded && next != Unloaded
  {
    HandleOutcome(ctx, next, reply);
    HandleOutcome(ctx.(changeId := count), next, reply);
    hide Handle;
  }

  lemma AdvanceKeepsCore(s: System, reply: Reply)
    requires CoreInv(s) && Enabled(s, WorkerAdvance(reply))
    ensures var s' := Advanced(s, reply); CoreInv(s') && EndsRight(s, s')
  {
    hide Begin, Began, EngineInv, Legal, LegalPath, Proceed, WaitsFor;
    var h, path, i := s.worker.handle, s.worker.path, s.worker.index;
    WalksLegally(s);
    BeganKeepsInv(s.engine, h, path[i], reply);
    BeganRefuses(s.engine, h, path[i], reply);
    var e := Began(s.engine, h, path[i], reply);
    FailsBeforeUnloaded(s.engine.contexts[h], s.engine.count, path[i], reply);
    match Begin(s.engine.contexts[h], s.engine.count, path[i], reply).progress
    case Fails => BusyChanges(e, h);
    case Succeeds => ProceedKeepsCore(s, e, h, path, i);
    case Waits(signal) =>
  }

  lemma ResumeKeepsCore(s: System)
    requires CoreInv(s) && Enabled(s, WorkerResume)
    ensures CoreInv(Resumed(s)) && EndsRight(s, Resumed(s))
  {
    var h, path, i := s.worker.handle, s.worker.path, s.worker.index;
    assert Legal(path[i - 1], path[i]);
    var ctx := s.engine.contexts[h];
    var taken := Touched(s.engine, h, Taken(ctx, s.worker.signal));
    TouchKeepsInv(s.engine, h, Taken(ctx, s.worker.signal), Some(h), PendingOf(s));
    EndedKeepsInv(taken, h, path[i]);
    hide EngineInv, Legal, Finish;
    ProceedKeepsCore(s, Ended(taken, h, path[i]), h, path, i);
  }

  /** A context touched from outside stays as it was for the worker. */
  lemma OutsideKeepsCore(s: System, s': System, h: nat, c: Context)
    requires CoreInv(s) && h < |s.engine.contexts|
    requires s'.engine == Touched(s.engine, h, c) && s'.worker == s.worker && s'.queue == s.queue
    requires SameRecord(s.engine.contexts[h].(force := c.force), c)
    requires c.loadingPosts <= s.engine.contexts[h].loadingPosts
    ensures CoreInv(s')
  {
    TouchKeepsInv(s.engine, h, c, Busy(s.worker), PendingOf(s));
    hide EngineInv;
  }

  lemma CreateKeepsCore(s: System, s': System, app: AppId)
    requires CoreInv(s) && s'.engine == LifecycleHistory.Create(s.engine, app)
    requires s'.worker == s.worker && s'.queue == s.queue
    ensures CoreInv(s')
  {
    CreateKeepsInv(s.engine, app, Busy(s.worker), PendingOf(s));
    hide EngineInv;
  }

  /** Nothing that concerns the worker's walk or the engine has changed. */
  lemma SameCore(s: System, s': System)
    requires CoreInv(s) && s'.engine == s.engine
    requires (s'.worker == s.worker && s.queue <= s'.queue) || Busy(s.worker) == None == Busy(s'.worker)
    ensures CoreInv(s')
  {
    hide EngineInv;
  }

  /** The head's context exists. */
  ghost predicate HeadOk(s: System) {
    s.queue != [] ==> s.queue[0].handle < |s.engine.contexts|
  }

  lemma NoAttempt(s: System, s': System)
    requires s'.tries == s.tries
    ensures EndsRight(s, s')
  {
  }

  lemma StepKeepsCore(s: System, a: Step)
    requires CoreInv(s) && HeadOk(s) && Enabled(s, a)
    ensures CoreInv(Apply(s, a)) && EndsRight(s, Apply(s, a))
  {
    hide CoreInv, EndsRight, Picked, Advanced, Resumed, Find, Without;
    var s' := Apply(s, a);
    match a
    case WorkerPick => PickKeepsCore(s);
    case WorkerAdvance(reply) => AdvanceKeepsCore(s, reply);
    case WorkerResume => ResumeKeepsCore(s);
    case Create(t) => CreateKeepsCore(s, s', s.callers[t].app); NoAttempt(s, s');
    case BeginOther(t, h, target, force) =>
      if force.Some? {
        OutsideKeepsCore(s, s', h, s.engine.contexts[h].(force := force.value));
      } else {
        SameCore(s, s');
      }
      NoAttempt(s, s');
    case TakeLoad(t) =>
      var h := s.callers[t].handle;
      OutsideKeepsCore(s, s', h, s'.engine.contexts[h]);
      NoAttempt(s, s');
    case Report(h, signal) =>
      OutsideKeepsCore(s, s', h, Signalled(s.engine.contexts[h], signal));
      NoAttempt(s, s');
    case _ => SameCore(s, s'); NoAttempt(s, s');
  }

  // ------------------------------------------------- clients and the list

  ghost predicate CallerOk(s: System, c: Caller) {
    var n := |s.engine.contexts|;
    match c
    case Creating(app, target, seen) =>
      seen <= n && forall h :: h in s.loaded && h < n && app != "" && s.engine.contexts[h].appId == app ==> seen <= h
    case Submitting(request, kind) => request.handle < n
    case Posting(request, kind) => request.handle < n
    case AwaitingLoad(h) => h < n
    case Reading(h, kind) => h < n && (kind == FirstSpawn ==> s.engine.contexts[h].instanceId != "")
    case Returned(id, kind) => kind == FirstSpawn ==> id != ""
  }

  ghost predicate ClientInv(s: System) {
    && LoadedExist(s)
    && (forall t :: t in s.callers ==> CallerOk(s, s.callers[t]))
    && (forall k :: 0 <= k < |s.submitted| ==> s.submitted[k].handle < |s.engine.contexts|)
  }

  /** No step forgets a context, changes its application id, or clears an instance id. */
  ghost predicate Grows(e: Engine, e': Engine) {
    && |e.contexts| <= |e'.contexts|
    && forall h :: 0 <= h < |e.contexts| ==>
         && e'.contexts[h].appId == e.contexts[h].appId
         && (e.contexts[h].instanceId != "" ==> e'.contexts[h].instanceId != "")
  }

  lemma PutGrows(e: Engine, h: nat, c: Context, count: nat, events: seq<Event>, failed: bool)
    requires h < |e.contexts| && c.appId == e.contexts[h].appId
    requires e.contexts[h].instanceId != "" ==> c.instanceId != ""
    ensures Grows(e, PutOrRefuse(e, h, c, count, events, failed))
  {
  }

  lemma BeganGrows(e: Engine, h: nat, next: LifecycleState, reply: Reply)
    requires h < |e.contexts| && Legal(e.contexts[h].state, next)
    ensures Grows(e, Began(e, h, next, reply))
  {
    var ctx := e.contexts[h];
    HandleOutcome(ctx, next, reply);
    HandleOutcome(ctx.(changeId := e.count), next, reply);
    hide Handle, Legal;
    var b := Begin(ctx, e.count, next, reply);
    PutGrows(e, h, b.ctx, b.count, b.events, next == Terminating && b.progress == Fails);
  }

  lemma ResumedGrows(s: System)
    requires Enabled(s, WorkerResume)
    ensures Grows(s.engine, Resumed(s).engine)
  {
    var h := s.worker.handle;
    var taken := Touched(s.engine, h, Taken(s.engine.contexts[h], s.worker.signal));
    var r := Finish(taken.contexts[h], taken.count, s.worker.path[s.worker.index]);
    assert Ended(taken, h, s.worker.path[s.worker.index]) == Put(taken, h, r.ctx, r.count, r.events);
  }

  lemma PickedKeepsEngine(s: System)
    requires s.queue != []
    ensures Picked(s).engine == s.engine
  {
    hide Search, FullPath;
  }

  lemma AdvancedGrows(s: System, reply: Reply)
    requires CoreInv(s) && Enabled(s, WorkerAdvance(reply))
    ensures Grows(s.engine, Advanced(s, reply).engine)
  {
    WalksLegally(s);
    hide CoreInv, Legal, LegalPath, EngineInv, OnPath, Began, Begin, Grows;
    BeganGrows(s.engine, s.worker.handle, s.worker.path[s.worker.index], reply);
  }

  lemma QuietGrows(s: System, a: Step)
    requires Enabled(s, a) && !MayAttempt(a)
    ensures Grows(s.engine, Apply(s, a).engine)
  {
    hide Find, Without;
  }

  lemma StepGrows(s: System, a: Step)
    requires CoreInv(s) && Enabled(s, a)
    ensures Grows(s.engine, Apply(s, a).engine)
  {
    match a
    case WorkerAdvance(reply) => AdvancedGrows(s, reply); hide Advanced, Grows, CoreInv;
    case WorkerResume => ResumedGrows(s); hide Resumed, Grows, CoreInv;
    case WorkerPick => PickedKeepsEngine(s); hide Picked, CoreInv;
    case _ => QuietGrows(s, a); hide Apply, Grows, CoreInv;
  }

  /** A caller that does not move stays right when the engine grows and the list only
      loses contexts or gains new ones. */
  lemma CallerStaysOk(s: System, s': System, c: Caller)
    requires CallerOk(s, c) && LoadedExist(s) && Grows(s.engine, s'.engine)
    requires forall h :: h in s'.loaded ==> h in s.loaded || h >= |s.engine.contexts|
    ensures CallerOk(s', c)
  {
  }

  /** The list loses contexts or gains the newest one. */
  lemma ListSteps(s: System, a: Step)
    requires LoadedExist(s) && Enabled(s, a)
    ensures var s' := Apply(s, a);
      forall h :: h in s'.loaded ==> h in s.loaded || h == |s.engine.contexts| < |s'.engine.contexts|
  {
    hide Search, FullPath, Begin, Began, Ended, Find;
    if MayAttempt(a) {
      AttemptOrKeep(s, a);
    }
  }

  lemma LoadedStillExist(s: System, s': System)
    requires LoadedExist(s) && |s.engine.contexts| <= |s'.engine.contexts|
    requires forall h :: h in s'.loaded ==> h in s.loaded || h == |s.engine.contexts| < |s'.engine.contexts|
    ensures LoadedExist(s')
  {
    forall j | 0 <= j < |s'.loaded|
      ensures s'.loaded[j] < |s'.engine.contexts|
    {
      assert s'.loaded[j] in s'.loaded;
    }
  }

  /** The callers and submissions after a step, other than by the caller `t` that moves. */
  lemma OthersStayOk(s: System, a: Step, t: nat, c: Caller)
    requires ClientInv(s) && CoreInv(s) && Enabled(s, a)
    requires Apply(s, a).callers == s.callers[t := c] && CallerOk(Apply(s, a), c)
    requires Apply(s, a).submitted == s.submitted
      || (CallerOk(Apply(s, a), c) && c.Posting? && Apply(s, a).submitted == s.submitted + [c.request])
    ensures ClientInv(Apply(s, a))
  {
    var s' := Apply(s, a);
    StepGrows(s, a);
    ListSteps(s, a);
    hide Apply, Enabled, CoreInv;
    LoadedStillExist(s, s');
    forall u | u in s'.callers
      ensures CallerOk(s', s'.callers[u])
    {
      if u != t {
        CallerStaysOk(s, s', s.callers[u]);
      }
    }
  }

  /** No caller moves. */
  lemma AllStayOk(s: System, a: Step)
    requires ClientInv(s) && CoreInv(s) && Enabled(s, a)
    requires Apply(s, a).callers == s.callers && Apply(s, a).submitted == s.submitted
    ensures ClientInv(Apply(s, a))
  {
    var s' := Apply(s, a);
    StepGrows(s, a);
    ListSteps(s, a);
    hide Apply, Enabled, CoreInv;
    LoadedStillExist(s, s');
    forall u | u in s'.callers
      ensures CallerOk(s', s'.callers[u])
    {
      CallerStaysOk(s, s', s.callers[u]);
    }
  }

  lemma LookUpIsOk(s: System, t: nat, app: AppId, target: LifecycleState)
    requires ClientInv(s) && Enabled(s, LookUp(t, app, target))
    ensures var s' := Apply(s, LookUp(t, app, target)); CallerOk(s', s'.callers[t])
  {
    var p := Find(s.engine.contexts, s.loaded, app, 0);
    if p == |s.loaded| && app != "" {
      forall h | h in s.loaded
        ensures s.engine.contexts[h].appId != app
      {
        var j :| 0 <= j < |s.loaded| && s.loaded[j] == h;
      }
    }
  }

  lemma StepKeepsClients(s: System, a: Step)
    requires ClientInv(s) && CoreInv(s) && Enabled(s, a)
    ensures ClientInv(Apply(s, a))
  {
    var s' := Apply(s, a);
    if MayAttempt(a) {
      AttemptOrKeep(s, a);
      AllStayOk(s, a);
    } else {
      match a
      case LookUp(t, app, target) =>
        LookUpIsOk(s, t, app, target);
        OthersStayOk(s, a, t, s'.callers[t]);
      case Create(t) => OthersStayOk(s, a, t, s'.callers[t]);
      case BeginOther(t, h, target, force) => OthersStayOk(s, a, t, s'.callers[t]);
      case Push(t) =>
        assert CallerOk(s, s.callers[t]);
        OthersStayOk(s, a, t, s'.callers[t]);
      case Post(t) =>
        assert CallerOk(s, s.callers[t]);
        OthersStayOk(s, a, t, s'.callers[t]);
      case TakeLoad(t) =>
        IdSetIff(s.engine, s.callers[t].handle, Busy(s.worker), PendingOf(s));
        OthersStayOk(s, a, t, s'.callers[t]);
      case ReadId(t) =>
        assert CallerOk(s, s.callers[t]);
        OthersStayOk(s, a, t, s'.callers[t]);
      case _ => AllStayOk(s, a);
    }
  }

  // ------------------------------------------------- together

  ghost predicate Inv(s: System) {
    QueueInv(s) && WakeInv(s) && StopInv(s) && CoreInv(s) && ClientInv(s)
  }

  lemma HeadExists(s: System)
    requires QueueInv(s) && ClientInv(s)
    ensures HeadOk(s)
  {
    if s.queue != [] {
      assert s.queue[0] == s.submitted[s.completed];
    }
  }

  lemma StepKeepsInv(s: System, a: Step)
    requires Inv(s) && Enabled(s, a)
    ensures Inv(Apply(s, a)) && EndsRight(s, Apply(s, a))
  {
    hide Apply, Enabled, QueueInv, WakeInv, StopInv, CoreInv, ClientInv, HeadOk, EndsRight;
    HeadExists(s);
    StepKeepsQueue(s, a);
    StepKeepsWake(s, a);
    StepKeepsStop(s, a);
    StepKeepsCore(s, a);
    StepKeepsClients(s, a);
  }

  lemma InitialQueue()
    ensures QueueInv(INITIAL)
  {
  }

  lemma InitialWake()
    ensures WakeInv(INITIAL)
  {
  }

  lemma InitialStop()
    ensures StopInv(INITIAL)
  {
  }

  lemma InitialCore()
    ensures CoreInv(INITIAL)
  {
  }

  lemma InitialClients()
    ensures ClientInv(INITIAL)
  {
  }

  lemma InitialInv()
    ensures Inv(INITIAL)
  {
    hide QueueInv, WakeInv, StopInv, CoreInv, ClientInv;
    InitialQueue();
    InitialWake();
    InitialStop();
    InitialCore();
    InitialClients();
  }

  lemma {:induction false} RunKeepsInv(s: System, steps: seq<Step>)
    requires Inv(s) && ExecFrom(s, steps).Some?
    ensures Inv(ExecFrom(s, steps).value)
  {
    hide Inv, Apply, Enabled;
    if steps != [] {
      RunKeepsInv(s, steps[..|steps| - 1]);
      StepKeepsInv(ExecFrom(s, steps[..|steps| - 1]).value, steps[|steps| - 1]);
    }
  }

  /** Every system that can be reached, under every interleaving, keeps the invariant. */
  lemma EveryInterleaving(s: System)
    requires Reachable(s)
    ensures Inv(s)
  {
    hide Inv, Apply, Enabled;
    var steps :| ExecFrom(INITIAL, steps) == Some(s);
    InitialInv();
    RunKeepsInv(INITIAL, steps);
  }
}
