/**
 * What becomes of a first-launch SpawnApp, which waits for its context to reach LOADING.
 */
module Launches {
  import opened Common
  import opened TransitionSearch
  import opened Lifecycle
  import opened LifecycleHistory
  import opened TransitionSystem
  import opened TransitionInvariants

  /** The context whose LOADING a first-launch caller has still to wait for. */
  function Awaits(c: Caller): Option<nat> {
    match c
    case Submitting(request, kind) => if kind == FirstSpawn then Some(request.handle) else None
    case Posting(request, kind) => if kind == FirstSpawn then Some(request.handle) else None
    case AwaitingLoad(h) => Some(h)
    case _ => None
  }

  /** No two callers wait for the same context. */
  ghost predicate OwnWaits(s: System) {
    forall t, u :: t in s.callers && u in s.callers && t != u && Awaits(s.callers[t]).Some? ==>
      Awaits(s.callers[t]) != Awaits(s.callers[u])
  }

  /** The post made on reaching LOADING has not been taken. */
  ghost predicate PostKept(e: Engine, h: nat) {
    h < |e.contexts| && (Of(e.events, h) != [] ==> e.contexts[h].loadingPosts > 0)
  }

  ghost predicate LaunchInv(s: System) {
    && OwnWaits(s)
    && forall t :: t in s.callers && Awaits(s.callers[t]).Some? ==> PostKept(s.engine, Awaits(s.callers[t]).value)
  }

  // ------------------------------------------------- the post of a context

  lemma BeginPosts(ctx: Context, count: nat, next: LifecycleState, reply: Reply)
    requires Legal(ctx.state, next)
    ensures Begin(ctx, count, next, reply).ctx.loadingPosts == ctx.loadingPosts + (if next == Loading then 1 else 0)
  {
    HandleOutcome(ctx, next, reply);
    HandleOutcome(ctx.(changeId := count), next, reply);
    hide Handle, Legal;
  }

  lemma FirstEventIsLoading(e: Engine, h: nat, busy: Option<nat>, pending: nat, next: LifecycleState)
    requires h < |e.contexts| && EngineInv(e, busy, pending) && Legal(e.contexts[h].state, next)
    ensures Of(e.events, h) == [] ==> next == Loading
  {
    assert ContextOk(e, h, busy, pending);
    hide Linked;
  }

  lemma PutKeepsPost(e: Engine, g: nat, c: Context, count: nat, events: seq<Event>, failed: bool, h: nat)
    requires g < |e.contexts| && PostKept(e, h) && Numbered(e.count, count, events, g)
    requires g == h && (Of(e.events, h) != [] || events != []) ==> c.loadingPosts > 0
    ensures PostKept(PutOrRefuse(e, g, c, count, events, failed), h)
  {
    OfPut(e.events, e.count, count, events, g, h);
    hide Numbered, Of;
  }

  lemma AdvanceKeepsPost(s: System, reply: Reply, h: nat)
    requires CoreInv(s) && Enabled(s, WorkerAdvance(reply)) && PostKept(s.engine, h)
    ensures PostKept(Advanced(s, reply).engine, h)
  {
    var g, next := s.worker.handle, s.worker.path[s.worker.index];
    var ctx := s.engine.contexts[g];
    assert Legal(s.worker.path[s.worker.index - 1], next);
    FirstEventIsLoading(s.engine, g, Busy(s.worker), PendingOf(s), next);
    BeginPosts(ctx, s.engine.count, next, reply);
    assert ContextOk(s.engine, g, Busy(s.worker), PendingOf(s));
    BeginIsNumbered(ctx, s.engine.count, next, reply);
    hide Begin, Numbered, EngineInv, LegalPath, Legal, Of, ContextOk, WalkInv;
    var b := Begin(ctx, s.engine.count, next, reply);
    PutKeepsPost(s.engine, g, b.ctx, b.count, b.events, next == Terminating && b.progress == Fails, h);
  }

  lemma ResumeKeepsPost(s: System, h: nat)
    requires CoreInv(s) && Enabled(s, WorkerResume) && PostKept(s.engine, h)
    ensures PostKept(Resumed(s).engine, h)
  {
    var g, next, signal := s.worker.handle, s.worker.path[s.worker.index], s.worker.signal;
    assert Legal(s.worker.path[s.worker.index - 1], next);
    FirstEventIsLoading(s.engine, g, Busy(s.worker), PendingOf(s), next);
    assert ContextOk(s.engine, g, Busy(s.worker), PendingOf(s));
    var taken := Touched(s.engine, g, Taken(s.engine.contexts[g], signal));
    var r := Finish(taken.contexts[g], taken.count, next);
    hide EngineInv, LegalPath, Of, Record;
    PutKeepsPost(taken, g, r.ctx, r.count, r.events, false, h);
  }

  lemma QuietKeepsPost(s: System, a: Step, h: nat)
    requires Enabled(s, a) && !a.WorkerAdvance? && !a.WorkerResume? && PostKept(s.engine, h)
    requires !(a.TakeLoad? && s.callers[a.t].handle == h)
    ensures PostKept(Apply(s, a).engine, h)
  {
    if a.WorkerPick? {
      PickedKeepsEngine(s);
    }
    hide Picked, Of, Find, Without;
  }

  lemma StepKeepsPost(s: System, a: Step, h: nat)
    requires CoreInv(s) && Enabled(s, a) && PostKept(s.engine, h)
    requires !(a.TakeLoad? && s.callers[a.t].handle == h)
    ensures PostKept(Apply(s, a).engine, h)
  {
    hide CoreInv, PostKept, Advanced, Resumed, Picked, Find, Without;
    if a.WorkerAdvance? {
      AdvanceKeepsPost(s, a.reply, h);
    } else if a.WorkerResume? {
      ResumeKeepsPost(s, h);
    } else {
      QuietKeepsPost(s, a, h);
    }
  }

  // ------------------------------------------------- every run

  /** Only the caller that a step names moves; it comes to await a context only by creating it. */
  lemma CallersStep(s: System, a: Step, t: nat)
    requires ClientInv(s) && Enabled(s, a) && t in Apply(s, a).callers
    ensures var s' := Apply(s, a); var h := Awaits(s'.callers[t]);
      || h == None
      || (t in s.callers && h == Awaits(s.callers[t]))
      || (a == Create(t) && h == Some(|s.engine.contexts|))
    ensures a.TakeLoad? && a.t == t ==> Awaits(Apply(s, a).callers[t]) == None
  {
    hide ClientInv, Find, Without;
    if MayAttempt(a) {
      AttemptOrKeep(s, a);
      hide Apply;
    }
  }

  lemma AwaitedExists(s: System, t: nat)
    requires ClientInv(s) && t in s.callers && Awaits(s.callers[t]).Some?
    ensures Awaits(s.callers[t]).value < |s.engine.contexts|
  {
    assert CallerOk(s, s.callers[t]);
  }

  lemma StepKeepsOwnWaits(s: System, a: Step)
    requires ClientInv(s) && OwnWaits(s) && Enabled(s, a)
    ensures OwnWaits(Apply(s, a))
  {
    var s' := Apply(s, a);
    hide Apply, Enabled, ClientInv;
    forall t, u | t in s'.callers && u in s'.callers && t != u && Awaits(s'.callers[t]).Some?
      ensures Awaits(s'.callers[t]) != Awaits(s'.callers[u])
    {
      CallersStep(s, a, t);
      CallersStep(s, a, u);
      if t in s.callers && Awaits(s.callers[t]).Some? {
        AwaitedExists(s, t);
      }
      if u in s.callers && Awaits(s.callers[u]).Some? {
        AwaitedExists(s, u);
      }
    }
  }

  lemma NewContextAwaits(s: System, t: nat)
    requires CoreInv(s) && Enabled(s, Create(t))
    ensures PostKept(Apply(s, Create(t)).engine, |s.engine.contexts|)
  {
    OfNobody(s.engine.events, |s.engine.contexts|);
    hide Of, ContextOk;
  }

  /** A caller that takes a post takes the one it waits for. */
  lemma TakesOwn(s: System, a: Step, t: nat)
    requires OwnWaits(s) && Enabled(s, a) && t in s.callers && Awaits(s.callers[t]).Some?
    requires a.TakeLoad? ==> a.t != t
    ensures a.TakeLoad? ==> s.callers[a.t].handle != Awaits(s.callers[t]).value
  {
  }

  lemma StepKeepsLaunches(s: System, a: Step)
    requires CoreInv(s) && ClientInv(s) && LaunchInv(s) && Enabled(s, a)
    ensures LaunchInv(Apply(s, a))
  {
    var s' := Apply(s, a);
    StepKeepsOwnWaits(s, a);
    if a.Create? {
      NewContextAwaits(s, a.t);
    }
    forall t | t in s'.callers && Awaits(s'.callers[t]).Some?
      ensures PostKept(s'.engine, Awaits(s'.callers[t]).value)
    {
      CallersStep(s, a, t);
      if t in s.callers && Awaits(s'.callers[t]) == Awaits(s.callers[t]) {
        TakesOwn(s, a, t);
        StepKeepsPost(s, a, Awaits(s'.callers[t]).value);
      }
    }
    hide CoreInv, ClientInv, Apply, Enabled, PostKept;
  }

  lemma {:induction false} RunKeepsLaunches(steps: seq<Step>)
    requires ExecFrom(INITIAL, steps).Some?
    ensures Inv(ExecFrom(INITIAL, steps).value) && LaunchInv(ExecFrom(INITIAL, steps).value)
  {
    hide Apply, Enabled, QueueInv, WakeInv, StopInv, CoreInv, ClientInv;
    if steps == [] {
      InitialInv();
    } else {
      RunKeepsLaunches(steps[..|steps| - 1]);
      var s := ExecFrom(INITIAL, steps[..|steps| - 1]).value;
      StepKeepsInv(s, steps[|steps| - 1]);
      StepKeepsLaunches(s, steps[|steps| - 1]);
    }
  }

  /** In every run, a SpawnApp that waits for LOADING can move on exactly when its context has
      reached LOADING, however long ago; no other call can have taken that post. */
  lemma AwaitingMovesIff(s: System, t: nat)
    requires Reachable(s) && t in s.callers && s.callers[t].AwaitingLoad?
    ensures Enabled(s, TakeLoad(t)) <==> !NeverLoaded(s.engine, s.callers[t].handle)
  {
    var steps :| ExecFrom(INITIAL, steps) == Some(s);
    RunKeepsLaunches(steps);
    var h := s.callers[t].handle;
    assert PostKept(s.engine, h);
    hide QueueInv, WakeInv, StopInv, WalkInv, EngineInv, NeverLoaded, Reachable, ExecFrom;
    IdSetIff(s.engine, h, Busy(s.worker), PendingOf(s));
    NeverLoadedIff(s.engine, h, Busy(s.worker), PendingOf(s));
  }
}
