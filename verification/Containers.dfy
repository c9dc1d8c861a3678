/**
 * The application's container beside its context, over whole runs: exactly when the two
 * are out of step.
 */
module Containers {
  import opened Common
  import opened TransitionSearch
  import opened Lifecycle
  import opened LifecycleHistory
  import opened TransitionSystem
  import opened TransitionInvariants

  /** The runtime manager reports an application running or terminated only when it is, or
      when it has just come up as the worker waits for. */
  predicate Truthful(s: System, a: Step) {
    a.Report? && a.handle < |s.engine.contexts| ==>
      var c := s.engine.contexts[a.handle].container;
      match a.signal
      case AppRunning =>
        c == Running || (s.worker.InHandler? && s.worker.handle == a.handle && s.worker.signal == AppRunning)
      case AppTerminated => c == Absent
      case FirstFrame => true
  }

  /** A context on which no handler is at work: it has lapsed exactly when it should have a
      running container and has none, and otherwise has the container of its state. */
  predicate Settled(ctx: Context) {
    if ctx.lapsed then ContainerOf(ctx.state) == Running && ctx.container != Running else Mirrors(ctx)
  }

  /** The same while its handler waits. */
  predicate SettledUnder(ctx: Context, signal: Signal) {
    match signal
    case AppRunning => ctx.state == Loading && (ctx.lapsed <==> ctx.container != Running)
    case AppTerminated => ctx.container == Absent && !ctx.lapsed
    case FirstFrame => ctx.state == Paused && Settled(ctx)
  }

  predicate InStep(w: Worker, h: nat, ctx: Context) {
    if w.InHandler? && w.handle == h then SettledUnder(ctx, w.signal) else Settled(ctx)
  }

  predicate AllInStep(s: System) {
    forall h :: 0 <= h < |s.engine.contexts| ==> InStep(s.worker, h, s.engine.contexts[h])
  }

  lemma HandlerSettles(ctx: Context, next: LifecycleState, reply: Reply)
    requires Legal(ctx.state, next) && Settled(ctx)
    ensures var h := Handle(ctx, next, reply);
      && (h.progress == Succeeds ==> Settled(h.ctx.(state := next)))
      && (h.progress.Waits? ==> SettledUnder(h.ctx, h.progress.signal))
      && (h.progress == Fails ==> h.ctx == ctx)
  {
  }

  lemma BeginSettles(ctx: Context, count: nat, next: LifecycleState, reply: Reply)
    requires Legal(ctx.state, next) && Settled(ctx)
    ensures var b := Begin(ctx, count, next, reply);
      if b.progress.Waits? then SettledUnder(b.ctx, b.progress.signal) else Settled(b.ctx)
  {
    HandlerSettles(ctx, next, reply);
    HandlerSettles(ctx.(changeId := count), next, reply);
    HandleOutcome(ctx, next, reply);
    HandleOutcome(ctx.(changeId := count), next, reply);
    hide Handle, Legal;
  }

  lemma FinishSettles(ctx: Context, count: nat, next: LifecycleState, signal: Signal)
    requires SettledUnder(ctx, signal) && WaitsFor(next, signal)
    ensures Settled(Finish(ctx, count, next).ctx)
  {
  }

  lemma PutSettles(s: System, s': System, h: nat, c: Context)
    requires AllInStep(s) && h < |s.engine.contexts|
    requires s'.engine.contexts == s.engine.contexts[h := c] && InStep(s'.worker, h, c)
    requires s'.worker.InHandler? && s'.worker.handle != h ==> s'.worker == s.worker
    requires s.worker.InHandler? && s.worker.handle != h ==> s'.worker == s.worker
    ensures AllInStep(s')
  {
    hide SettledUnder, Settled;
  }

  lemma AdvanceSettles(s: System, reply: Reply)
    requires CoreInv(s) && AllInStep(s) && Enabled(s, WorkerAdvance(reply))
    ensures AllInStep(Advanced(s, reply))
  {
    var h, path, i := s.worker.handle, s.worker.path, s.worker.index;
    var ctx := s.engine.contexts[h];
    assert Legal(path[i - 1], path[i]);
    assert InStep(s.worker, h, ctx);
    BeginSettles(ctx, s.engine.count, path[i], reply);
    hide Begin, Legal, LegalPath, EngineInv, AllInStep, Settled, SettledUnder;
    PutSettles(s, Advanced(s, reply), h, Begin(ctx, s.engine.count, path[i], reply).ctx);
  }

  lemma ResumeSettles(s: System)
    requires CoreInv(s) && AllInStep(s) && Enabled(s, WorkerResume)
    ensures AllInStep(Resumed(s))
  {
    var h, path, i, signal := s.worker.handle, s.worker.path, s.worker.index, s.worker.signal;
    var c := Taken(s.engine.contexts[h], signal);
    assert InStep(s.worker, h, s.engine.contexts[h]);
    FinishSettles(c, s.engine.count, path[i], signal);
    hide LegalPath, EngineInv, AllInStep, Settled, SettledUnder, Finish, Taken;
    PutSettles(s, Resumed(s), h, Finish(c, s.engine.count, path[i]).ctx);
  }

  lemma ReportSettles(s: System, h: nat, signal: Signal)
    requires AllInStep(s) && Enabled(s, Report(h, signal)) && Truthful(s, Report(h, signal))
    ensures AllInStep(Apply(s, Report(h, signal)))
  {
    assert InStep(s.worker, h, s.engine.contexts[h]);
    hide AllInStep, Find, Without;
    PutSettles(s, Apply(s, Report(h, signal)), h, Signalled(s.engine.contexts[h], signal));
  }

  /** The other steps leave containers and handlers alone. */
  lemma TouchSettles(s: System, a: Step)
    requires AllInStep(s) && Enabled(s, a) && (a.BeginOther? || a.TakeLoad?)
    ensures AllInStep(Apply(s, a))
  {
    var h := if a.BeginOther? then a.handle else s.callers[a.t].handle;
    var s' := Apply(s, a);
    assert InStep(s.worker, h, s.engine.contexts[h]);
    assert s'.engine.contexts == s.engine.contexts[h := s'.engine.contexts[h]];
    hide AllInStep, Apply;
    PutSettles(s, s', h, s'.engine.contexts[h]);
  }

  lemma CreateSettles(s: System, t: nat)
    requires CoreInv(s) && AllInStep(s) && Enabled(s, Create(t))
    ensures AllInStep(Apply(s, Create(t)))
  {
    hide EngineInv, LegalPath;
  }

  lemma SameContextsSettle(s: System, s': System)
    requires AllInStep(s) && s'.engine.contexts == s.engine.contexts
    requires s'.worker == s.worker || (!s.worker.InHandler? && !s'.worker.InHandler?)
    ensures AllInStep(s')
  {
    hide Settled, SettledUnder;
  }

  lemma PickWaitsForNothing(s: System)
    requires Enabled(s, WorkerPick)
    ensures !Picked(s).worker.InHandler?
  {
    hide Search, FullPath;
  }

  lemma PickSettles(s: System)
    requires AllInStep(s) && Enabled(s, WorkerPick)
    ensures AllInStep(Picked(s))
  {
    PickedKeepsEngine(s);
    PickWaitsForNothing(s);
    hide Picked, AllInStep;
    SameContextsSettle(s, Picked(s));
  }

  lemma StepSettles(s: System, a: Step)
    requires CoreInv(s) && AllInStep(s) && Enabled(s, a) && Truthful(s, a)
    ensures AllInStep(Apply(s, a))
  {
    hide CoreInv, AllInStep, Truthful, Advanced, Resumed, Picked, Find, Without;
    match a
    case WorkerAdvance(reply) => AdvanceSettles(s, reply);
    case WorkerResume => ResumeSettles(s);
    case Report(h, signal) => ReportSettles(s, h, signal);
    case WorkerPick => PickSettles(s);
    case Create(t) => CreateSettles(s, t);
    case BeginOther(t, h, target, force) => TouchSettles(s, a);
    case TakeLoad(t) => TouchSettles(s, a);
    case _ => SameContextsSettle(s, Apply(s, a));
  }

  /** In a run from the start, every report was true when it came. */
  ghost predicate AllTruthful(steps: seq<Step>) {
    forall k :: 0 <= k < |steps| ==>
      var before := ExecFrom(INITIAL, steps[..k]); before.Some? && Truthful(before.value, steps[k])
  }

  /** Some run with true reports reaches `s`. */
  ghost predicate Honest(s: System) {
    exists steps :: ExecFrom(INITIAL, steps) == Some(s) && AllTruthful(steps)
  }

  lemma HonestAtFirst()
    ensures Honest(INITIAL)
  {
    assert ExecFrom(INITIAL, []) == Some(INITIAL) && AllTruthful([]);
  }

  lemma HonestOn(s: System, a: Step)
    requires Honest(s) && Enabled(s, a) && Truthful(s, a)
    ensures Honest(Apply(s, a))
  {
    hide Enabled, Apply, Truthful;
    var steps :| ExecFrom(INITIAL, steps) == Some(s) && AllTruthful(steps);
    var longer := steps + [a];
    assert longer[..|steps|] == steps;
    assert ExecFrom(INITIAL, longer) == Some(Apply(s, a));
    forall k | 0 <= k < |longer|
      ensures ExecFrom(INITIAL, longer[..k]).Some? && Truthful(ExecFrom(INITIAL, longer[..k]).value, longer[k])
    {
      if k < |steps| {
        assert longer[..k] == steps[..k];
      }
    }
  }

  lemma HonestIsReachable(s: System)
    requires Honest(s)
    ensures Reachable(s)
  {
    var steps :| ExecFrom(INITIAL, steps) == Some(s) && AllTruthful(steps);
  }

  lemma StepFromInvSettles(s: System, a: Step)
    requires Inv(s) && AllInStep(s) && Enabled(s, a) && Truthful(s, a)
    ensures AllInStep(Apply(s, a))
  {
    hide QueueInv, WakeInv, StopInv, CoreInv, ClientInv, Apply, AllInStep, Enabled, Truthful;
    StepSettles(s, a);
  }

  lemma {:induction false} RunSettles(steps: seq<Step>)
    requires ExecFrom(INITIAL, steps).Some? && AllTruthful(steps)
    ensures Inv(ExecFrom(INITIAL, steps).value) && AllInStep(ExecFrom(INITIAL, steps).value)
  {
    hide Inv, Apply, Enabled, Truthful;
    if steps == [] {
      InitialInv();
    } else {
      var front := steps[..|steps| - 1];
      assert forall k :: 0 <= k < |front| ==> front[..k] == steps[..k];
      RunSettles(front);
      var s, a := ExecFrom(INITIAL, front).value, steps[|steps| - 1];
      StepKeepsInv(s, a);
      StepFromInvSettles(s, a);
    }
  }

  /** Under every interleaving, as long as reports are true, a context that no handler is at
      work on is out of step with its container exactly when it has lapsed; and then it is in
      a state with a running container and has none. */
  lemma OutOfStepIffLapsed(s: System, h: nat)
    requires Honest(s) && h < |s.engine.contexts| && !(s.worker.InHandler? && s.worker.handle == h)
    ensures var ctx := s.engine.contexts[h];
      && (!Mirrors(ctx) <==> ctx.lapsed)
      && (ctx.lapsed ==> ContainerOf(ctx.state) == Running && ctx.container != Running)
  {
    hide Inv, Apply, Enabled;
    var steps :| ExecFrom(INITIAL, steps) == Some(s) && AllTruthful(steps);
    RunSettles(steps);
    assert InStep(s.worker, h, s.engine.contexts[h]);
  }

  // ------------------------------------------------- when a context lapses

  /** The handler overwrites a failure: of a run, or of a resume out of SUSPENDED. */
  predicate Overwritten(ctx: Context, next: LifecycleState, reply: Reply) {
    && reply.runtime
    && (|| (next == Initializing && !reply.succeeds(Run))
        || (next == Paused && ctx.state == Suspended && !reply.succeeds(Resume)))
  }

  /** The handler's command to the container succeeds. */
  predicate Obeyed(ctx: Context, next: LifecycleState, reply: Reply) {
    var issued := Handle(ctx, next, reply).issued;
    issued.Some? && issued.value != RenderReady && reply.succeeds(issued.value)
  }

  predicate Lapses(s: System, a: Step, h: nat)
    requires Enabled(s, a)
  {
    && a.WorkerAdvance? && s.worker.handle == h
    && Overwritten(s.engine.contexts[h], s.worker.path[s.worker.index], a.reply)
  }

  predicate Recovers(s: System, a: Step, h: nat)
    requires Enabled(s, a)
  {
    || a == Report(h, AppRunning)
    || (&& a.WorkerAdvance? && s.worker.handle == h
        && Obeyed(s.engine.contexts[h], s.worker.path[s.worker.index], a.reply))
  }

  lemma BeginLapses(ctx: Context, count: nat, next: LifecycleState, reply: Reply)
    ensures var c := Begin(ctx, count, next, reply).ctx;
      && (!ctx.lapsed ==> (c.lapsed <==> Overwritten(ctx, next, reply)))
      && (ctx.lapsed ==> (!c.lapsed <==> Obeyed(ctx, next, reply)))
  {
  }

  lemma AdvanceLapses(s: System, reply: Reply, h: nat)
    requires Enabled(s, WorkerAdvance(reply)) && h < |s.engine.contexts|
    ensures |Advanced(s, reply).engine.contexts| >= |s.engine.contexts|
    ensures var ctx, ctx' := s.engine.contexts[h], Advanced(s, reply).engine.contexts[h];
      && (!ctx.lapsed ==> (ctx'.lapsed <==> Lapses(s, WorkerAdvance(reply), h)))
      && (ctx.lapsed ==> (!ctx'.lapsed <==> Recovers(s, WorkerAdvance(reply), h)))
  {
    BeginLapses(s.engine.contexts[s.worker.handle], s.engine.count, s.worker.path[s.worker.index], reply);
    hide Begin, Obeyed, Overwritten;
  }

  lemma ResumeLapses(s: System, h: nat)
    requires Enabled(s, WorkerResume) && h < |s.engine.contexts|
    ensures |Resumed(s).engine.contexts| == |s.engine.contexts|
    ensures Resumed(s).engine.contexts[h].lapsed == s.engine.contexts[h].lapsed
  {
  }

  lemma OtherStepsLapse(s: System, a: Step, h: nat)
    requires Enabled(s, a) && h < |s.engine.contexts| && !a.WorkerAdvance?
    ensures |Apply(s, a).engine.contexts| >= |s.engine.contexts|
    ensures var ctx, ctx' := s.engine.contexts[h], Apply(s, a).engine.contexts[h];
      ctx'.lapsed == (ctx.lapsed && a != Report(h, AppRunning))
  {
    if a.WorkerPick? {
      PickedKeepsEngine(s);
    } else if a.WorkerResume? {
      ResumeLapses(s, h);
    }
    hide Picked, Resumed, Find, Without;
  }

  /** A context lapses exactly by an overwritten failure, and recovers exactly by a report or
      a command that succeeds, whatever else happens. */
  lemma LapsesIff(s: System, a: Step, h: nat)
    requires Enabled(s, a) && h < |s.engine.contexts|
    ensures |Apply(s, a).engine.contexts| >= |s.engine.contexts|
    ensures var ctx, ctx' := s.engine.contexts[h], Apply(s, a).engine.contexts[h];
      && (!ctx.lapsed ==> (ctx'.lapsed <==> Lapses(s, a, h)))
      && (ctx.lapsed ==> (!ctx'.lapsed <==> Recovers(s, a, h)))
  {
    if a.WorkerAdvance? {
      AdvanceLapses(s, a.reply, h);
    } else {
      OtherStepsLapse(s, a, h);
    }
    hide Obeyed, Overwritten, Advanced, Picked, Resumed, Find, Without;
  }

  // ------------------------------------------------- when a run can fail unnoticed

  /** The context has been unloaded before. */
  ghost predicate Relaunched(e: Engine, h: nat) {
    exists k :: 0 <= k < |e.events| && e.events[k].owner == h && e.events[k].newState == Unloaded
  }

  /** Before its run command a context has no "running" post, and no container. */
  predicate Unrun(ctx: Context) {
    ctx.state == Unloaded || ctx.state == Loading ==> ctx.running == 0 && ctx.container == Absent
  }

  /** So it is in its first life, while no handler of it waits. */
  ghost predicate FirstLife(s: System, h: nat)
    requires h < |s.engine.contexts|
  {
    !Relaunched(s.engine, h) && !(s.worker.InHandler? && s.worker.handle == h) ==> Unrun(s.engine.contexts[h])
  }

  ghost predicate FirstLives(s: System) {
    forall h :: 0 <= h < |s.engine.contexts| ==> FirstLife(s, h)
  }

  lemma StaysRelaunched(e: Engine, e': Engine, h: nat)
    requires Relaunched(e, h) && e.events <= e'.events
    ensures Relaunched(e', h)
  {
    var k :| 0 <= k < |e.events| && e.events[k].owner == h && e.events[k].newState == Unloaded;
    assert e'.events[k] == e.events[k];
  }

  /** The last of the events unloads the context `h`. */
  predicate Unloads(events: seq<Event>, h: nat) {
    events != [] && events[|events| - 1].newState == Unloaded && events[|events| - 1].owner == h
  }

  /** An iteration that does not wait leaves semaphore and container so, or unloads. */
  lemma BeginFirstLife(ctx: Context, count: nat, next: LifecycleState, reply: Reply)
    requires Legal(ctx.state, next) && Unrun(ctx)
    ensures var b := Begin(ctx, count, next, reply);
      b.progress.Waits? || Unrun(b.ctx) || Unloads(b.events, ctx.handle)
  {
    LegalMoves(ctx.state, next);
    HandleOutcome(ctx, next, reply);
    hide Legal;
  }

  lemma UnloadedNow(e: Engine, e': Engine, events: seq<Event>, h: nat)
    requires e'.events == e.events + events && Unloads(events, h)
    ensures Relaunched(e', h)
  {
    assert e'.events[|e'.events| - 1] == events[|events| - 1];
  }

  /** What an iteration leaves, in terms of its beginning. */
  lemma AdvancedFrom(s: System, reply: Reply)
    requires Enabled(s, WorkerAdvance(reply))
    ensures var h, s' := s.worker.handle, Advanced(s, reply);
      var b := Begin(s.engine.contexts[h], s.engine.count, s.worker.path[s.worker.index], reply);
      && s'.engine.contexts == s.engine.contexts[h := b.ctx]
      && s'.engine.events == s.engine.events + b.events
      && (s'.worker.InHandler? <==> b.progress.Waits?)
      && (s'.worker.InHandler? ==> s'.worker.handle == h)
  {
    hide Begin;
  }

  lemma OwnAdvanceKeepsFirstLife(s: System, reply: Reply)
    requires CoreInv(s) && Enabled(s, WorkerAdvance(reply)) && FirstLife(s, s.worker.handle)
    ensures |Advanced(s, reply).engine.contexts| == |s.engine.contexts|
    ensures FirstLife(Advanced(s, reply), s.worker.handle)
  {
    hide Begin, Advanced, CoreInv, Legal, LegalPath, EngineInv, OnPath, Relaunched, Unrun, Unloads;
    var h, next, s' := s.worker.handle, s.worker.path[s.worker.index], Advanced(s, reply);
    var b := Begin(s.engine.contexts[h], s.engine.count, next, reply);
    AdvancedFrom(s, reply);
    WalksLegally(s);
    assert s'.engine.contexts[h] == b.ctx;
    if Relaunched(s.engine, h) {
      StaysRelaunched(s.engine, s'.engine, h);
    } else {
      BeginFirstLife(s.engine.contexts[h], s.engine.count, next, reply);
      if Unloads(b.events, h) {
        UnloadedNow(s.engine, s'.engine, b.events, h);
      }
    }
  }

  lemma AdvanceKeepsFirstLife(s: System, reply: Reply, h: nat)
    requires CoreInv(s) && Enabled(s, WorkerAdvance(reply)) && h < |s.engine.contexts| && FirstLife(s, h)
    ensures |Advanced(s, reply).engine.contexts| == |s.engine.contexts| && FirstLife(Advanced(s, reply), h)
  {
    hide Begin, Advanced, CoreInv, Relaunched, Unrun;
    if h == s.worker.handle {
      OwnAdvanceKeepsFirstLife(s, reply);
    } else {
      AdvancedFrom(s, reply);
      if Relaunched(s.engine, h) {
        StaysRelaunched(s.engine, Advanced(s, reply).engine, h);
      }
    }
  }

  lemma ResumeKeepsFirstLife(s: System, h: nat)
    requires CoreInv(s) && Enabled(s, WorkerResume) && h < |s.engine.contexts| && FirstLife(s, h)
    ensures |Resumed(s).engine.contexts| == |s.engine.contexts| && FirstLife(Resumed(s), h)
  {
    hide EngineInv, LegalPath, Relaunched;
    if Relaunched(s.engine, h) {
      StaysRelaunched(s.engine, Resumed(s).engine, h);
    }
  }

  lemma QuietKeepsFirstLife(s: System, a: Step, h: nat)
    requires Enabled(s, a) && Truthful(s, a) && !a.WorkerAdvance? && !a.WorkerResume?
    requires h < |s.engine.contexts| && FirstLife(s, h)
    ensures |Apply(s, a).engine.contexts| >= |s.engine.contexts| && FirstLife(Apply(s, a), h)
  {
    if a.WorkerPick? {
      PickedKeepsEngine(s);
      PickWaitsForNothing(s);
    }
    hide Picked, Find, Without;
  }

  lemma OnlyCreateAdds(s: System, a: Step)
    requires Enabled(s, a) && !a.Create?
    ensures |Apply(s, a).engine.contexts| == |s.engine.contexts|
  {
    if a.WorkerPick? {
      PickedKeepsEngine(s);
    } else if a.WorkerAdvance? {
      AdvancedFrom(s, a.reply);
    }
    hide Picked, Advanced, Find, Without, Begin, Finish;
  }

  lemma NewIsFirstLife(s: System, t: nat)
    requires Enabled(s, Create(t))
    ensures var s' := Apply(s, Create(t));
      |s'.engine.contexts| == |s.engine.contexts| + 1 && FirstLife(s', |s.engine.contexts|)
  {
    hide Relaunched;
  }

  lemma StepKeepsFirstLives(s: System, a: Step)
    requires CoreInv(s) && FirstLives(s) && Enabled(s, a) && Truthful(s, a)
    ensures FirstLives(Apply(s, a))
  {
    var s' := Apply(s, a);
    forall h | 0 <= h < |s'.engine.contexts|
      ensures FirstLife(s', h)
    {
      if h >= |s.engine.contexts| {
        if a.Create? {
          NewIsFirstLife(s, a.t);
        } else {
          OnlyCreateAdds(s, a);
        }
      } else if a.WorkerAdvance? {
        AdvanceKeepsFirstLife(s, a.reply, h);
      } else if a.WorkerResume? {
        ResumeKeepsFirstLife(s, h);
      } else {
        QuietKeepsFirstLife(s, a, h);
      }
    }
    hide CoreInv, FirstLife, Enabled, Truthful, Apply;
  }

  lemma {:induction false} RunKeepsFirstLives(steps: seq<Step>)
    requires ExecFrom(INITIAL, steps).Some? && AllTruthful(steps)
    ensures Inv(ExecFrom(INITIAL, steps).value) && FirstLives(ExecFrom(INITIAL, steps).value)
  {
    hide QueueInv, WakeInv, StopInv, CoreInv, ClientInv, Apply, Enabled, Truthful, FirstLife;
    if steps == [] {
      InitialInv();
    } else {
      var front, a := steps[..|steps| - 1], steps[|steps| - 1];
      assert forall k :: 0 <= k < |front| ==> front[..k] == steps[..k];
      RunKeepsFirstLives(front);
      StepKeepsInv(ExecFrom(INITIAL, front).value, a);
      StepKeepsFirstLives(ExecFrom(INITIAL, front).value, a);
    }
  }

  /** As long as reports are true, a launch finds a "running" post left over only in a context
      that was unloaded before, so only then can a failed run go unnoticed. */
  lemma LeftoverNeedsRelaunch(s: System)
    requires Honest(s) && s.worker.Walking? && s.worker.index < |s.worker.path|
    requires s.worker.path[s.worker.index] == Initializing
    ensures var h := s.worker.handle;
      h < |s.engine.contexts| && (s.engine.contexts[h].running > 0 ==> Relaunched(s.engine, h))
  {
    hide QueueInv, WakeInv, StopInv, ClientInv, Apply, Enabled, Truthful, EngineInv, Relaunched;
    var steps :| ExecFrom(INITIAL, steps) == Some(s) && AllTruthful(steps);
    RunKeepsFirstLives(steps);
    assert Legal(s.worker.path[s.worker.index - 1], s.worker.path[s.worker.index]);
    assert FirstLife(s, s.worker.handle);
  }
}
