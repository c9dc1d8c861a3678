/**
 * What becomes of what clients ask for, and what they are told: over every run, the requests
 * submitted, the kill flags, the instance ids handed out, and the names that events carry.
 */
module Requests {
  import opened Common
  import opened TransitionSearch
  import opened Lifecycle
  import opened LifecycleHistory
  import opened TransitionSystem
  import opened TransitionInvariants

  // ------------------------------------------------- the kill flag

  /** The flag of the last KillApp or UnloadApp of a context. */
  function LastForce(steps: seq<Step>, h: nat): bool {
    if steps == [] then false
    else
      var a := steps[|steps| - 1];
      if a.BeginOther? && a.handle == h && a.force.Some? then a.force.value
      else LastForce(steps[..|steps| - 1], h)
  }

  lemma AdvanceKeepsForce(s: System, reply: Reply, h: nat)
    requires CoreInv(s) && Enabled(s, WorkerAdvance(reply)) && h < |s.engine.contexts|
    ensures |Advanced(s, reply).engine.contexts| == |s.engine.contexts|
    ensures Advanced(s, reply).engine.contexts[h].force == s.engine.contexts[h].force
  {
    WalksLegally(s);
    var ctx, next := s.engine.contexts[s.worker.handle], s.worker.path[s.worker.index];
    HandleOutcome(ctx, next, reply);
    HandleOutcome(ctx.(changeId := s.engine.count), next, reply);
    hide Handle, CoreInv, EngineInv, Legal, LegalPath, OnPath;
  }

  lemma ResumeKeepsForce(s: System, h: nat)
    requires Enabled(s, WorkerResume) && h < |s.engine.contexts|
    ensures |Resumed(s).engine.contexts| == |s.engine.contexts|
    ensures Resumed(s).engine.contexts[h].force == s.engine.contexts[h].force
  {
  }

  lemma StepSetsForce(s: System, a: Step, h: nat)
    requires CoreInv(s) && Enabled(s, a)
    ensures var e := Apply(s, a).engine;
      && |e.contexts| >= |s.engine.contexts|
      && (h < |s.engine.contexts| ==>
            e.contexts[h].force
            == if a.BeginOther? && a.handle == h && a.force.Some? then a.force.value else s.engine.contexts[h].force)
      && (|s.engine.contexts| <= h < |e.contexts| ==> !e.contexts[h].force && !a.BeginOther?)
  {
    if a.WorkerPick? {
      PickedKeepsEngine(s);
    } else if a.WorkerAdvance? {
      AdvanceKeepsForce(s, a.reply, if h < |s.engine.contexts| then h else 0);
    } else if a.WorkerResume? {
      ResumeKeepsForce(s, if h < |s.engine.contexts| then h else 0);
    }
    hide Picked, Advanced, Resumed, Find, Without, CoreInv;
  }

  /** In every run a context carries the flag of the last KillApp or UnloadApp on it. */
  lemma {:induction false} ForceIsLast(steps: seq<Step>, h: nat)
    requires ExecFrom(INITIAL, steps).Some?
    ensures Inv(ExecFrom(INITIAL, steps).value)
    ensures var e := ExecFrom(INITIAL, steps).value.engine;
      if h < |e.contexts| then e.contexts[h].force == LastForce(steps, h) else !LastForce(steps, h)
  {
    hide QueueInv, WakeInv, StopInv, CoreInv, ClientInv, Apply;
    if steps == [] {
      InitialInv();
    } else {
      var front, a := steps[..|steps| - 1], steps[|steps| - 1];
      var s := ExecFrom(INITIAL, front).value;
      ForceIsLast(front, h);
      StepKeepsInv(s, a);
      StepSetsForce(s, a, h);
    }
  }

  /** So a context is killed, rather than asked to end, exactly when KillApp was the last of the
      two before its TERMINATING handler runs. */
  lemma KillIsObeyed(steps: seq<Step>, reply: Reply)
    requires ExecFrom(INITIAL, steps).Some?
    requires var s := ExecFrom(INITIAL, steps).value;
      && Enabled(s, WorkerAdvance(reply))
      && s.worker.path[s.worker.index] == Terminating && reply.runtime
    ensures var s := ExecFrom(INITIAL, steps).value;
      var started := s.engine.contexts[s.worker.handle].(changeId := s.engine.count);
      Handle(started, Terminating, reply).issued == Some(if LastForce(steps, s.worker.handle) then Kill else Terminate)
  {
    ForceIsLast(steps, ExecFrom(INITIAL, steps).value.worker.handle);
    hide Inv, ExecFrom, LastForce;
  }

  // ------------------------------------------------- the requests submitted

  /** The call by which client `t` entered. */
  function Asked(steps: seq<Step>, t: nat): Option<Step> {
    if steps == [] then None
    else
      var before, a := Asked(steps[..|steps| - 1], t), steps[|steps| - 1];
      if before == None && (a.LookUp? || a.BeginOther?) && a.t == t then Some(a) else before
  }

  /** Context `h` is what the call is about: a context of its application, or the one named. */
  predicate About(e: Engine, h: nat, a: Step) {
    && h < |e.contexts|
    && match a
       case LookUp(t, app, target) => e.contexts[h].appId == app
       case BeginOther(t, handle, target, force) => h == handle
       case _ => false
  }

  /** The request is what the call asks for. */
  predicate Wanted(e: Engine, r: Request, a: Step) {
    About(e, r.handle, a) && (a.LookUp? || a.BeginOther?) && r.target == a.target
  }

  predicate Answers(e: Engine, c: Caller, a: Step) {
    match c
    case Creating(app, target, seen) => a.LookUp? && a.app == app && a.target == target
    case Submitting(request, kind) => Wanted(e, request, a) && (kind == Other <==> a.BeginOther?)
    case Posting(request, kind) => Wanted(e, request, a) && (kind == Other <==> a.BeginOther?)
    case AwaitingLoad(h) => About(e, h, a) && a.LookUp?
    case Reading(h, kind) => About(e, h, a) && (kind == Other <==> a.BeginOther?)
    case Returned(id, kind) => kind == Other <==> a.BeginOther?
  }

  ghost predicate AllAnswer(steps: seq<Step>, s: System) {
    && (forall t :: t in s.callers <==> Asked(steps, t).Some?)
    && (forall t :: t in s.callers ==> Answers(s.engine, s.callers[t], Asked(steps, t).value))
  }

  lemma StillAnswers(e: Engine, e': Engine, c: Caller, a: Step)
    requires Answers(e, c, a) && Grows(e, e')
    ensures Answers(e', c, a)
  {
  }

  /** Only the caller that the step names moves. */
  lemma OthersStand(s: System, a: Step, t: nat)
    requires Enabled(s, a)
    requires !((a.LookUp? || a.Create? || a.BeginOther? || a.Push? || a.Post? || a.TakeLoad? || a.ReadId?) && a.t == t)
    ensures (t in Apply(s, a).callers <==> t in s.callers)
    ensures t in s.callers ==> Apply(s, a).callers[t] == s.callers[t]
  {
    if MayAttempt(a) {
      AttemptOrKeep(s, a);
      hide Apply;
    } else {
      hide Find, Without;
    }
  }

  lemma LookUpAnswers(s: System, t: nat, app: AppId, target: LifecycleState)
    requires Enabled(s, LookUp(t, app, target))
    ensures var a := LookUp(t, app, target); var s' := Apply(s, a);
      t in s'.callers && Answers(s'.engine, s'.callers[t], a)
  {
  }

  lemma OwnStepAnswers(s: System, a: Step, asked: Step)
    requires Enabled(s, a) && ClientInv(s)
    requires a.Create? || a.Push? || a.Post? || a.TakeLoad? || a.ReadId?
    requires Answers(s.engine, s.callers[a.t], asked)
    ensures var s' := Apply(s, a); a.t in s'.callers && Answers(s'.engine, s'.callers[a.t], asked)
  {
    assert CallerOk(s, s.callers[a.t]);
  }

  lemma CallerAnswers(steps: seq<Step>, s: System, a: Step, t: nat)
    requires ClientInv(s) && Enabled(s, a) && AllAnswer(steps, s) && Grows(s.engine, Apply(s, a).engine)
    ensures t in Apply(s, a).callers <==> Asked(steps + [a], t).Some?
    ensures t in Apply(s, a).callers ==>
              Answers(Apply(s, a).engine, Apply(s, a).callers[t], Asked(steps + [a], t).value)
  {
    assert (steps + [a])[..|steps + [a]| - 1] == steps;
    var names := a.LookUp? || a.Create? || a.BeginOther? || a.Push? || a.Post? || a.TakeLoad? || a.ReadId?;
    hide ClientInv, Grows, Find, Without, Picked, Advanced, Resumed;
    if !names || a.t != t {
      OthersStand(s, a, t);
      hide Apply;
      if t in s.callers {
        StillAnswers(s.engine, Apply(s, a).engine, s.callers[t], Asked(steps, t).value);
      }
    } else if a.LookUp? {
      LookUpAnswers(s, t, a.app, a.target);
    } else if !a.BeginOther? {
      OwnStepAnswers(s, a, Asked(steps, t).value);
      hide Apply;
    }
  }

  lemma StepAnswers(steps: seq<Step>, s: System, a: Step)
    requires CoreInv(s) && ClientInv(s) && Enabled(s, a) && AllAnswer(steps, s)
    ensures AllAnswer(steps + [a], Apply(s, a))
  {
    var s' := Apply(s, a);
    StepGrows(s, a);
    assert (steps + [a])[..|steps + [a]| - 1] == steps;
    forall t
      ensures t in s'.callers <==> Asked(steps + [a], t).Some?
      ensures t in s'.callers ==> Answers(s'.engine, s'.callers[t], Asked(steps + [a], t).value)
    {
      CallerAnswers(steps, s, a, t);
    }
    hide CoreInv, ClientInv, Apply, Answers, Asked, Grows;
  }

  lemma {:induction false} RunAnswers(steps: seq<Step>)
    requires ExecFrom(INITIAL, steps).Some?
    ensures Inv(ExecFrom(INITIAL, steps).value) && AllAnswer(steps, ExecFrom(INITIAL, steps).value)
  {
    hide QueueInv, WakeInv, StopInv, CoreInv, ClientInv, Apply, Enabled;
    if steps == [] {
      InitialInv();
    } else {
      var front, a := steps[..|steps| - 1], steps[|steps| - 1];
      RunAnswers(front);
      StepKeepsInv(ExecFrom(INITIAL, front).value, a);
      StepAnswers(front, ExecFrom(INITIAL, front).value, a);
      assert front + [a] == steps;
    }
  }

  lemma PushSubmits(s: System, t: nat)
    requires Enabled(s, Push(t))
    ensures Apply(s, Push(t)).submitted == s.submitted + [s.callers[t].request]
  {
  }

  /** In every run a client's request is submitted as the client asked: for the state it named,
      and for a context of the application it launched or for the one it named. */
  lemma SubmittedAsAsked(steps: seq<Step>, t: nat)
    requires ExecFrom(INITIAL, steps).Some? && Enabled(ExecFrom(INITIAL, steps).value, Push(t))
    ensures var s := ExecFrom(INITIAL, steps).value; var r := s.callers[t].request;
      && Apply(s, Push(t)).submitted == s.submitted + [r]
      && Asked(steps, t).Some? && Wanted(s.engine, r, Asked(steps, t).value)
  {
    RunAnswers(steps);
    PushSubmits(ExecFrom(INITIAL, steps).value, t);
    hide Inv, Apply, ExecFrom, Asked, Wanted;
  }

  // ------------------------------------------------- the semaphores of a context

  lemma HandlePostsOnly(ctx: Context, next: LifecycleState, reply: Reply, signal: Signal)
    ensures var c := Handle(ctx, next, reply).ctx;
      && c.loadingPosts == ctx.loadingPosts + (if next == Loading then 1 else 0)
      && Posts(c, signal) == Posts(ctx, signal)
  {
  }

  lemma BeginPostsOnly(ctx: Context, count: nat, next: LifecycleState, reply: Reply, signal: Signal)
    ensures var c := Begin(ctx, count, next, reply).ctx;
      && c.loadingPosts == ctx.loadingPosts + (if next == Loading then 1 else 0)
      && Posts(c, signal) == Posts(ctx, signal)
  {
    HandlePostsOnly(ctx, next, reply, signal);
    HandlePostsOnly(ctx.(changeId := count), next, reply, signal);
    hide Handle;
  }

  lemma AdvanceMovesPosts(s: System, reply: Reply, h: nat, signal: Signal)
    requires Enabled(s, WorkerAdvance(reply)) && h < |s.engine.contexts|
    ensures var e, e' := s.engine, Advanced(s, reply).engine;
      && |e'.contexts| == |e.contexts|
      && e'.contexts[h].loadingPosts
         == e.contexts[h].loadingPosts
            + (if s.worker.handle == h && s.worker.path[s.worker.index] == Loading then 1 else 0)
      && Posts(e'.contexts[h], signal) == Posts(e.contexts[h], signal)
  {
    BeginPostsOnly(
      s.engine.contexts[s.worker.handle], s.engine.count, s.worker.path[s.worker.index], reply, signal);
    hide Begin, Posts;
  }

  lemma ResumeMovesPosts(s: System, h: nat, signal: Signal)
    requires Enabled(s, WorkerResume) && h < |s.engine.contexts|
    ensures var e, e' := s.engine, Resumed(s).engine;
      && |e'.contexts| == |e.contexts|
      && e'.contexts[h].loadingPosts == e.contexts[h].loadingPosts
      && Posts(e'.contexts[h], signal)
         == Posts(e.contexts[h], signal) - if s.worker.handle == h && s.worker.signal == signal then 1 else 0
  {
  }

  lemma QuietMovesPosts(s: System, a: Step, h: nat, signal: Signal)
    requires Enabled(s, a) && !MayAttempt(a) && h < |s.engine.contexts|
    ensures var e, e' := s.engine, Apply(s, a).engine;
      && |e'.contexts| >= |e.contexts|
      && e'.contexts[h].loadingPosts
         == e.contexts[h].loadingPosts - (if a.TakeLoad? && s.callers[a.t].handle == h then 1 else 0)
      && Posts(e'.contexts[h], signal)
         == Posts(e.contexts[h], signal) + if a == Report(h, signal) then 1 else 0
  {
    hide Find, Without;
  }

  /** The "reached loading" semaphore is posted by, and only by, entering LOADING, and taken by,
      and only by, a SpawnApp that waits for it. The other three are posted by, and only by,
      the event they stand for, and taken by the handler whose wait it ends. */
  lemma StepMovesPosts(s: System, a: Step, h: nat, signal: Signal)
    requires Enabled(s, a) && h < |s.engine.contexts|
    ensures var e, e' := s.engine, Apply(s, a).engine;
      && |e'.contexts| >= |e.contexts|
      && e'.contexts[h].loadingPosts
         == e.contexts[h].loadingPosts
            + (if a.WorkerAdvance? && s.worker.handle == h && s.worker.path[s.worker.index] == Loading then 1 else 0)
            - (if a.TakeLoad? && s.callers[a.t].handle == h then 1 else 0)
      && Posts(e'.contexts[h], signal)
         == Posts(e.contexts[h], signal)
            + (if a == Report(h, signal) then 1 else 0)
            - (if a.WorkerResume? && s.worker.handle == h && s.worker.signal == signal then 1 else 0)
  {
    match a
    case WorkerAdvance(reply) => AdvanceMovesPosts(s, reply, h, signal); hide Advanced, Posts;
    case WorkerResume => ResumeMovesPosts(s, h, signal); hide Resumed, Posts;
    case WorkerPick => PickedKeepsEngine(s); hide Picked, Posts;
    case _ => QuietMovesPosts(s, a, h, signal); hide Apply, Posts;
  }

  /** All four are zero at first. */
  lemma NewContextHasNoPosts(s: System, t: nat, signal: Signal)
    requires Enabled(s, Step.Create(t))
    ensures var e := Apply(s, Step.Create(t)).engine;
      && |e.contexts| == |s.engine.contexts| + 1
      && e.contexts[|s.engine.contexts|].loadingPosts == Posts(e.contexts[|s.engine.contexts|], signal) == 0
  {
  }

  // ------------------------------------------------- instance ids

  /** The `k`-th of a context's events is its latest LOADING. */
  predicate LatestLoading(evs: seq<Event>, k: nat) {
    && k < |evs| && evs[k].newState == Loading
    && forall j :: k < j < |evs| ==> evs[j].newState != Loading
  }

  lemma {:induction false} IdSinceLoading(evs: seq<Event>)
    requires Linked(evs) && evs != []
    ensures exists k: nat :: LatestLoading(evs, k) && evs[k].instanceId == evs[|evs| - 1].instanceId
  {
    var front, last := evs[..|evs| - 1], evs[|evs| - 1];
    assert LinkedAt(evs, |evs| - 1);
    if last.newState == Loading {
      assert LatestLoading(evs, |evs| - 1);
    } else {
      LinkedPrefix(evs, |evs| - 1);
      assert LinkedAt(evs, 0);
      assert front != [];
      IdSinceLoading(front);
      var k: nat :| LatestLoading(front, k) && front[k].instanceId == front[|front| - 1].instanceId;
      assert LatestLoading(evs, k);
    }
  }

  ghost predicate IsLatestId(id: string, evs: seq<Event>) {
    if evs == [] then id == "" else exists k: nat :: LatestLoading(evs, k) && evs[k].instanceId == id
  }

  lemma IdIsLatest(e: Engine, h: nat, busy: Option<nat>, pending: nat)
    requires h < |e.contexts| && EngineInv(e, busy, pending)
    ensures IsLatestId(e.contexts[h].instanceId, Of(e.events, h))
  {
    assert ContextOk(e, h, busy, pending);
    hide Linked, Standing;
    if Of(e.events, h) != [] {
      IdSinceLoading(Of(e.events, h));
    }
  }

  /** In every run the instance id that SpawnApp returns, if not empty, is that of its context's
      latest LOADING. */
  lemma IdReadIsLatest(s: System, t: nat)
    requires Reachable(s) && Enabled(s, ReadId(t))
    ensures IsLatestId(Apply(s, ReadId(t)).callers[t].instanceId, Of(s.engine.events, s.callers[t].handle))
  {
    EveryInterleaving(s);
    hide QueueInv, WakeInv, StopInv, WalkInv, ClientInv, EngineInv, Reachable, IsLatestId;
    IdIsLatest(s.engine, s.callers[t].handle, Busy(s.worker), PendingOf(s));
  }

  // ------------------------------------------------- the names of events

  ghost predicate Named(e: Engine) {
    forall k :: 0 <= k < |e.events| ==>
      e.events[k].owner < |e.contexts| && e.events[k].appId == e.contexts[e.events[k].owner].appId
  }

  lemma BeginNames(ctx: Context, count: nat, next: LifecycleState, reply: Reply)
    requires Legal(ctx.state, next)
    ensures var b := Begin(ctx, count, next, reply);
      && b.ctx.appId == ctx.appId
      && forall k :: 0 <= k < |b.events| ==> b.events[k].appId == ctx.appId && b.events[k].owner == ctx.handle
  {
    HandleOutcome(ctx, next, reply);
    HandleOutcome(ctx.(changeId := count), next, reply);
    hide Handle, Legal;
  }

  lemma PutKeepsNames(e: Engine, h: nat, c: Context, count: nat, events: seq<Event>, failed: bool)
    requires Named(e) && h < |e.contexts| && c.appId == e.contexts[h].appId
    requires forall k :: 0 <= k < |events| ==> events[k].appId == c.appId && events[k].owner == h
    ensures Named(PutOrRefuse(e, h, c, count, events, failed))
  {
  }

  lemma AdvanceKeepsNames(s: System, reply: Reply)
    requires CoreInv(s) && Named(s.engine) && Enabled(s, WorkerAdvance(reply))
    ensures Named(Advanced(s, reply).engine)
  {
    WalksLegally(s);
    var h, next := s.worker.handle, s.worker.path[s.worker.index];
    BeginNames(s.engine.contexts[h], s.engine.count, next, reply);
    hide Begin, CoreInv, EngineInv, Legal, LegalPath, OnPath, Named;
    var b := Begin(s.engine.contexts[h], s.engine.count, next, reply);
    PutKeepsNames(s.engine, h, b.ctx, b.count, b.events, next == Terminating && b.progress == Fails);
  }

  lemma ResumeKeepsNames(s: System)
    requires CoreInv(s) && Named(s.engine) && Enabled(s, WorkerResume)
    ensures Named(Resumed(s).engine)
  {
    var h, next, signal := s.worker.handle, s.worker.path[s.worker.index], s.worker.signal;
    assert ContextOk(s.engine, h, Busy(s.worker), PendingOf(s));
    var taken := Touched(s.engine, h, Taken(s.engine.contexts[h], signal));
    var r := Finish(taken.contexts[h], taken.count, next);
    hide EngineInv, WalkInv, ContextOk;
    PutKeepsNames(taken, h, r.ctx, r.count, r.events, false);
  }

  lemma QuietKeepsNames(s: System, a: Step)
    requires Named(s.engine) && Enabled(s, a) && !MayAttempt(a)
    ensures Named(Apply(s, a).engine)
  {
    hide Find, Without;
  }

  lemma StepKeepsNames(s: System, a: Step)
    requires CoreInv(s) && Named(s.engine) && Enabled(s, a)
    ensures Named(Apply(s, a).engine)
  {
    hide CoreInv, Named, Advanced, Resumed, Picked;
    match a
    case WorkerAdvance(reply) => AdvanceKeepsNames(s, reply);
    case WorkerResume => ResumeKeepsNames(s);
    case WorkerPick => PickedKeepsEngine(s);
    case _ => QuietKeepsNames(s, a);
  }

  lemma {:induction false} RunKeepsNames(steps: seq<Step>)
    requires ExecFrom(INITIAL, steps).Some?
    ensures Inv(ExecFrom(INITIAL, steps).value) && Named(ExecFrom(INITIAL, steps).value.engine)
  {
    hide QueueInv, WakeInv, StopInv, CoreInv, ClientInv, Apply, Enabled;
    if steps == [] {
      InitialInv();
    } else {
      var front := steps[..|steps| - 1];
      RunKeepsNames(front);
      StepKeepsInv(ExecFrom(INITIAL, front).value, steps[|steps| - 1]);
      StepKeepsNames(ExecFrom(INITIAL, front).value, steps[|steps| - 1]);
    }
  }

  /** In every run each event carries the application id of the context it is about. */
  lemma EveryEventIsNamed(s: System)
    requires Reachable(s)
    ensures Named(s.engine)
  {
    var steps :| ExecFrom(INITIAL, steps) == Some(s);
    RunKeepsNames(steps);
    hide Inv, Named;
  }
}
