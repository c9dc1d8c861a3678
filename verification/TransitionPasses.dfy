/**
 * A drain pass seen as a whole: the worker's small steps amount to a loop over the queue
 * that takes each request through changeState, and which queues that loop empties.
 */
module TransitionPasses {
  import opened Common
  import opened TransitionSearch
  import opened Lifecycle
  import opened LifecycleHistory
  import opened TransitionSystem
  import opened TransitionInvariants

  /** The loop of a pass: requests are taken through changeState from the front of the queue,
      up to the first that fails, which stays. */
  ghost function DrainAll(e: Engine, queue: seq<Request>, k: nat, replies: nat -> Replies): (Engine, seq<Request>)
    decreases |queue|
  {
    if queue == [] then (e, [])
    else
      var (e', ok) := Perform(e, queue[0].handle, queue[0].target, replies(k));
      if ok then DrainAll(e', queue[1..], k + 1, replies) else (e', queue)
  }

  // ------------------------------------------------- one iteration, in small steps

  /** The engine after an iteration on context `h`. */
  function Iterated(e: Engine, h: nat, next: LifecycleState, reply: Reply): Engine
    requires h < |e.contexts|
  {
    var r := Advance(e.contexts[h], e.count, next, reply);
    PutOrRefuse(e, h, r.ctx, r.count, r.events, !r.ok && next == Terminating)
  }

  lemma PutTwice(
    e: Engine, h: nat, c: Context, count: nat, events: seq<Event>,
    c': Context, count': nat, events': seq<Event>, failed: bool)
    requires h < |e.contexts|
    ensures PutOrRefuse(Put(e, h, c, count, events), h, c', count', events', failed)
         == PutOrRefuse(e, h, c', count', events + events', failed)
  {
    assert e.contexts[h := c][h := c'] == e.contexts[h := c'];
    assert e.events + events + events' == e.events + (events + events');
  }

  lemma TouchAfterPut(e: Engine, h: nat, c: Context, count: nat, events: seq<Event>, c': Context)
    requires h < |e.contexts|
    ensures Touched(Put(e, h, c, count, events), h, c') == Put(e, h, c', count, events)
  {
    assert e.contexts[h := c][h := c'] == e.contexts[h := c'];
  }

  /** A context past UNLOADED has an instance id, so events for it find it. */
  lemma PastUnloadedHasId(e: Engine, h: nat, busy: Option<nat>, pending: nat)
    requires h < |e.contexts| && EngineInv(e, busy, pending) && e.contexts[h].state != Unloaded
    ensures e.contexts[h].instanceId != ""
  {
    assert ContextOk(e, h, busy, pending);
    IdSetIff(e, h, busy, pending);
    hide Linked;
  }

  lemma ReportThenTake(e: Engine, h: nat, signal: Signal)
    requires h < |e.contexts| && Posts(e.contexts[h], signal) == 0
    ensures var told := Touched(e, h, Signalled(e.contexts[h], signal));
      Touched(told, h, Taken(told.contexts[h], signal)) == Touched(e, h, Awaited(e.contexts[h], signal))
  {
    var ctx := e.contexts[h];
    assert e.contexts[h := Signalled(ctx, signal)][h := Awaited(ctx, signal)] == e.contexts[h := Awaited(ctx, signal)];
  }

  /** The wait of a handler ends: with the post that is left over, or with the event. */
  lemma WaitRuns(s: System)
    requires Inv(s) && s.worker.InHandler? && s.worker.handle in s.loaded
    ensures
      var h, path, i, signal := s.worker.handle, s.worker.path, s.worker.index, s.worker.signal;
      && h < |s.engine.contexts| && i < |path| && s.queue != []
      && Leads(s, Proceed(s.(engine := Ended(Touched(s.engine, h, Awaited(s.engine.contexts[h], signal)), h, path[i])),
                          h, path, i + 1))
  {
    hide QueueInv, WakeInv, StopInv, ClientInv, Ended, EngineInv, Leads, Proceed;
    var h, path, i, signal := s.worker.handle, s.worker.path, s.worker.index, s.worker.signal;
    var ctx := s.engine.contexts[h];
    assert Legal(path[i - 1], path[i]);
    PastUnloadedHasId(s.engine, h, Busy(s.worker), PendingOf(s));
    LeadsToItself(s);
    if Posts(ctx, signal) > 0 {
      LeadsOn(s, s, WorkerResume);
    } else {
      LeadsOn(s, s, Report(h, signal));
      var told := Apply(s, Report(h, signal));
      LeadsOn(s, told, WorkerResume);
      ReportThenTake(s.engine, h, signal);
    }
  }

  lemma ProceedForgets(s1: System, s: System, e: Engine, h: nat, path: seq<LifecycleState>, i: nat)
    requires s.queue != [] && s1 == s.(engine := s1.engine, worker := s1.worker)
    ensures Proceed(s1.(engine := e), h, path, i) == Proceed(s.(engine := e), h, path, i)
  {
  }

  lemma FinishSucceeds(ctx: Context, count: nat, next: LifecycleState)
    ensures Finish(ctx, count, next).ok
  {
  }

  lemma IterationRuns(s: System, reply: Reply)
    requires Inv(s) && s.worker.Walking? && s.worker.handle in s.loaded
    ensures
      var h, path, i := s.worker.handle, s.worker.path, s.worker.index;
      && h < |s.engine.contexts| && i < |path| && s.queue != []
      && var t := s.(engine := Iterated(s.engine, h, path[i], reply));
         Leads(s, if Advance(s.engine.contexts[h], s.engine.count, path[i], reply).ok
                  then Proceed(t, h, path, i + 1) else Attempted(t, false))
  {
    hide QueueInv, WakeInv, StopInv, CoreInv, ClientInv, Leads, Proceed, Attempted, Begin, Finish, Advance, Awaited;
    var h, path, i := s.worker.handle, s.worker.path, s.worker.index;
    WalksLegally(s);
    var ctx, count := s.engine.contexts[h], s.engine.count;
    var b := Begin(ctx, count, path[i], reply);
    LegalMoves(path[i - 1], path[i]);
    AdvanceIsBeginFinish(ctx, count, path[i], reply);
    LeadsToItself(s);
    var a := WorkerAdvance(reply);
    LeadsOn(s, s, a);
    var s1 := Apply(s, a);
    if b.progress.Waits? {
      StepKeepsInv(s, a);
      WaitRuns(s1);
      var c := Awaited(b.ctx, b.progress.signal);
      var r := Finish(c, b.count, path[i]);
      TouchAfterPut(s.engine, h, b.ctx, b.count, b.events, c);
      PutTwice(s.engine, h, c, b.count, b.events, r.ctx, r.count, r.events, false);
      FinishSucceeds(c, b.count, path[i]);
      var s2 := Proceed(s1.(engine := Ended(Touched(s1.engine, h, c), h, path[i])), h, path, i + 1);
      LeadsTransitive(s, s1, s2);
      ProceedForgets(s1, s, Iterated(s.engine, h, path[i], reply), h, path, i + 1);
    }
  }

  // ------------------------------------------------- one request, in small steps

  /** An iteration announces its state, but for a failure to enter any but TERMINATING. */
  lemma AdvanceAnnounces(ctx: Context, count: nat, next: LifecycleState, reply: Reply)
    requires Legal(ctx.state, next)
    ensures var r := Advance(ctx, count, next, reply);
      if r.ok || next == Terminating then |r.events| == 1 && r.events[0].newState == next else r.events == []
  {
    LegalMoves(ctx.state, next);
    AdvanceOutcome(ctx, count, next, reply);
    hide HandleToEnd;
  }

  /** A walk that goes on from TERMINATING makes its next step. */
  lemma UnloadedFollows(ctx: Context, count: nat, path: seq<LifecycleState>, i: nat, replies: Replies)
    requires LegalPath(path) && 1 <= i <= |path| && ctx.state == path[i - 1] == Terminating
    ensures i < |path| && Walk(ctx, count, path, i, replies).events != []
  {
    assert Legal(path[i - 1], path[i]);
    LegalMoves(path[i - 1], path[i]);
    AdvanceOutcome(ctx, count, path[i], replies(i));
    AdvanceAnnounces(ctx, count, path[i], replies(i));
    hide Advance, Legal;
  }

  lemma RefusedAfter(r: Result, events: seq<Event>)
    requires r.events == [] && events != [] ==> events[|events| - 1].newState != Terminating
    ensures Refused(r.After(events)) <==> Refused(r)
  {
    if r.events != [] {
      assert (events + r.events)[|events + r.events| - 1] == r.events[|r.events| - 1];
    } else {
      assert events + r.events == events;
    }
  }

  /** After an iteration that succeeds, the request is refused exactly when what remains is. */
  lemma RefusedLater(ctx: Context, count: nat, path: seq<LifecycleState>, i: nat, replies: Replies)
    requires LegalPath(path) && 1 <= i < |path| && ctx.state == path[i - 1]
    requires Advance(ctx, count, path[i], replies(i)).ok
    ensures var r := Advance(ctx, count, path[i], replies(i));
      Refused(Walk(ctx, count, path, i, replies)) <==> Refused(Walk(r.ctx, r.count, path, i + 1, replies))
  {
    assert Legal(path[i - 1], path[i]);
    var r := Advance(ctx, count, path[i], replies(i));
    AdvanceAnnounces(ctx, count, path[i], replies(i));
    AdvanceOutcome(ctx, count, path[i], replies(i));
    hide Advance, Legal, Refused;
    if path[i] == Terminating {
      UnloadedFollows(r.ctx, r.count, path, i + 1, replies);
    }
    RefusedAfter(Walk(r.ctx, r.count, path, i + 1, replies), r.events);
  }

  lemma NothingPut(e: Engine, h: nat, r: Result)
    requires h < |e.contexts| && r == Result(e.contexts[h], e.count, [], true)
    ensures PutOrRefuse(e, h, r.ctx, r.count, r.events, Refused(r)) == e
  {
    assert e.contexts[h := r.ctx] == e.contexts && e.events + [] == e.events;
  }

  lemma IteratedIsPut(e: Engine, h: nat, next: LifecycleState, reply: Reply)
    requires h < |e.contexts| && Advance(e.contexts[h], e.count, next, reply).ok
    ensures var step := Advance(e.contexts[h], e.count, next, reply);
      Iterated(e, h, next, reply) == Put(e, h, step.ctx, step.count, step.events)
  {
    hide Advance;
  }

  lemma LeadsKeepsInv(s: System, s': System)
    requires Inv(s) && Leads(s, s')
    ensures Inv(s')
  {
    hide Inv;
    var steps :| ExecFrom(s, steps) == Some(s');
    RunKeepsInv(s, steps);
  }

  lemma AttemptedForgets(s: System, s': System, e: Engine, ok: bool)
    requires s.queue != [] && s' == s.(engine := s'.engine, worker := s'.worker)
    ensures Attempted(s'.(engine := e), ok) == Attempted(s.(engine := e), ok)
  {
  }

  lemma RefusedNow(step: Result, next: LifecycleState)
    requires !step.ok
    requires if next == Terminating then |step.events| == 1 && step.events[0].newState == next else step.events == []
    ensures Refused(step) <==> next == Terminating
  {
  }

  lemma {:induction false} WalkRuns(s: System, replies: Replies)
    requires Inv(s) && s.worker.Walking? && s.worker.handle in s.loaded
    ensures
      var h := s.worker.handle;
      && h < |s.engine.contexts| && s.queue != []
      && var r := Walk(s.engine.contexts[h], s.engine.count, s.worker.path, s.worker.index, replies);
         Leads(s, Attempted(s.(engine := PutOrRefuse(s.engine, h, r.ctx, r.count, r.events, Refused(r))), r.ok))
    decreases |s.worker.path| - s.worker.index
  {
    hide QueueInv, WakeInv, StopInv, CoreInv, ClientInv, Leads, Advance, PutOrRefuse, Refused, Legal, LegalPath;
    var h, path, i := s.worker.handle, s.worker.path, s.worker.index;
    WalksLegally(s);
    var ctx, count := s.engine.contexts[h], s.engine.count;
    var reply := replies(i);
    var step := Advance(ctx, count, path[i], reply);
    AdvanceAnnounces(ctx, count, path[i], reply);
    IterationRuns(s, reply);
    if !step.ok {
      RefusedNow(step, path[i]);
    } else {
      AdvanceOutcome(ctx, count, path[i], reply);
      RefusedLater(ctx, count, path, i, replies);
      var e := Iterated(s.engine, h, path[i], reply);
      IteratedIsPut(s.engine, h, path[i], reply);
      var r := Walk(step.ctx, step.count, path, i + 1, replies);
      PutTwice(s.engine, h, step.ctx, step.count, step.events, r.ctx, r.count, r.events, Refused(r));
      if i + 1 < |path| {
        var s' := s.(engine := e, worker := Walking(h, path, i + 1));
        LeadsKeepsInv(s, s');
        WalkRuns(s', replies);
        AttemptedForgets(s, s', PutOrRefuse(e, h, r.ctx, r.count, r.events, Refused(r)), r.ok);
        LeadsTransitive(s, s', Attempted(s'.(engine := PutOrRefuse(e, h, r.ctx, r.count, r.events, Refused(r))), r.ok));
      } else {
        NothingPut(e, h, r);
      }
    }
  }

  lemma HeadIsThere(s: System)
    requires Inv(s) && s.queue != []
    ensures s.queue[0].handle < |s.engine.contexts|
  {
    hide WakeInv, StopInv, CoreInv, QueueInv, ClientInv;
    HeadExists(s);
  }

  lemma NoWalk(e: Engine, h: nat, target: LifecycleState, replies: Replies)
    requires h < |e.contexts|
    requires e.contexts[h].state == target || !Search(TRANSITIONS, e.contexts[h].state, target, []).found
    ensures Perform(e, h, target, replies) == (e, e.contexts[h].state == target)
  {
    hide Search, Walk, FullPath;
    assert e.contexts[h := e.contexts[h]] == e.contexts && e.events + [] == e.events;
  }

  /** One request in a pass. */
  lemma RequestRuns(s: System, replies: Replies)
    requires Inv(s) && s.worker == Draining && s.queue != [] && s.queue[0].handle in s.loaded
    ensures var (e, ok) := Perform(s.engine, s.queue[0].handle, s.queue[0].target, replies);
      Leads(s, Attempted(s.(engine := e), ok))
  {
    hide QueueInv, WakeInv, StopInv, ClientInv, EngineInv, Leads, Search, Walk, FullPath, PutOrRefuse, Refused;
    var r := s.queue[0];
    HeadIsThere(s);
    LeadsToItself(s);
    LeadsOn(s, s, WorkerPick);
    var s1 := Apply(s, WorkerPick);
    var start := s.engine.contexts[r.handle].state;
    if start == r.target || !Search(TRANSITIONS, start, r.target, []).found {
      NoWalk(s.engine, r.handle, r.target, replies);
      assert s.(engine := s.engine) == s;
    } else {
      LeadsKeepsInv(s, s1);
      WalkRuns(s1, replies);
      var (e, ok) := Perform(s.engine, r.handle, r.target, replies);
      AttemptedForgets(s, s1, e, ok);
      LeadsTransitive(s, s1, Attempted(s1.(engine := e), ok));
    }
  }

  /** Every queued request's context is still in the list. */
  predicate QueueLoaded(s: System) {
    forall j :: 0 <= j < |s.queue| ==> s.queue[j].handle in s.loaded
  }

  /** The worker, served with the events it waits for, makes of any queue what the loop
      makes of it. */
  lemma {:induction false} PassIsDrainAll(s: System, k: nat, replies: nat -> Replies)
    requires Inv(s) && s.worker == Draining && QueueLoaded(s)
    ensures exists s' :: Leads(s, s') && s'.worker == Blocked
              && (s'.engine, s'.queue) == DrainAll(s.engine, s.queue, k, replies)
    decreases |s.queue|
  {
    hide Inv, Leads, Perform;
    LeadsToItself(s);
    if s.queue == [] {
      LeadsOn(s, s, WorkerDrained);
      assert Apply(s, WorkerDrained).worker == Blocked;
    } else {
      var r := s.queue[0];
      RequestRuns(s, replies(k));
      var (e, ok) := Perform(s.engine, r.handle, r.target, replies(k));
      var s1 := Attempted(s.(engine := e), ok);
      if ok {
        LeadsKeepsInv(s, s1);
        PassIsDrainAll(s1, k + 1, replies);
        var s' :| Leads(s1, s') && s'.worker == Blocked
          && (s'.engine, s'.queue) == DrainAll(s1.engine, s1.queue, k + 1, replies);
        LeadsTransitive(s, s1, s');
      }
    }
  }

  // ------------------------------------------------- which queues a pass empties

  /** Forwards through launch, freely among the loaded states, from there to termination. */
  predicate Accepted(start: LifecycleState, target: LifecycleState) {
    start == target || Rank(start) < Rank(target) || Rank(start) == Rank(target) == 3
  }

  /** Each request is acceptable where the requests before it leave its context. */
  predicate AllAcceptable(states: seq<LifecycleState>, queue: seq<Request>)
    decreases |queue|
  {
    queue == []
    || (var r := queue[0];
        && r.handle < |states|
        && Accepted(states[r.handle], r.target)
        && AllAcceptable(states[r.handle := Goal(states[r.handle], r.target)], queue[1..]))
  }

  function States(e: Engine): (states: seq<LifecycleState>)
    ensures |states| == |e.contexts|
    ensures forall h :: 0 <= h < |states| ==> states[h] == e.contexts[h].state
  {
    seq(|e.contexts|, h requires 0 <= h < |e.contexts| => e.contexts[h].state)
  }

  /** While its handlers succeed, a request fails exactly when it is not acceptable. */
  lemma BenignRequestSucceedsIff(e: Engine, r: Request, replies: Replies)
    requires Benign(replies)
    ensures var (e', ok) := Perform(e, r.handle, r.target, replies);
      && (ok <==> r.handle < |e.contexts| && Accepted(e.contexts[r.handle].state, r.target))
      && (ok ==> States(e') == States(e)[r.handle := Goal(e.contexts[r.handle].state, r.target)])
  {
    hide Search, Walk, FullPath, Benign;
    if r.handle < |e.contexts| {
      var ctx := e.contexts[r.handle];
      RequestIsAcceptedIff(ctx.state, r.target);
      SucceedsIffArrived(ctx, e.count, r.target, replies);
      if ctx.state != r.target && Accepted(ctx.state, r.target) {
        FullPathIsLegal(ctx.state, r.target);
        BenignWalkArrives(ctx, e.count, FullPath(ctx.state, r.target), 1, replies);
      }
    }
  }

  /** While handlers succeed, a pass empties exactly the queues in which every request is
      acceptable where those before it leave its context. */
  lemma {:induction false} BenignPassEmptiesIff(
    e: Engine, queue: seq<Request>, k: nat, replies: nat -> Replies)
    requires forall j :: Benign(replies(j))
    ensures DrainAll(e, queue, k, replies).1 == [] <==> AllAcceptable(States(e), queue)
    decreases |queue|
  {
    hide Perform, Benign, Accepted, Goal;
    if queue != [] {
      BenignRequestSucceedsIff(e, queue[0], replies(k));
      var (e', ok) := Perform(e, queue[0].handle, queue[0].target, replies(k));
      if ok {
        BenignPassEmptiesIff(e', queue[1..], k + 1, replies);
      }
    }
  }

  // ------------------------------------------------- the same of every run of a pass

  /** If the step starts a handler, both managers answer it and every command succeeds. */
  predicate BenignStep(a: Step) {
    a.WorkerAdvance? ==> a.reply.runtime && forall call :: a.reply.succeeds(call)
  }

  /** The requests behind the head are acceptable once the head is where it asks to be. */
  ghost predicate RestAcceptable(e: Engine, queue: seq<Request>) {
    && queue != [] && queue[0].handle < |e.contexts|
    && AllAcceptable(States(e)[queue[0].handle := Destination(queue[0].target)], queue[1..])
  }

  /** Whether the pass, as far as it has come, is going to empty its queue. */
  ghost predicate WillEmpty(s: System) {
    match s.worker
    case Draining => AllAcceptable(States(s.engine), s.queue)
    case Walking(h, path, i) => RestAcceptable(s.engine, s.queue)
    case InHandler(h, path, i, signal) => RestAcceptable(s.engine, s.queue)
    case _ => s.queue == []
  }

  ghost predicate Known(e: Engine, queue: seq<Request>) {
    forall j :: 0 <= j < |queue| ==> queue[j].handle < |e.contexts|
  }

  lemma QueueIsKnown(s: System)
    requires QueueInv(s) && ClientInv(s)
    ensures Known(s.engine, s.queue)
  {
    forall j | 0 <= j < |s.queue|
      ensures s.queue[j].handle < |s.engine.contexts|
    {
      assert s.queue[j] == s.submitted[s.completed + j];
    }
  }

  /** New contexts make no difference to requests for the old ones. */
  lemma {:induction false} AcceptableOnKnown(
    states: seq<LifecycleState>, more: seq<LifecycleState>, queue: seq<Request>)
    requires |states| <= |more| && forall h :: 0 <= h < |states| ==> more[h] == states[h]
    requires forall j :: 0 <= j < |queue| ==> queue[j].handle < |states|
    ensures AllAcceptable(states, queue) <==> AllAcceptable(more, queue)
    decreases |queue|
  {
    if queue != [] {
      var h, target := queue[0].handle, queue[0].target;
      AcceptableOnKnown(states[h := Goal(states[h], target)], more[h := Goal(more[h], target)], queue[1..]);
    }
  }

  lemma SearchAcceptsIff(start: LifecycleState, target: LifecycleState)
    ensures Search(TRANSITIONS, start, target, []).found <==> Accepted(start, target)
    ensures Accepted(start, start)
  {
    RequestIsAcceptedIff(start, target);
    hide Search;
  }

  lemma HeadProspect(e: Engine, queue: seq<Request>)
    requires queue != [] && queue[0].handle < |e.contexts|
    ensures var r := queue[0]; var start := e.contexts[r.handle].state;
      && (start == r.target ==> (AllAcceptable(States(e), queue) <==> AllAcceptable(States(e), queue[1..])))
      && (start != r.target && start != Terminating ==>
            (AllAcceptable(States(e), queue) <==> Accepted(start, r.target) && RestAcceptable(e, queue)))
      && (!Accepted(start, r.target) ==> !AllAcceptable(States(e), queue))
  {
    var r := queue[0];
    var start := e.contexts[r.handle].state;
    hide Rank;
    assert States(e)[r.handle := start] == States(e);
  }

  lemma PickKeepsProspect(s: System)
    requires CoreInv(s) && Enabled(s, WorkerPick) && Known(s.engine, s.queue)
    ensures WillEmpty(Picked(s)) <==> WillEmpty(s)
  {
    var r, e := s.queue[0], s.engine;
    var start := e.contexts[r.handle].state;
    SearchAcceptsIff(start, r.target);
    assert ContextOk(e, r.handle, None, 0);
    HeadProspect(e, s.queue);
    hide Search, FullPath, EngineInv, ContextOk, Accepted, AllAcceptable, RestAcceptable;
  }

  /** The head's context has come to the state `path[i]` of the walk. */
  lemma ProceedKeepsProspect(s: System, e: Engine, h: nat, path: seq<LifecycleState>, i: nat)
    requires OnPath(s, h, path, i) && |e.contexts| == |s.engine.contexts|
    requires forall g :: 0 <= g < |e.contexts| && g != h ==> e.contexts[g].state == s.engine.contexts[g].state
    requires e.contexts[h].state == path[i]
    ensures WillEmpty(Proceed(s.(engine := e), h, path, i + 1)) <==> RestAcceptable(s.engine, s.queue)
  {
    hide LegalPath, AllAcceptable;
    var goal := Destination(s.queue[0].target);
    assert States(e)[h := goal] == States(s.engine)[h := goal];
    if i + 1 == |path| {
      assert States(e) == States(s.engine)[h := goal];
    }
  }

  lemma BenignHandles(ctx: Context, next: LifecycleState, reply: Reply)
    requires Legal(ctx.state, next) && BenignStep(WorkerAdvance(reply))
    ensures Handle(ctx, next, reply).progress != Fails
  {
  }

  lemma BenignBegins(ctx: Context, count: nat, next: LifecycleState, reply: Reply)
    requires Legal(ctx.state, next) && BenignStep(WorkerAdvance(reply))
    ensures var b := Begin(ctx, count, next, reply);
      b.progress != Fails && b.ctx.state == if b.progress == Succeeds then next else ctx.state
  {
    LegalMoves(ctx.state, next);
    BenignHandles(ctx, next, reply);
    BenignHandles(ctx.(changeId := count), next, reply);
    HandleOutcome(ctx, next, reply);
    HandleOutcome(ctx.(changeId := count), next, reply);
    hide Handle, Legal;
  }

  lemma AdvanceKeepsProspect(s: System, reply: Reply)
    requires CoreInv(s) && Enabled(s, WorkerAdvance(reply)) && BenignStep(WorkerAdvance(reply))
    ensures WillEmpty(Advanced(s, reply)) <==> WillEmpty(s)
  {
    var h, path, i := s.worker.handle, s.worker.path, s.worker.index;
    assert Legal(path[i - 1], path[i]);
    BenignBegins(s.engine.contexts[h], s.engine.count, path[i], reply);
    hide Begin, EngineInv, LegalPath, Legal, Proceed, AllAcceptable;
    var e := Began(s.engine, h, path[i], reply);
    if Begin(s.engine.contexts[h], s.engine.count, path[i], reply).progress == Succeeds {
      ProceedKeepsProspect(s, e, h, path, i);
    } else {
      assert States(e) == States(s.engine);
    }
  }

  lemma ResumeKeepsProspect(s: System)
    requires CoreInv(s) && Enabled(s, WorkerResume)
    ensures WillEmpty(Resumed(s)) <==> WillEmpty(s)
  {
    var h, path, i := s.worker.handle, s.worker.path, s.worker.index;
    var taken := Touched(s.engine, h, Taken(s.engine.contexts[h], s.worker.signal));
    hide EngineInv, LegalPath, Proceed, AllAcceptable;
    ProceedKeepsProspect(s, Ended(taken, h, path[i]), h, path, i);
  }

  lemma OutsideKeepsProspect(s: System, a: Step)
    requires Known(s.engine, s.queue) && Enabled(s, a) && InPass(s.worker) && !MayAttempt(a)
    ensures WillEmpty(Apply(s, a)) <==> WillEmpty(s)
  {
    var s' := Apply(s, a);
    QuietKeepsStates(s, a);
    hide Apply, Enabled;
    AcceptableOnKnown(States(s.engine), States(s'.engine), s.queue);
    if s.queue != [] {
      var h, goal := s.queue[0].handle, Destination(s.queue[0].target);
      AcceptableOnKnown(States(s.engine)[h := goal], States(s'.engine)[h := goal], s.queue[1..]);
    }
  }

  /** No step of a pass changes its prospect, as long as handlers succeed. */
  lemma StepKeepsProspect(s: System, a: Step)
    requires Inv(s) && Enabled(s, a) && InPass(s.worker) && BenignStep(a)
    ensures WillEmpty(Apply(s, a)) <==> WillEmpty(s)
  {
    QueueIsKnown(s);
    hide QueueInv, WakeInv, StopInv, CoreInv, ClientInv, Known, WillEmpty, BenignStep, Picked, Advanced, Resumed;
    match a
    case WorkerPick => PickKeepsProspect(s);
    case WorkerAdvance(reply) => AdvanceKeepsProspect(s, reply);
    case WorkerResume => ResumeKeepsProspect(s);
    case _ => OutsideKeepsProspect(s, a);
  }

  /** The steps run from `s`, all of them benign and taken during one pass. */
  ghost predicate BenignRun(s: System, steps: seq<Step>) {
    && ExecFrom(s, steps).Some?
    && forall k :: 0 <= k < |steps| ==>
         && BenignStep(steps[k])
         && ExecFrom(s, steps[..k]).Some? && InPass(ExecFrom(s, steps[..k]).value.worker)
  }

  lemma {:induction false} RunKeepsProspect(s: System, steps: seq<Step>)
    requires Inv(s) && BenignRun(s, steps)
    ensures WillEmpty(ExecFrom(s, steps).value) <==> WillEmpty(s)
  {
    hide Inv, Apply, Enabled, WillEmpty, BenignStep;
    if steps != [] {
      var front, a := steps[..|steps| - 1], steps[|steps| - 1];
      assert forall k :: 0 <= k < |front| ==> front[..k] == steps[..k] && front[k] == steps[k];
      RunKeepsProspect(s, front);
      RunKeepsInv(s, front);
      StepKeepsProspect(ExecFrom(s, front).value, a);
    }
  }

  /** In every run of a pass in which handlers succeed, whatever clients, managers and the
      terminator do meanwhile, the pass ends with an empty queue exactly when each request
      queued at its beginning was acceptable where those before it leave its context. */
  lemma EveryBenignPassEmptiesIff(s: System, steps: seq<Step>)
    requires Reachable(s) && s.worker == Draining && BenignRun(s, steps)
    requires ExecFrom(s, steps).value.worker == Blocked
    ensures ExecFrom(s, steps).value.queue == [] <==> AllAcceptable(States(s.engine), s.queue)
  {
    hide Inv, Apply, Enabled, BenignStep, AllAcceptable;
    EveryInterleaving(s);
    RunKeepsProspect(s, steps);
  }
}
