/**
 * The single worker thread of StateTransitionHandler, interleaved step by step with any
 * number of client threads, the thread that terminates it, and the events of the runtime
 * and window managers.
 *
 * The worker holds the request mutex through a whole drain pass, also while a handler
 * waits for an event. Every other critical section of that mutex is one step, enabled
 * only outside a pass. Posting a semaphore, looking up or creating a context, reading an
 * instance id, setting the kill flag and removing an unloaded context take no part in that
 * mutex and may come between any two steps of a walk.
 */
module TransitionSystem {
  import opened Common
  import opened TransitionSearch
  import opened Lifecycle
  import opened LifecycleHistory

  datatype Request = Request(handle: nat, target: LifecycleState)

  datatype Worker =
    | Starting      // before the first read of sRunning
    | Entering      // about to lock, having read sRunning as true
    | Draining      // at the loop over the queue
    | Walking(handle: nat, path: seq<LifecycleState>, index: nat)   // about to enter path[index]
    | InHandler(handle: nat, path: seq<LifecycleState>, index: nat, signal: Signal)
    | Blocked       // in sem_wait on the request semaphore
    | Rechecking    // woken, about to read sRunning
    | Finished

  datatype Kind = FirstSpawn | LaterSpawn | Other

  datatype Caller =
    | Creating(app: AppId, target: LifecycleState, seen: nat)   // found none among `seen` contexts
    | Submitting(request: Request, kind: Kind)   // before the push
    | Posting(request: Request, kind: Kind)      // between push and post
    | AwaitingLoad(handle: nat)                  // SpawnApp waits for LOADING
    | Reading(handle: nat, kind: Kind)           // about to read the instance id
    | Returned(instanceId: string, kind: Kind)

  datatype Terminator = Idle | Cleared | Joining | Joined

  /** One attempt at the request at `index` in submission order. */
  datatype Try = Try(index: nat, ok: bool)

  datatype System = System(
    engine: Engine,
    loaded: seq<nat>,       // mLoadedApplications, as handles
    delivered: set<nat>,    // events whose UNLOADED has been handled
    queue: seq<Request>,
    sem: nat,
    running: bool,
    worker: Worker,
    callers: map<nat, Caller>,
    terminator: Terminator,
    // history
    submitted: seq<Request>,
    tries: seq<Try>,
    completed: nat,
    posts: nat,
    waits: nat,
    passes: nat,
    latePasses: nat)   // drain passes begun after sRunning was cleared

  const INITIAL := System(
    FRESH_ENGINE, [], {}, [], 0, true, Starting, map[], Idle, [], [], 0, 0, 0, 0, 0)

  datatype Step =
    | LookUp(t: nat, app: AppId, target: LifecycleState)
    | Create(t: nat)
    | BeginOther(t: nat, handle: nat, target: LifecycleState, force: Option<bool>)
    | Push(t: nat)
    | Post(t: nat)
    | TakeLoad(t: nat)
    | ReadId(t: nat)
    | ClearRunning
    | TerminatorPost
    | Join
    | Report(handle: nat, signal: Signal)
    | Unload(event: nat)
    | WorkerStart
    | WorkerLock
    | WorkerPick
    | WorkerAdvance(reply: Reply)
    | WorkerResume
    | WorkerDrained
    | WorkerWake
    | WorkerRecheck

  predicate InPass(w: Worker) {
    w.Draining? || w.Walking? || w.InHandler?
  }

  /** getContext by application id: the position in the list of the first match from `i` on,
      or the list's length. */
  function Find(contexts: seq<Context>, loaded: seq<nat>, app: AppId, i: nat): (p: nat)
    requires i <= |loaded| && forall j :: 0 <= j < |loaded| ==> loaded[j] < |contexts|
    ensures i <= p <= |loaded|
    ensures forall j :: i <= j < p ==> app == "" || contexts[loaded[j]].appId != app
    ensures p < |loaded| ==> app != "" && contexts[loaded[p]].appId == app
    decreases |loaded| - i
  {
    if i == |loaded| || (app != "" && contexts[loaded[i]].appId == app) then i
    else Find(contexts, loaded, app, i + 1)
  }

  /** handleStateChangeEvent: the list without its first context that has this instance id. */
  function Without(contexts: seq<Context>, loaded: seq<nat>, id: string): (rest: seq<nat>)
    requires forall j :: 0 <= j < |loaded| ==> loaded[j] < |contexts|
    ensures forall h :: h in rest ==> h in loaded
  {
    if loaded == [] then []
    else if contexts[loaded[0]].instanceId == id then loaded[1..]
    else [loaded[0]] + Without(contexts, loaded[1..], id)
  }

  predicate LoadedExist(s: System) {
    forall j :: 0 <= j < |s.loaded| ==> s.loaded[j] < |s.engine.contexts|
  }

  predicate Enabled(s: System, a: Step) {
    match a
    case LookUp(t, app, target) => t !in s.callers && LoadedExist(s)
    case Create(t) => t in s.callers && s.callers[t].Creating?
    case BeginOther(t, h, target, force) =>
      t !in s.callers && h in s.loaded && h < |s.engine.contexts| && s.engine.contexts[h].instanceId != ""
    case Push(t) => t in s.callers && s.callers[t].Submitting? && !InPass(s.worker)
    case Post(t) => t in s.callers && s.callers[t].Posting?
    case TakeLoad(t) =>
      && t in s.callers && s.callers[t].AwaitingLoad?
      && s.callers[t].handle < |s.engine.contexts|
      && s.engine.contexts[s.callers[t].handle].loadingPosts > 0
    case ReadId(t) =>
      t in s.callers && s.callers[t].Reading? && s.callers[t].handle < |s.engine.contexts|
    case ClearRunning => s.terminator == Idle && !InPass(s.worker)
    case TerminatorPost => s.terminator == Cleared
    case Join => s.terminator == Joining && s.worker == Finished
    case Report(h, signal) =>
      h in s.loaded && h < |s.engine.contexts| && s.engine.contexts[h].instanceId != ""
    case Unload(k) =>
      k < |s.engine.events| && s.engine.events[k].newState == Unloaded && k !in s.delivered && LoadedExist(s)
    case WorkerStart => s.worker == Starting
    case WorkerLock => s.worker == Entering
    case WorkerPick => s.worker == Draining && s.queue != []
    case WorkerAdvance(reply) =>
      s.worker.Walking? && s.worker.handle < |s.engine.contexts| && s.worker.index < |s.worker.path| && s.queue != []
    case WorkerResume =>
      && s.worker.InHandler? && s.worker.handle < |s.engine.contexts| && s.worker.index < |s.worker.path|
      && s.queue != []
      && Posts(s.engine.contexts[s.worker.handle], s.worker.signal) > 0
    case WorkerDrained => s.worker == Draining && s.queue == []
    case WorkerWake => s.worker == Blocked && s.sem > 0
    case WorkerRecheck => s.worker == Rechecking
  }

  predicate WorkerStep(a: Step) {
    || a.WorkerStart? || a.WorkerLock? || a.WorkerPick? || a.WorkerAdvance?
    || a.WorkerResume? || a.WorkerDrained? || a.WorkerWake? || a.WorkerRecheck?
  }

  function Touched(e: Engine, h: nat, c: Context): Engine
    requires h < |e.contexts|
  {
    e.(contexts := e.contexts[h := c])
  }

  /** A successful head leaves the queue; a failed one stays and ends the pass. */
  function Attempted(s: System, ok: bool): System
    requires s.queue != []
  {
    var s' := s.(tries := s.tries + [Try(s.completed, ok)]);
    if ok then s'.(queue := s.queue[1..], completed := s.completed + 1, worker := Draining)
    else s'.(worker := Blocked)
  }

  /** On to the next state of the path, or to the end of the request. */
  function Proceed(s: System, h: nat, path: seq<LifecycleState>, index: nat): System
    requires s.queue != []
  {
    if index >= |path| then Attempted(s, true) else s.(worker := Walking(h, path, index))
  }

  /** changeState up to its loop. */
  ghost function Picked(s: System): System
    requires s.queue != []
  {
    var r := s.queue[0];
    if r.handle >= |s.engine.contexts| then Attempted(s, false)
    else
      var start := s.engine.contexts[r.handle].state;
      if start == r.target then Attempted(s, true)
      else if !Search(TRANSITIONS, start, r.target, []).found then Attempted(s, false)
      else s.(worker := Walking(r.handle, FullPath(start, r.target), 1))
  }

  function Advanced(s: System, reply: Reply): System
    requires Enabled(s, WorkerAdvance(reply))
  {
    var h, path, i := s.worker.handle, s.worker.path, s.worker.index;
    var progress := Begin(s.engine.contexts[h], s.engine.count, path[i], reply).progress;
    var s' := s.(engine := Began(s.engine, h, path[i], reply));
    match progress
    case Fails => Attempted(s', false)
    case Succeeds => Proceed(s', h, path, i + 1)
    case Waits(signal) => s'.(worker := InHandler(h, path, i, signal))
  }

  function Resumed(s: System): System
    requires Enabled(s, WorkerResume)
  {
    var h, path, i := s.worker.handle, s.worker.path, s.worker.index;
    var taken := Touched(s.engine, h, Taken(s.engine.contexts[h], s.worker.signal));
    Proceed(s.(engine := Ended(taken, h, path[i])), h, path, i + 1)
  }

  ghost function Apply(s: System, a: Step): System
    requires Enabled(s, a)
  {
    match a
    case LookUp(t, app, target) =>
      var p := Find(s.engine.contexts, s.loaded, app, 0);
      var next := if p < |s.loaded| then Submitting(Request(s.loaded[p], target), LaterSpawn)
                  else Creating(app, target, |s.engine.contexts|);
      s.(callers := s.callers[t := next])
    case Create(t) =>
      var c := s.callers[t];
      var h := |s.engine.contexts|;
      s.(engine := LifecycleHistory.Create(s.engine, c.app),
         loaded := s.loaded + [h],
         callers := s.callers[t := Submitting(Request(h, c.target), FirstSpawn)])
    case BeginOther(t, h, target, force) =>
      var ctx := s.engine.contexts[h];
      s.(engine := if force.Some? then Touched(s.engine, h, ctx.(force := force.value)) else s.engine,
         callers := s.callers[t := Submitting(Request(h, target), Other)])
    case Push(t) =>
      var c := s.callers[t];
      s.(queue := s.queue + [c.request],
         submitted := s.submitted + [c.request],
         callers := s.callers[t := Posting(c.request, c.kind)])
    case Post(t) =>
      var c := s.callers[t];
      var next := if c.kind == FirstSpawn then AwaitingLoad(c.request.handle) else Reading(c.request.handle, c.kind);
      s.(sem := s.sem + 1, posts := s.posts + 1, callers := s.callers[t := next])
    case TakeLoad(t) =>
      var h := s.callers[t].handle;
      var ctx := s.engine.contexts[h];
      s.(engine := Touched(s.engine, h, ctx.(loadingPosts := ctx.loadingPosts - 1)),
         callers := s.callers[t := Reading(h, FirstSpawn)])
    case ReadId(t) =>
      var c := s.callers[t];
      s.(callers := s.callers[t := Returned(s.engine.contexts[c.handle].instanceId, c.kind)])
    case ClearRunning =>
      s.(running := false, terminator := Cleared)
    case TerminatorPost =>
      s.(sem := s.sem + 1, posts := s.posts + 1, terminator := Joining)
    case Join =>
      s.(terminator := Joined)
    case Report(h, signal) =>
      s.(engine := Touched(s.engine, h, Signalled(s.engine.contexts[h], signal)))
    case Unload(k) =>
      s.(loaded := Without(s.engine.contexts, s.loaded, s.engine.events[k].instanceId),
         delivered := s.delivered + {k})
    case WorkerStart =>
      s.(worker := if s.running then Entering else Finished)
    case WorkerLock =>
      s.(worker := Draining, passes := s.passes + 1,
         latePasses := s.latePasses + if s.running then 0 else 1)
    case WorkerPick => Picked(s)
    case WorkerAdvance(reply) => Advanced(s, reply)
    case WorkerResume => Resumed(s)
    case WorkerDrained =>
      s.(worker := Blocked)
    case WorkerWake =>
      s.(sem := s.sem - 1, waits := s.waits + 1, worker := Rechecking)
    case WorkerRecheck =>
      s.(worker := if s.running then Entering else Finished)
  }

  // ------------------------------------------------- runs

  /** The system after `steps` from `s`, if each was enabled when taken. */
  ghost function ExecFrom(s: System, steps: seq<Step>): Option<System> {
    if steps == [] then Some(s)
    else
      var before := ExecFrom(s, steps[..|steps| - 1]);
      if before.Some? && Enabled(before.value, steps[|steps| - 1]) then
        Some(Apply(before.value, steps[|steps| - 1]))
      else None
  }

  ghost predicate Leads(s: System, s': System) {
    exists steps :: ExecFrom(s, steps) == Some(s')
  }

  ghost predicate Reachable(s: System) {
    Leads(INITIAL, s)
  }

  lemma LeadsToItself(s: System)
    ensures Leads(s, s)
  {
    assert ExecFrom(s, []) == Some(s);
  }

  lemma LeadsOn(s: System, s': System, a: Step)
    requires Leads(s, s') && Enabled(s', a)
    ensures Leads(s, Apply(s', a))
  {
    hide Enabled, Apply;
    var steps :| ExecFrom(s, steps) == Some(s');
    assert (steps + [a])[..|steps + [a]| - 1] == steps;
    assert ExecFrom(s, steps + [a]) == Some(Apply(s', a));
  }

  lemma {:induction false} ExecConcat(s: System, first: seq<Step>, second: seq<Step>)
    requires ExecFrom(s, first).Some?
    ensures ExecFrom(s, first + second) == ExecFrom(ExecFrom(s, first).value, second)
  {
    hide Enabled, Apply;
    if second == [] {
      assert first + second == first;
    } else {
      var front := second[..|second| - 1];
      assert (first + second)[..|first + second| - 1] == first + front;
      ExecConcat(s, first, front);
    }
  }

  lemma LeadsTransitive(s: System, s': System, s'': System)
    requires Leads(s, s') && Leads(s', s'')
    ensures Leads(s, s'')
  {
    var first :| ExecFrom(s, first) == Some(s');
    var second :| ExecFrom(s', second) == Some(s'');
    ExecConcat(s, first, second);
    assert ExecFrom(s, first + second) == Some(s'');
  }
}
