/**
 * The life-cycle states, the handlers run on entering them, and the walk that
 * StateHandler::changeState makes along a found path. Everything here is the
 * value-level specification; LifecycleObjects has the classes that meet it.
 */
module Lifecycle {
  import opened Common
  import opened TransitionSearch

  datatype LifecycleState =
    Unloaded | Loading | Initializing | Paused | Active | Suspended | Hibernated | Terminating

  /** For each state, the states it may be entered from. */
  const TRANSITIONS: Table<LifecycleState> := map[
    Unloaded := [],
    Loading := [Unloaded],
    Initializing := [Loading],
    Paused := [Initializing, Active, Suspended],
    Active := [Paused],
    Suspended := [Initializing, Paused, Hibernated],
    Hibernated := [Suspended],
    Terminating := [Paused, Suspended]]

  // ------------------------------------------------- the outside world

  /** The commands of the runtime and window managers whose result is looked at. */
  datatype Call = Run | Resume | Wake | Suspend | Hibernate | Kill | Terminate | RenderReady

  type Uuid = s: string | s != "" witness "0"

  /** What the environment answers during one handler: whether the two managers exist,
      which commands succeed, whether the window has rendered already, and the next UUID. */
  datatype Reply = Reply(runtime: bool, window: bool, succeeds: Call -> bool, rendered: bool, uuid: Uuid)

  /** The answers during one request, by index into the walked path. */
  type Replies = nat -> Reply

  /** The events that handlers wait for: the runtime manager reports the application running
      or terminated, the window manager reports its first frame. */
  datatype Signal = AppRunning | AppTerminated | FirstFrame

  /** The application's container. */
  datatype Container = Absent | Running | Frozen | Hibernating

  /** The container state that a command is meant for. */
  predicate Suits(c: Container, call: Call) {
    match call
    case Run => c == Absent
    case Resume => c == Frozen
    case Wake => c == Hibernating
    case Suspend => c == Running
    case Hibernate => c == Frozen
    case Kill => c == Running || c == Frozen
    case Terminate => c == Running || c == Frozen
    case RenderReady => c == Running
  }

  /** The container that an accepted command leads to; a wake asks for the suspended state. */
  function Commanded(c: Container, call: Call): Container {
    match call
    case Run => Running
    case Resume => Running
    case Wake => Frozen
    case Suspend => Frozen
    case Hibernate => Hibernating
    case Kill => Absent
    case Terminate => Absent
    case RenderReady => c
  }

  // ------------------------------------------------- contexts

  type AppId = string

  datatype Context = Context(
    handle: nat,            // identity of the context object
    appId: AppId,
    instanceId: string,
    state: LifecycleState,
    changeId: nat,
    force: bool,
    loadingPosts: nat,      // the semaphores: reached loading, running, terminated, first frame
    running: nat,
    terminated: nat,
    firstFrame: nat,
    container: Container,   // the environment's container for this application
    lapsed: bool)           // history: the last command to the container failed unnoticed

  function NewContext(handle: nat, appId: AppId): Context {
    Context(handle, appId, "", Unloaded, 0, false, 0, 0, 0, 0, Absent, false)
  }

  function Posts(ctx: Context, signal: Signal): nat {
    match signal
    case AppRunning => ctx.running
    case AppTerminated => ctx.terminated
    case FirstFrame => ctx.firstFrame
  }

  function SetPosts(ctx: Context, signal: Signal, n: nat): Context {
    match signal
    case AppRunning => ctx.(running := n)
    case AppTerminated => ctx.(terminated := n)
    case FirstFrame => ctx.(firstFrame := n)
  }

  /** An event arrives: it says what the container is now, and posts its semaphore. */
  function Signalled(ctx: Context, signal: Signal): Context {
    var told :=
      match signal
      case AppRunning => ctx.(container := Running, lapsed := false)
      case AppTerminated => ctx.(container := Absent)
      case FirstFrame => ctx;
    SetPosts(told, signal, Posts(ctx, signal) + 1)
  }

  function Taken(ctx: Context, signal: Signal): Context
    requires Posts(ctx, signal) > 0
  {
    SetPosts(ctx, signal, Posts(ctx, signal) - 1)
  }

  /** A wait that ends: it takes a post left over from before, or else the event arrives. */
  function Awaited(ctx: Context, signal: Signal): Context {
    if Posts(ctx, signal) > 0 then Taken(ctx, signal) else Taken(Signalled(ctx, signal), signal)
  }

  // ------------------------------------------------- handlers

  datatype Progress = Fails | Succeeds | Waits(signal: Signal)

  datatype Handled = Handled(progress: Progress, ctx: Context, issued: Option<Call>)

  function Command(ctx: Context, call: Call, reply: Reply): Handled {
    if !reply.succeeds(call) then Handled(Fails, ctx, Some(call))
    else
      var c := ctx.(container := Commanded(ctx.container, call),
                    lapsed := if call == RenderReady then ctx.lapsed else false);
      Handled(Succeeds, c, Some(call))
  }

  /** A command whose failure the handler overwrites with success. */
  function Unchecked(ctx: Context, call: Call, reply: Reply): Handled {
    var h := Command(ctx, call, reply);
    if h.progress == Fails then Handled(Succeeds, ctx.(lapsed := true), Some(call)) else h
  }

  /** The handler of state `next`, run while the context is still in its old state, up to
      its end or to its wait; after the wait it succeeds. */
  function Handle(ctx: Context, next: LifecycleState, reply: Reply): Handled {
    var refuse := Handled(Fails, ctx, None);
    var accept := Handled(Succeeds, ctx, None);
    match next
    case Unloaded => accept
    case Loading =>
      accept.(ctx := ctx.(instanceId := reply.uuid, loadingPosts := ctx.loadingPosts + 1))
    case Initializing =>
      if reply.runtime then Unchecked(ctx, Run, reply).(progress := Waits(AppRunning)) else refuse
    case Paused =>
      (match ctx.state
       case Initializing => accept
       case Suspended => if reply.runtime then Unchecked(ctx, Resume, reply) else refuse
       case Active => accept
       case _ => refuse)
    case Active =>
      if !reply.window then accept
      else
        var h := Command(ctx, RenderReady, reply);
        if h.progress == Fails || reply.rendered then h else h.(progress := Waits(FirstFrame))
    case Suspended =>
      if !reply.runtime then refuse
      else if ctx.state == Hibernated then Command(ctx, Wake, reply)
      else Command(ctx, Suspend, reply)
    case Hibernated =>
      if reply.runtime then Command(ctx, Hibernate, reply) else refuse
    case Terminating =>
      if !reply.runtime then refuse
      else
        var h := Command(ctx, if ctx.force then Kill else Terminate, reply);
        if h.progress == Fails then h else h.(progress := Waits(AppTerminated))
  }

  /** The handler as its caller sees it, if it returns. */
  function HandleToEnd(ctx: Context, next: LifecycleState, reply: Reply): (Context, bool) {
    var h := Handle(ctx, next, reply);
    match h.progress
    case Fails => (h.ctx, false)
    case Succeeds => (h.ctx, true)
    case Waits(signal) => (Awaited(h.ctx, signal), true)
  }

  /** StateHandler::updateState: the state changes only when the handler succeeds. */
  function UpdateState(ctx: Context, next: LifecycleState, reply: Reply): (Context, bool) {
    if ctx.state == next then (ctx, true)
    else
      var (c, ok) := HandleToEnd(ctx, next, reply);
      (if ok then c.(state := next) else c, ok)
  }

  // ------------------------------------------------- the walk

  /** A state-change event, with the context it comes from and the change id that
      context carries when it is sent. */
  datatype Event = Event(
    owner: nat, appId: AppId, instanceId: string, changeId: nat,
    oldState: LifecycleState, newState: LifecycleState)

  function NextId(count: nat): nat { (count + 1) % WORD }

  datatype Result = Result(ctx: Context, count: nat, events: seq<Event>, ok: bool) {
    /** This result, preceded by the events of earlier steps. */
    function After(earlier: seq<Event>): Result {
      this.(events := earlier + events)
    }

    lemma AfterTwice(first: seq<Event>, second: seq<Event>)
      ensures After(second).After(first) == After(first + second)
    {
      assert first + (second + events) == first + second + events;
    }
  }

  /** One iteration of the loop in changeState. Entering Terminating is announced
      before its handler runs; every other state after. */
  function Advance(ctx: Context, count: nat, next: LifecycleState, reply: Reply): Result {
    if next == Terminating then
      var event := Event(ctx.handle, ctx.appId, ctx.instanceId, count, ctx.state, Terminating);
      var (c, ok) := UpdateState(ctx.(changeId := count), next, reply);
      Result(c, NextId(count), [event], ok)
    else
      var (c, ok) := UpdateState(ctx, next, reply);
      if !ok then
        Result(c, count, [], false)
      else
        Result(c.(changeId := count), NextId(count),
               [Event(c.handle, c.appId, c.instanceId, count, ctx.state, c.state)], true)
  }

  function Walk(ctx: Context, count: nat, path: seq<LifecycleState>, i: nat, replies: Replies): Result
    decreases |path| - i
  {
    if i >= |path| then
      Result(ctx, count, [], true)
    else
      var r := Advance(ctx, count, path[i], replies(i));
      if !r.ok then r
      else
        Walk(r.ctx, r.count, path, i + 1, replies).After(r.events)
  }

  /** The found path, the target, and UNLOADED after TERMINATING. */
  ghost function FullPath(start: LifecycleState, target: LifecycleState): seq<LifecycleState> {
    Search(TRANSITIONS, start, target, []).path + [target]
    + if target == Terminating then [Unloaded] else []
  }

  /** StateHandler::changeState on a non-null context, if its handlers return. */
  ghost function ChangeState(ctx: Context, count: nat, target: LifecycleState, replies: Replies): Result {
    if ctx.state == target then
      Result(ctx, count, [], true)
    else if !Search(TRANSITIONS, ctx.state, target, []).found then
      Result(ctx, count, [], false)
    else
      Walk(ctx, count, FullPath(ctx.state, target), 1, replies)
  }

  // ------------------------------------------------- the same iteration, cut at its wait

  /** An iteration up to its end or to the wait of its handler. */
  datatype Begun = Begun(ctx: Context, count: nat, events: seq<Event>, progress: Progress)

  /** What follows a handler that has succeeded. */
  function Finish(ctx: Context, count: nat, next: LifecycleState): Result {
    if next == Terminating then
      Result(ctx.(state := Terminating), count, [], true)
    else
      Result(ctx.(state := next, changeId := count), NextId(count),
             [Event(ctx.handle, ctx.appId, ctx.instanceId, count, ctx.state, next)], true)
  }

  function Begin(ctx: Context, count: nat, next: LifecycleState, reply: Reply): Begun {
    if next == Terminating then
      var event := Event(ctx.handle, ctx.appId, ctx.instanceId, count, ctx.state, Terminating);
      var h := Handle(ctx.(changeId := count), next, reply);
      var c := if h.progress == Succeeds then h.ctx.(state := Terminating) else h.ctx;
      Begun(c, NextId(count), [event], h.progress)
    else
      var h := Handle(ctx, next, reply);
      if h.progress == Succeeds then
        var r := Finish(h.ctx, count, next);
        Begun(r.ctx, r.count, r.events, Succeeds)
      else
        Begun(h.ctx, count, [], h.progress)
  }

  /** An iteration is its beginning and, if the handler waits and the wait ends, its finish. */
  lemma AdvanceIsBeginFinish(ctx: Context, count: nat, next: LifecycleState, reply: Reply)
    requires ctx.state != next
    ensures var b := Begin(ctx, count, next, reply);
      Advance(ctx, count, next, reply)
      == if b.progress.Waits? then Finish(Awaited(b.ctx, b.progress.signal), b.count, next).After(b.events)
         else Result(b.ctx, b.count, b.events, b.progress == Succeeds)
  {
  }

  /** The signal that the handler of a state can wait for. */
  predicate WaitsFor(next: LifecycleState, signal: Signal) {
    match signal
    case AppRunning => next == Initializing
    case AppTerminated => next == Terminating
    case FirstFrame => next == Active
  }

  // ------------------------------------------------- reachability in the table

  function Rank(s: LifecycleState): nat {
    match s
    case Unloaded => 0
    case Loading => 1
    case Initializing => 2
    case Terminating => 4
    case _ => 3
  }

  lemma RankAlongEdge(a: LifecycleState, b: LifecycleState)
    requires Edge(TRANSITIONS, a, b)
    ensures Rank(a) < Rank(b) || Rank(a) == Rank(b) == 3
  {
  }

  lemma {:induction false} RankAlongChain(p: seq<LifecycleState>)
    requires |p| > 0 && Chain(TRANSITIONS, p)
    ensures |p| == 1 || Rank(p[0]) < Rank(p[|p| - 1]) || Rank(p[0]) == Rank(p[|p| - 1]) == 3
  {
    if |p| > 1 {
      var q := p[..|p| - 1];
      RankAlongChain(q);
      RankAlongEdge(p[|p| - 2], p[|p| - 1]);
    }
  }

  lemma ReachesPaused(s: LifecycleState)
    requires Rank(s) <= 3
    ensures Reaches(TRANSITIONS, s, Paused)
  {
    EdgeReaches(TRANSITIONS, Unloaded, Loading);
    EdgeReaches(TRANSITIONS, Loading, Initializing);
    EdgeReaches(TRANSITIONS, Initializing, Paused);
    ReachesTransitive(TRANSITIONS, Loading, Initializing, Paused);
    ReachesTransitive(TRANSITIONS, Unloaded, Loading, Paused);
    EdgeReaches(TRANSITIONS, Hibernated, Suspended);
    EdgeReaches(TRANSITIONS, Suspended, Paused);
    ReachesTransitive(TRANSITIONS, Hibernated, Suspended, Paused);
    EdgeReaches(TRANSITIONS, Active, Paused);
    EdgeReaches(TRANSITIONS, Paused, Paused);
  }

  lemma PausedReaches(s: LifecycleState)
    requires Rank(s) >= 3
    ensures Reaches(TRANSITIONS, Paused, s)
  {
    EdgeReaches(TRANSITIONS, Paused, Paused);
    EdgeReaches(TRANSITIONS, Paused, Active);
    EdgeReaches(TRANSITIONS, Paused, Suspended);
    EdgeReaches(TRANSITIONS, Suspended, Hibernated);
    ReachesTransitive(TRANSITIONS, Paused, Suspended, Hibernated);
    EdgeReaches(TRANSITIONS, Paused, Terminating);
  }

  /** Exactly which requests the search accepts: forwards through launch, freely
      among the four loaded states, and from any of them to termination. */
  lemma RequestIsAcceptedIff(start: LifecycleState, target: LifecycleState)
    ensures Search(TRANSITIONS, start, target, []).found
       <==> start == target || Rank(start) < Rank(target) || Rank(start) == Rank(target) == 3
  {
    SearchDecidesReachability(TRANSITIONS, start, target);
    if Reaches(TRANSITIONS, start, target) {
      var p :| IsWalk(TRANSITIONS, start, target, p);
      RankAlongChain(p);
    }
    if start == target {
      EdgeReaches(TRANSITIONS, start, target);
    } else if Rank(start) <= 3 && Rank(target) >= 3 {
      ReachesPaused(start);
      PausedReaches(target);
      ReachesTransitive(TRANSITIONS, start, Paused, target);
    } else if Rank(start) < Rank(target) {
      EdgeReaches(TRANSITIONS, Unloaded, Loading);
      EdgeReaches(TRANSITIONS, Loading, Initializing);
      ReachesTransitive(TRANSITIONS, Unloaded, Loading, Initializing);
    }
  }

  // ------------------------------------------------- shape of the walked path

  /** A step the walk may take: one of the table, or the appended one to UNLOADED. */
  predicate Legal(a: LifecycleState, b: LifecycleState) {
    Edge(TRANSITIONS, a, b) || (a == Terminating && b == Unloaded)
  }

  /** Where a request asks the context to end. */
  function Goal(start: LifecycleState, target: LifecycleState): LifecycleState {
    if target == Terminating && start != Terminating then Unloaded else target
  }

  ghost predicate LegalPath(path: seq<LifecycleState>) {
    && |path| >= 2
    && path[|path| - 1] != Terminating
    && forall i :: 0 <= i < |path| - 1 ==> Legal(path[i], path[i + 1])
  }

  lemma FullPathIsLegal(start: LifecycleState, target: LifecycleState)
    requires start != target && Search(TRANSITIONS, start, target, []).found
    ensures LegalPath(FullPath(start, target)) && FullPath(start, target)[0] == start
    ensures var p := FullPath(start, target); forall j :: 0 <= j < |p| - 1 && p[j] == p[|p| - 1] ==> j == 0
    ensures var p := FullPath(start, target); forall j :: 0 <= j < |p| - 1 ==> Reaches(TRANSITIONS, p[j], target)
  {
    var found := Search(TRANSITIONS, start, target, []).path + [target];
    var p := FullPath(start, target);
    SearchPathIsSimple(TRANSITIONS, start, target);
    forall i | 0 <= i < |p| - 1
      ensures Legal(p[i], p[i + 1])
    {
      if i < |found| - 1 {
        assert Edge(TRANSITIONS, found[i], found[i + 1]);
      }
    }
    if start == Terminating {
      assert Edge(TRANSITIONS, found[0], found[1]);
    }
    forall j | 0 <= j < |p| - 1
      ensures Reaches(TRANSITIONS, p[j], target)
      ensures p[j] == p[|p| - 1] ==> j == 0
    {
      SuffixReaches(TRANSITIONS, found, j);
      if j > 0 {
        assert Edge(TRANSITIONS, found[j - 1], found[j]);
      }
    }
  }

  lemma FullPathIsSimple(start: LifecycleState, target: LifecycleState)
    requires start != target && Search(TRANSITIONS, start, target, []).found
    ensures var p := FullPath(start, target); p[|p| - 1] == Goal(start, target) && NoRepeats(p[..|p| - 1])
  {
    var found := Search(TRANSITIONS, start, target, []).path + [target];
    SearchPathIsSimple(TRANSITIONS, start, target);
    if start == Terminating {
      assert Edge(TRANSITIONS, found[0], found[1]);
    }
  }

  // ------------------------------------------------- one step

  /** `c` is `ctx` but for its semaphores, its container and the history of that. */
  predicate SameRecord(ctx: Context, c: Context) {
    c == ctx.(loadingPosts := c.loadingPosts, running := c.running, terminated := c.terminated,
              firstFrame := c.firstFrame, container := c.container, lapsed := c.lapsed)
  }

  /** A handler that fails changes nothing; LOADING and UNLOADED never fail, and with a
      runtime manager only four states can. Only LOADING touches the record, and only one
      signal can be waited for in each state. */
  lemma HandleOutcome(ctx: Context, next: LifecycleState, reply: Reply)
    requires Legal(ctx.state, next)
    ensures var h := Handle(ctx, next, reply);
      && SameRecord(ctx.(instanceId := if next == Loading then reply.uuid else ctx.instanceId), h.ctx)
      && h.ctx.loadingPosts == ctx.loadingPosts + (if next == Loading then 1 else 0)
      && (next in {Unloaded, Loading} ==> h.progress == Succeeds)
      && (h.progress == Fails ==> h.ctx == ctx && ctx.state != Terminating && ctx.state != Unloaded)
      && (h.progress == Fails && reply.runtime ==> next in {Active, Suspended, Hibernated, Terminating})
      && (h.progress.Waits? ==> WaitsFor(next, h.progress.signal))
      && (next == Terminating ==> h.progress != Succeeds)
  {
  }

  /** Exactly when a handler fails. */
  lemma HandlerFailsIff(ctx: Context, next: LifecycleState, reply: Reply)
    ensures Handle(ctx, next, reply).progress == Fails <==>
      match next
      case Unloaded => false
      case Loading => false
      case Initializing => !reply.runtime
      case Paused => ctx.state != Initializing && ctx.state != Active && (ctx.state != Suspended || !reply.runtime)
      case Active => reply.window && !reply.succeeds(RenderReady)
      case Suspended => !reply.runtime || !reply.succeeds(if ctx.state == Hibernated then Wake else Suspend)
      case Hibernated => !reply.runtime || !reply.succeeds(Hibernate)
      case Terminating => !reply.runtime || !reply.succeeds(if ctx.force then Kill else Terminate)
  {
  }

  /** A handler waits in three cases only: after any run command; after a successful answer
      that the window has not rendered yet; and after a termination command that succeeded. */
  lemma HandlerWaitsIff(ctx: Context, next: LifecycleState, reply: Reply)
    ensures Handle(ctx, next, reply).progress.Waits? <==>
      || (next == Initializing && reply.runtime)
      || (next == Active && reply.window && reply.succeeds(RenderReady) && !reply.rendered)
      || (next == Terminating && reply.runtime && reply.succeeds(if ctx.force then Kill else Terminate))
  {
  }

  lemma AwaitedOutcome(ctx: Context, signal: Signal)
    ensures SameRecord(ctx, Awaited(ctx, signal)) && Awaited(ctx, signal).loadingPosts == ctx.loadingPosts
  {
  }

  lemma LegalMoves(a: LifecycleState, b: LifecycleState)
    requires Legal(a, b)
    ensures a != b && (b == Unloaded <==> a == Terminating)
  {
  }

  /** A successful step arrives; a failed one leaves the state alone, and LOADING
      and UNLOADED never fail. With a runtime manager only four states can. */
  lemma AdvanceOutcome(ctx: Context, count: nat, next: LifecycleState, reply: Reply)
    requires Legal(ctx.state, next)
    ensures var r := Advance(ctx, count, next, reply);
      && r.ctx.handle == ctx.handle && r.ctx.appId == ctx.appId
      && (r.ok ==> r.ctx.state == next)
      && (!r.ok ==> r.ctx.state == ctx.state && ctx.state != Terminating && ctx.state != Unloaded)
      && (!r.ok && reply.runtime ==> next in {Active, Suspended, Hibernated, Terminating})
  {
    hide Handle, Awaited;
    assert ctx.state != next by { LegalMoves(ctx.state, next); }
    var c := if next == Terminating then ctx.(changeId := count) else ctx;
    HandleOutcome(c, next, reply);
    var h := Handle(c, next, reply);
    if h.progress.Waits? {
      AwaitedOutcome(h.ctx, h.progress.signal);
    }
  }

  lemma {:induction false} WalkOutcome(ctx: Context, count: nat, path: seq<LifecycleState>, i: nat, replies: Replies)
    requires LegalPath(path) && 1 <= i <= |path| && ctx.state == path[i - 1]
    ensures var r := Walk(ctx, count, path, i, replies);
      && r.ctx.handle == ctx.handle && r.ctx.appId == ctx.appId
      && (r.ok ==> r.ctx.state == path[|path| - 1])
      && (!r.ok ==> r.ctx.state != Terminating && r.ctx.state != Unloaded
                    && exists j :: i - 1 <= j < |path| - 1 && r.ctx.state == path[j])
    decreases |path| - i
  {
    hide Advance, Legal;
    if i < |path| {
      assert Legal(path[i - 1], path[i]);
      AdvanceOutcome(ctx, count, path[i], replies(i));
      var r := Advance(ctx, count, path[i], replies(i));
      if r.ok {
        WalkOutcome(r.ctx, r.count, path, i + 1, replies);
      } else {
        assert r.ctx.state == path[i - 1];
      }
    }
  }

  // ------------------------------------------------- one request

  /** A request reports success exactly when it ends where it was asked to, for every
      context, target and behaviour of the handlers. */
  lemma SucceedsIffArrived(ctx: Context, count: nat, target: LifecycleState, replies: Replies)
    ensures var r := ChangeState(ctx, count, target, replies);
      r.ok <==> r.ctx.state == Goal(ctx.state, target)
  {
    hide Walk, Search, FullPath, Legal, LegalPath, Edge;
    if ctx.state != target {
      RequestIsAcceptedIff(ctx.state, target);
      if Search(TRANSITIONS, ctx.state, target, []).found {
        FullPathIsLegal(ctx.state, target);
        FullPathIsSimple(ctx.state, target);
        WalkOutcome(ctx, count, FullPath(ctx.state, target), 1, replies);
      }
    }
  }

  /** A failed walk rests on the path at a state from which the target is reachable. */
  lemma FailureIsResumable(ctx: Context, count: nat, target: LifecycleState, replies: Replies)
    requires !ChangeState(ctx, count, target, replies).ok
    ensures var r := ChangeState(ctx, count, target, replies);
      if Search(TRANSITIONS, ctx.state, target, []).found then
        && r.ctx.state in Search(TRANSITIONS, ctx.state, target, []).path
        && r.ctx.state != Terminating
        && Reaches(TRANSITIONS, r.ctx.state, target)
      else
        r == Result(ctx, count, [], false)
  {
    if Search(TRANSITIONS, ctx.state, target, []).found {
      var path := FullPath(ctx.state, target);
      FullPathIsLegal(ctx.state, target);
      WalkOutcome(ctx, count, path, 1, replies);
      var r := ChangeState(ctx, count, target, replies);
      var j :| 0 <= j < |path| - 1 && r.ctx.state == path[j];
      SucceedsIffArrived(ctx, count, target, replies);
    }
  }

  /** Both managers answer and every command succeeds. */
  ghost predicate Benign(replies: Replies) {
    forall i :: replies(i).runtime && forall call :: replies(i).succeeds(call)
  }

  lemma BenignStepArrives(ctx: Context, count: nat, next: LifecycleState, reply: Reply)
    requires Legal(ctx.state, next) && reply.runtime && forall call :: reply.succeeds(call)
    ensures Advance(ctx, count, next, reply).ok
  {
  }

  lemma {:induction false} BenignWalkArrives(
    ctx: Context, count: nat, path: seq<LifecycleState>, i: nat, replies: Replies)
    requires LegalPath(path) && 1 <= i <= |path| && ctx.state == path[i - 1] && Benign(replies)
    ensures Walk(ctx, count, path, i, replies).ok
    decreases |path| - i
  {
    if i < |path| {
      hide Advance, Edge;
      assert Legal(path[i - 1], path[i]);
      var r := Advance(ctx, count, path[i], replies(i));
      BenignStepArrives(ctx, count, path[i], replies(i));
      AdvanceOutcome(ctx, count, path[i], replies(i));
      BenignWalkArrives(r.ctx, r.count, path, i + 1, replies);
    }
  }

  /** Retrying a request that failed on the way completes it once the handlers succeed. */
  lemma RetryCompletes(ctx: Context, count: nat, target: LifecycleState, replies: Replies, retry: Replies)
    requires Search(TRANSITIONS, ctx.state, target, []).found && Benign(retry)
    ensures var r := ChangeState(ctx, count, target, replies);
      !r.ok ==> var again := ChangeState(r.ctx, r.count, target, retry);
        again.ok && again.ctx.state == Goal(r.ctx.state, target)
  {
    var r := ChangeState(ctx, count, target, replies);
    if !r.ok {
      FailureIsResumable(ctx, count, target, replies);
      SearchDecidesReachability(TRANSITIONS, r.ctx.state, target);
      if r.ctx.state != target {
        FullPathIsLegal(r.ctx.state, target);
        BenignWalkArrives(r.ctx, r.count, FullPath(r.ctx.state, target), 1, retry);
      }
      SucceedsIffArrived(r.ctx, r.count, target, retry);
    }
  }

  // ------------------------------------------------- the container behind a context

  /** The container a life-cycle state stands for. */
  function ContainerOf(s: LifecycleState): Container {
    match s
    case Unloaded => Absent
    case Loading => Absent
    case Suspended => Frozen
    case Hibernated => Hibernating
    case Terminating => Absent
    case _ => Running
  }

  predicate Mirrors(ctx: Context) {
    ctx.container == ContainerOf(ctx.state)
  }

  /** With both managers present, a step issues a command exactly when the container has to
      change, or to enter ACTIVE; the command is one that brings the container where the
      next state needs it; and termination kills exactly when forced. */
  lemma CommandsFollowStates(ctx: Context, next: LifecycleState, reply: Reply)
    requires Legal(ctx.state, next) && reply.runtime && reply.window
    ensures var issued := Handle(ctx, next, reply).issued;
      && (issued.Some? <==> ContainerOf(ctx.state) != ContainerOf(next) || next == Active)
      && (issued.Some? ==> Commanded(ContainerOf(ctx.state), issued.value) == ContainerOf(next))
      && (next == Terminating ==> (issued == Some(Kill) <==> ctx.force))
  {
  }

  /** The guard of the two branches in which a failure goes unnoticed. */
  predicate IgnoredFailure(ctx: Context, next: LifecycleState, reply: Reply) {
    && reply.runtime
    && (|| (next == Paused && ctx.state == Suspended && !reply.succeeds(Resume))
        || (next == Initializing && !reply.succeeds(Run) && ctx.running > 0))
  }

  lemma HandlerMirrors(ctx: Context, next: LifecycleState, reply: Reply)
    requires Legal(ctx.state, next) && Mirrors(ctx)
    ensures var h := Handle(ctx, next, reply);
      && (h.issued.Some? ==> Suits(ctx.container, h.issued.value))
      && (h.progress == Succeeds ==> (h.ctx.container == ContainerOf(next) <==> !IgnoredFailure(ctx, next, reply)))
      && (h.progress.Waits? ==>
            (Awaited(h.ctx, h.progress.signal).container == ContainerOf(next) <==> !IgnoredFailure(ctx, next, reply)))
      && (h.progress == Fails ==> !IgnoredFailure(ctx, next, reply))
  {
  }

  lemma IterationMirrors(ctx: Context, count: nat, next: LifecycleState, reply: Reply)
    requires Legal(ctx.state, next) && Mirrors(ctx)
    ensures Mirrors(Advance(ctx, count, next, reply).ctx) <==> !IgnoredFailure(ctx, next, reply)
  {
    var c := if next == Terminating then ctx.(changeId := count) else ctx;
    HandlerMirrors(c, next, reply);
    HandleOutcome(c, next, reply);
    LegalMoves(ctx.state, next);
    hide Handle, Awaited, Legal;
    var h := Handle(c, next, reply);
    if h.progress.Waits? {
      AwaitedOutcome(h.ctx, h.progress.signal);
    }
  }

  /** From a context in step with its container, a step issues only the command that suits
      the container and takes it where the next state needs it, and leaves the two out of step
      exactly when a resume fails, or when a run fails while a "running" post is left over, so
      that nothing is waited for. */
  lemma StepMirrorsIff(ctx: Context, count: nat, next: LifecycleState, reply: Reply)
    requires Legal(ctx.state, next) && Mirrors(ctx)
    ensures var issued := Handle(ctx, next, reply).issued; issued.Some? ==> Suits(ctx.container, issued.value)
    ensures var issued := Handle(ctx, next, reply).issued;
      reply.runtime && reply.window && issued.Some? ==>
        Commanded(ctx.container, issued.value) == ContainerOf(next)
    ensures Mirrors(Advance(ctx, count, next, reply).ctx) <==> !IgnoredFailure(ctx, next, reply)
  {
    hide Handle, Advance;
    HandlerMirrors(ctx, next, reply);
    IterationMirrors(ctx, count, next, reply);
    if reply.runtime && reply.window {
      CommandsFollowStates(ctx, next, reply);
    }
  }

  /** The handler of TERMINATING fails exactly when there is no runtime manager or it
      refuses the command that the kill flag selects. */
  lemma TerminationFailsIff(ctx: Context, count: nat, reply: Reply)
    ensures Begin(ctx, count, Terminating, reply).progress == Fails
       <==> !reply.runtime || !reply.succeeds(if ctx.force then Kill else Terminate)
  {
  }
}
