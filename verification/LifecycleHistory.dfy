/**
 * The history of events: for each context the chain that an observer can replay to its
 * current state, over all contexts the consecutive change ids, and how both survive
 * each piece of a transition.
 */
module LifecycleHistory {
  import opened Common
  import opened TransitionSearch
  import opened Lifecycle

  // ------------------------------------------------- one context's events

  /** The state a context rests in after the first `k` events. An announced
      termination that has not been followed by UNLOADED did not happen. */
  function RestAt(evs: seq<Event>, k: nat): LifecycleState
    requires k <= |evs|
  {
    if k == 0 then Unloaded
    else if evs[k - 1].newState == Terminating then evs[k - 1].oldState
    else evs[k - 1].newState
  }

  predicate AnnouncedTermination(evs: seq<Event>, k: nat)
    requires k <= |evs|
  {
    k > 0 && evs[k - 1].newState == Terminating
  }

  ghost predicate LinkedAt(evs: seq<Event>, k: nat)
    requires k < |evs|
  {
    var e := evs[k];
    && (if e.newState == Unloaded then
          e.oldState == Terminating && AnnouncedTermination(evs, k)
        else
          e.oldState == RestAt(evs, k) && Edge(TRANSITIONS, e.oldState, e.newState))
    && e.instanceId != ""
    && (k > 0 && e.instanceId != evs[k - 1].instanceId ==> e.newState == Loading)
  }

  /** Each event leaves the state that the earlier ones led to, by a step of the table;
      UNLOADED is re-entered only from TERMINATING; the instance id is set and changes
      only on LOADING. */
  ghost predicate Linked(evs: seq<Event>) {
    forall k :: 0 <= k < |evs| ==> LinkedAt(evs, k)
  }

  /** `s` is the current state, given the events so far. */
  predicate Standing(evs: seq<Event>, s: LifecycleState) {
    if s == Terminating then AnnouncedTermination(evs, |evs|) else RestAt(evs, |evs|) == s
  }

  ghost predicate ContextInv(ctx: Context, evs: seq<Event>) {
    && Linked(evs)
    && Standing(evs, ctx.state)
    && (if evs == [] then ctx.instanceId == "" && ctx.loadingPosts == 0
        else ctx.instanceId == evs[|evs| - 1].instanceId && ctx.changeId == evs[|evs| - 1].changeId)
  }

  lemma LinkedAppend(evs: seq<Event>, e: Event)
    requires Linked(evs) && LinkedAt(evs + [e], |evs|)
    ensures Linked(evs + [e])
  {
    forall k | 0 <= k < |evs|
      ensures LinkedAt(evs + [e], k)
    {
      assert LinkedAt(evs, k);
    }
  }

  /** Event `k` leaves the state that the one before it entered. */
  predicate Follows(evs: seq<Event>, k: nat)
    requires k < |evs|
  {
    evs[k].oldState == if k == 0 then Unloaded else evs[k - 1].newState
  }

  /** If event `k` announces a termination, the next one completes it. */
  predicate Completes(evs: seq<Event>, k: nat)
    requires k < |evs|
  {
    evs[k].newState == Terminating ==> k + 1 < |evs| && evs[k + 1].newState == Unloaded
  }

  lemma LinkedFacts(evs: seq<Event>, k: nat)
    requires Linked(evs) && k < |evs|
    ensures evs[k].oldState == Terminating <==> evs[k].newState == Unloaded
    ensures evs[k].newState == Unloaded ==> AnnouncedTermination(evs, k)
    ensures evs[k].newState != Unloaded ==> evs[k].oldState == RestAt(evs, k)
  {
    assert LinkedAt(evs, k);
  }

  lemma FollowsIffCompleted(evs: seq<Event>, k: nat)
    requires Linked(evs) && k + 1 < |evs|
    ensures Follows(evs, k + 1) <==> Completes(evs, k)
  {
    LinkedFacts(evs, k);
    LinkedFacts(evs, k + 1);
    hide Linked;
  }

  /** How many of the events announce a termination, and how many complete one. */
  function Announced(evs: seq<Event>): nat {
    if evs == [] then 0
    else Announced(evs[..|evs| - 1]) + if evs[|evs| - 1].newState == Terminating then 1 else 0
  }

  function Unloadings(evs: seq<Event>): nat {
    if evs == [] then 0
    else Unloadings(evs[..|evs| - 1]) + if evs[|evs| - 1].newState == Unloaded then 1 else 0
  }

  ghost predicate AllComplete(evs: seq<Event>) {
    forall k :: 0 <= k < |evs| ==> Completes(evs, k)
  }

  lemma LinkedPrefix(evs: seq<Event>, n: nat)
    requires Linked(evs) && n <= |evs|
    ensures Linked(evs[..n])
  {
    forall k | 0 <= k < n
      ensures LinkedAt(evs[..n], k)
    {
      assert LinkedAt(evs, k);
    }
  }

  /** Cutting off events that complete nothing before the cut leaves completeness there. */
  lemma CompletePrefix(evs: seq<Event>, n: nat, k: nat)
    requires k < n <= |evs| && (n < |evs| ==> evs[n].newState != Unloaded)
    ensures Completes(evs[..n], k) <==> Completes(evs, k)
  {
  }

  /** All announced terminations are completed exactly when the two counts agree. */
  lemma {:induction false} CompleteIffCountsAgree(evs: seq<Event>)
    requires Linked(evs)
    ensures Unloadings(evs) <= Announced(evs)
    ensures AllComplete(evs) <==> Announced(evs) == Unloadings(evs)
    decreases |evs|
  {
    if evs != [] {
      var n := |evs|;
      var last := evs[n - 1];
      LinkedFacts(evs, n - 1);
      var m := if last.newState == Unloaded then n - 2 else n - 1;
      LinkedPrefix(evs, m);
      CompleteIffCountsAgree(evs[..m]);
      if m == n - 2 {
        assert evs[..n - 1][..n - 2] == evs[..n - 2];
      }
      forall k | 0 <= k < m
        ensures Completes(evs[..m], k) <==> Completes(evs, k)
      {
        CompletePrefix(evs, m, k);
      }
      if last.newState == Unloaded {
        assert Completes(evs, n - 2) && Completes(evs, n - 1);
      } else {
        assert Completes(evs, n - 1) <==> last.newState != Terminating;
      }
      hide Completes, Linked;
      if AllComplete(evs[..m]) && last.newState != Terminating {
        forall k | 0 <= k < n
          ensures Completes(evs, k)
        {
          assert k < m ==> (Completes(evs[..m], k) <==> Completes(evs, k));
        }
      }
      if AllComplete(evs) {
        forall k | 0 <= k < m
          ensures Completes(evs[..m], k)
        {
          assert Completes(evs, k);
        }
      }
    }
  }

  /** Each event starts where the one before it ended, from UNLOADED to `s`. */
  ghost predicate PlainChain(evs: seq<Event>, s: LifecycleState) {
    && (forall k :: 0 <= k < |evs| ==> Follows(evs, k))
    && s == if evs == [] then Unloaded else evs[|evs| - 1].newState
  }

  /** The events form a plain chain that ends in the current state exactly when every
      announced termination was completed. */
  lemma PlainChainIff(evs: seq<Event>, s: LifecycleState)
    requires Linked(evs) && Standing(evs, s) && s != Terminating
    ensures PlainChain(evs, s) <==> AllComplete(evs)
  {
    if evs == [] {
      return;
    }
    var n := |evs|;
    LinkedFacts(evs, 0);
    assert Follows(evs, 0);
    assert evs[n - 1].newState == s <==> Completes(evs, n - 1) by {
      LinkedFacts(evs, n - 1);
    }
    forall k | 0 <= k < n - 1
      ensures Follows(evs, k + 1) <==> Completes(evs, k)
    {
      FollowsIffCompleted(evs, k);
    }
    hide Linked, Follows, Completes;
    if AllComplete(evs) {
      forall k | 0 < k < n
        ensures Follows(evs, k)
      {
        assert Completes(evs, k - 1) && Follows(evs, k - 1 + 1);
      }
    }
  }

  // ------------------------------------------------- one context, piece by piece

  /** A context with its events and the number of its termination handlers that failed;
      `pending` is one while an announced termination may still be completed. */
  ghost predicate Record(ctx: Context, evs: seq<Event>, refusals: nat, pending: nat) {
    && ContextInv(ctx, evs)
    && Announced(evs) == Unloadings(evs) + refusals + pending
  }

  lemma CountsAppend(evs: seq<Event>, e: Event)
    ensures Announced(evs + [e]) == Announced(evs) + if e.newState == Terminating then 1 else 0
    ensures Unloadings(evs + [e]) == Unloadings(evs) + if e.newState == Unloaded then 1 else 0
  {
    assert (evs + [e])[..|evs + [e]| - 1] == evs;
  }

  /** Semaphores, container and kill flag are not part of the history, except that the
      "reached loading" semaphore is posted only once there is one. */
  lemma TouchKeepsContext(ctx: Context, c: Context, evs: seq<Event>)
    requires ContextInv(ctx, evs)
    requires SameRecord(ctx.(force := c.force), c) && c.loadingPosts <= ctx.loadingPosts
    ensures ContextInv(c, evs)
  {
  }

  /** A termination announced and not yet carried out. */
  lemma AnnounceKeepsContext(ctx: Context, e: Event, evs: seq<Event>)
    requires ContextInv(ctx, evs) && Edge(TRANSITIONS, ctx.state, Terminating)
    requires e == Event(ctx.handle, ctx.appId, ctx.instanceId, e.changeId, ctx.state, Terminating)
    ensures ContextInv(ctx.(changeId := e.changeId), evs + [e])
  {
    assert evs != [] && LinkedAt(evs, |evs| - 1);
    assert RestAt(evs + [e], |evs|) == RestAt(evs, |evs|);
    assert LinkedAt(evs + [e], |evs|);
    LinkedAppend(evs, e);
  }

  /** Any other state, entered and then announced. */
  lemma EnterKeepsContext(before: Context, ctx: Context, count: nat, next: LifecycleState, evs: seq<Event>)
    requires ContextInv(before, evs) && Legal(before.state, next) && next != Terminating
    requires ctx.state == before.state
    requires if next == Loading then ctx.instanceId != "" else ctx.instanceId == before.instanceId
    ensures var r := Finish(ctx, count, next); ContextInv(r.ctx, evs + r.events)
  {
    var e := Finish(ctx, count, next).events[0];
    assert Finish(ctx, count, next).events == [e];
    assert RestAt(evs + [e], |evs|) == RestAt(evs, |evs|);
    if evs == [] {
      assert next == Loading;
    } else {
      assert LinkedAt(evs, |evs| - 1);
    }
    LegalMoves(before.state, next);
    assert LinkedAt(evs + [e], |evs|);
    LinkedAppend(evs, e);
  }

  function PendingAt(s: LifecycleState): nat { if s == Terminating then 1 else 0 }

  lemma AnnounceStep(ctx: Context, e: Event, evs: seq<Event>)
    requires ContextInv(ctx, evs) && Legal(ctx.state, Terminating)
    requires e == Event(ctx.handle, ctx.appId, ctx.instanceId, e.changeId, ctx.state, Terminating)
    ensures ContextInv(ctx.(changeId := e.changeId), evs + [e]) && ctx.state != Terminating
  {
    AnnounceKeepsContext(ctx, e, evs);
  }

  lemma TerminateKeepsRecord(ctx: Context, count: nat, c: Context, evs: seq<Event>, refusals: nat)
    requires Record(ctx, evs, refusals, 0) && Legal(ctx.state, Terminating)
    requires SameRecord(ctx.(changeId := count), c) && c.loadingPosts <= ctx.loadingPosts
    ensures var e := Event(ctx.handle, ctx.appId, ctx.instanceId, count, ctx.state, Terminating);
      && Record(c, evs + [e], refusals, 1) && Record(c, evs + [e], refusals + 1, 0)
      && AnnouncedTermination(evs + [e], |evs + [e]|)
  {
    var e := Event(ctx.handle, ctx.appId, ctx.instanceId, count, ctx.state, Terminating);
    AnnounceStep(ctx, e, evs);
    CountsAppend(evs, e);
    hide Linked, Standing;
    TouchKeepsContext(ctx.(changeId := count), c, evs + [e]);
  }

  lemma EnterKeepsRecord(
    before: Context, ctx: Context, count: nat, next: LifecycleState, evs: seq<Event>, refusals: nat)
    requires Record(before, evs, refusals, PendingAt(before.state))
    requires Legal(before.state, next) && next != Terminating && ctx.state == before.state
    requires if next == Loading then ctx.instanceId != "" else ctx.instanceId == before.instanceId
    ensures var r := Finish(ctx, count, next); Record(r.ctx, evs + r.events, refusals, 0)
  {
    var r := Finish(ctx, count, next);
    LegalMoves(before.state, next);
    EnterKeepsContext(before, ctx, count, next, evs);
    CountsAppend(evs, r.events[0]);
    assert r.events == [r.events[0]];
    hide ContextInv;
  }

  lemma TouchKeepsRecord(ctx: Context, c: Context, evs: seq<Event>, refusals: nat)
    requires Record(ctx, evs, refusals, PendingAt(ctx.state))
    requires SameRecord(ctx, c) && c.loadingPosts <= ctx.loadingPosts
    ensures Record(c, evs, refusals, PendingAt(ctx.state))
  {
    TouchKeepsContext(ctx, c, evs);
  }

  lemma BeginTermination(ctx: Context, count: nat, reply: Reply, evs: seq<Event>, refusals: nat)
    requires Record(ctx, evs, refusals, PendingAt(ctx.state)) && Legal(ctx.state, Terminating)
    ensures var b := Begin(ctx, count, Terminating, reply); var evs' := evs + b.events;
      && b.ctx.handle == ctx.handle && b.ctx.appId == ctx.appId && b.ctx.state == ctx.state != Terminating
      && b.progress != Succeeds && Record(b.ctx, evs', refusals + 1, 0) && Record(b.ctx, evs', refusals, 1)
      && (b.progress.Waits? ==>
            WaitsFor(Terminating, b.progress.signal) && AnnouncedTermination(evs', |evs'|))
  {
    LegalMoves(ctx.state, Terminating);
    HandleOutcome(ctx.(changeId := count), Terminating, reply);
    hide Handle, Legal, Record;
    TerminateKeepsRecord(ctx, count, Handle(ctx.(changeId := count), Terminating, reply).ctx, evs, refusals);
  }

  lemma WaitsBeforeTerminating(state: LifecycleState, next: LifecycleState, progress: Progress)
    requires Legal(state, next) && next != Terminating
    requires progress.Waits? ==> WaitsFor(next, progress.signal)
    requires progress == Fails ==> state != Terminating
    ensures progress != Succeeds ==> state != Terminating
  {
  }

  lemma BeginOther(ctx: Context, count: nat, next: LifecycleState, reply: Reply, evs: seq<Event>, refusals: nat)
    requires Record(ctx, evs, refusals, PendingAt(ctx.state)) && Legal(ctx.state, next) && next != Terminating
    ensures var b := Begin(ctx, count, next, reply); var evs' := evs + b.events;
      && b.ctx.handle == ctx.handle && b.ctx.appId == ctx.appId
      && b.ctx.state == (if b.progress == Succeeds then next else ctx.state)
      && (b.progress == Fails ==> b.ctx.state != Terminating)
      && (b.progress.Waits? ==> WaitsFor(next, b.progress.signal))
      && Record(b.ctx, evs', refusals, 0)
  {
    LegalMoves(ctx.state, next);
    HandleOutcome(ctx, next, reply);
    hide Handle, Legal, Record;
    var h := Handle(ctx, next, reply);
    if h.progress == Succeeds {
      EnterKeepsRecord(ctx, h.ctx, count, next, evs, refusals);
    } else {
      WaitsBeforeTerminating(ctx.state, next, h.progress);
      TouchKeepsRecord(ctx, h.ctx, evs, refusals);
      assert evs + [] == evs;
    }
  }

  /** The beginning of an iteration keeps the record of its context; a failed TERMINATING
      handler is counted, and one that waits leaves its announcement pending. */
  lemma BeginKeepsRecord(
    ctx: Context, count: nat, next: LifecycleState, reply: Reply, evs: seq<Event>, refusals: nat)
    requires Record(ctx, evs, refusals, PendingAt(ctx.state)) && Legal(ctx.state, next)
    ensures var b := Begin(ctx, count, next, reply); var evs' := evs + b.events;
      && b.ctx.handle == ctx.handle && b.ctx.appId == ctx.appId
      && b.ctx.state == (if b.progress == Succeeds then next else ctx.state)
      && (b.progress == Fails ==>
            b.ctx.state != Terminating && Record(b.ctx, evs', refusals + PendingAt(next), 0))
      && (b.progress == Succeeds ==> next != Terminating && Record(b.ctx, evs', refusals, 0))
      && (b.progress.Waits? ==>
            && WaitsFor(next, b.progress.signal)
            && Record(b.ctx, evs', refusals, PendingAt(next))
            && (next == Terminating ==> AnnouncedTermination(evs', |evs'|)))
  {
    hide Begin, Record, Legal;
    if next == Terminating {
      BeginTermination(ctx, count, reply, evs, refusals);
    } else {
      BeginOther(ctx, count, next, reply, evs, refusals);
    }
  }

  /** So does its finish, after a wait. */
  lemma FinishKeepsRecord(ctx: Context, count: nat, next: LifecycleState, evs: seq<Event>, refusals: nat)
    requires Record(ctx, evs, refusals, PendingAt(next)) && Legal(ctx.state, next)
    requires next in {Initializing, Active, Terminating}
    requires next == Terminating ==> AnnouncedTermination(evs, |evs|)
    ensures var r := Finish(ctx, count, next);
      && r.ctx.handle == ctx.handle && r.ctx.appId == ctx.appId && r.ctx.state == next
      && Record(r.ctx, evs + r.events, refusals, PendingAt(next))
  {
    var r := Finish(ctx, count, next);
    if next == Terminating {
      assert evs + [] == evs;
    } else {
      EnterKeepsContext(ctx, ctx, count, next, evs);
      CountsAppend(evs, r.events[0]);
      assert r.events == [r.events[0]];
    }
  }

  // ------------------------------------------------- all contexts together

  /** Every context ever created, in order of creation; the shared change counter; everything
      sent to the event handler; and, as history, whose TERMINATING handlers failed. A
      context's handle is its position. */
  datatype Engine = Engine(contexts: seq<Context>, count: nat, events: seq<Event>, refused: seq<nat>)

  const FRESH_ENGINE := Engine([], 0, [], [])

  /** The events of one context. */
  function Of(evs: seq<Event>, h: nat): seq<Event> {
    if evs == [] then []
    else
      var last := evs[|evs| - 1];
      Of(evs[..|evs| - 1], h) + (if last.owner == h then [last] else [])
  }

  lemma {:induction false} OfConcat(xs: seq<Event>, ys: seq<Event>, h: nat)
    ensures Of(xs + ys, h) == Of(xs, h) + Of(ys, h)
  {
    if ys == [] {
      assert xs + ys == xs;
    } else {
      var front := ys[..|ys| - 1];
      assert (xs + ys)[..|xs + ys| - 1] == xs + front;
      OfConcat(xs, front, h);
    }
  }

  lemma {:induction false} OfUniform(ys: seq<Event>, owner: nat, h: nat)
    requires forall k :: 0 <= k < |ys| ==> ys[k].owner == owner
    ensures Of(ys, h) == if h == owner then ys else []
  {
    if ys != [] {
      OfUniform(ys[..|ys| - 1], owner, h);
    }
  }

  lemma {:induction false} OfNobody(evs: seq<Event>, h: nat)
    requires forall k :: 0 <= k < |evs| ==> evs[k].owner != h
    ensures Of(evs, h) == []
  {
    if evs != [] {
      OfNobody(evs[..|evs| - 1], h);
    }
  }

  /** Every element of a context's events is one of all events, and its own. */
  lemma {:induction false} OfMembers(evs: seq<Event>, h: nat, e: Event)
    ensures e in Of(evs, h) <==> e in evs && e.owner == h
  {
    if evs != [] {
      OfMembers(evs[..|evs| - 1], h, e);
      assert evs == evs[..|evs| - 1] + [evs[|evs| - 1]];
    }
  }

  ghost predicate Consecutive(e: Engine) {
    && e.count == |e.events| % WORD
    && forall k :: 0 <= k < |e.events| ==> e.events[k].changeId == k % WORD
  }

  /** The worker may be in the middle of a request on context `busy`; `pending` is its
      record's pending termination, and every other context is at rest. */
  ghost predicate ContextOk(e: Engine, h: nat, busy: Option<nat>, pending: nat)
    requires h < |e.contexts|
  {
    var ctx := e.contexts[h];
    && ctx.handle == h
    && Record(ctx, Of(e.events, h), multiset(e.refused)[h], if busy == Some(h) then pending else 0)
    && (ctx.state == Terminating ==> busy == Some(h))
  }

  ghost predicate EngineInv(e: Engine, busy: Option<nat>, pending: nat) {
    && Consecutive(e)
    && (forall k :: 0 <= k < |e.events| ==> e.events[k].owner < |e.contexts|)
    && (forall h :: 0 <= h < |e.contexts| ==> ContextOk(e, h, busy, pending))
  }

  /** The engine after something has happened to context `h`. */
  function Put(e: Engine, h: nat, ctx: Context, count: nat, events: seq<Event>): Engine
    requires h < |e.contexts|
  {
    e.(contexts := e.contexts[h := ctx], count := count, events := e.events + events)
  }

  function Refuse(e: Engine, h: nat): Engine {
    e.(refused := e.refused + [h])
  }

  /** At most one event, numbered by the counter, which then moves on. */
  predicate Numbered(count: nat, count': nat, events: seq<Event>, h: nat) {
    if events == [] then count' == count
    else |events| == 1 && events[0].changeId == count && events[0].owner == h && count' == NextId(count)
  }

  lemma PutKeepsConsecutive(e: Engine, h: nat, ctx: Context, count: nat, events: seq<Event>)
    requires Consecutive(e) && h < |e.contexts| && Numbered(e.count, count, events, h)
    ensures Consecutive(Put(e, h, ctx, count, events))
  {
  }

  /** The engine after an iteration, or part of one, on context `h`. */
  function PutOrRefuse(e: Engine, h: nat, ctx: Context, count: nat, events: seq<Event>, failed: bool): Engine
    requires h < |e.contexts|
  {
    if failed then Refuse(Put(e, h, ctx, count, events), h) else Put(e, h, ctx, count, events)
  }

  lemma OfPut(evs: seq<Event>, count: nat, count': nat, events: seq<Event>, h: nat, g: nat)
    requires Numbered(count, count', events, h)
    ensures Of(evs + events, g) == if g == h then Of(evs, g) + events else Of(evs, g)
  {
    if events == [] {
      assert evs + events == evs && Of(evs, g) + [] == Of(evs, g);
    } else {
      assert (evs + events)[..|evs + events| - 1] == evs && events == [events[0]];
    }
  }

  lemma RefusalsAppend(refused: seq<nat>, h: nat, g: nat)
    ensures multiset(refused + [h])[g] == multiset(refused)[g] + if g == h then 1 else 0
  {
  }

  lemma PutKeepsContext(
    e: Engine, h: nat, ctx: Context, count: nat, events: seq<Event>, failed: bool,
    pending: nat, pending': nat, g: nat)
    requires h < |e.contexts| && g < |e.contexts| && ContextOk(e, g, Some(h), pending)
    requires Numbered(e.count, count, events, h) && ctx.handle == h
    requires Record(ctx, Of(e.events, h) + events, multiset(e.refused)[h] + (if failed then 1 else 0), pending')
    ensures ContextOk(PutOrRefuse(e, h, ctx, count, events, failed), g, Some(h), pending')
  {
    OfPut(e.events, e.count, count, events, h, g);
    RefusalsAppend(e.refused, h, g);
    hide Record, Numbered, Of;
  }

  lemma ConsecutiveIgnoresRefusals(e: Engine, h: nat)
    ensures Consecutive(Refuse(e, h)) <==> Consecutive(e)
  {
  }

  lemma PutKeepsOwners(e: Engine, h: nat, ctx: Context, count: nat, events: seq<Event>, failed: bool)
    requires h < |e.contexts| && Numbered(e.count, count, events, h)
    requires forall k :: 0 <= k < |e.events| ==> e.events[k].owner < |e.contexts|
    ensures var e' := PutOrRefuse(e, h, ctx, count, events, failed);
      && |e'.contexts| == |e.contexts|
      && e'.count == count && e'.events == e.events + events
      && forall k :: 0 <= k < |e'.events| ==> e'.events[k].owner < |e'.contexts|
  {
  }

  lemma PutKeepsInv(
    e: Engine, h: nat, ctx: Context, count: nat, events: seq<Event>, failed: bool,
    pending: nat, pending': nat)
    requires h < |e.contexts| && EngineInv(e, Some(h), pending)
    requires Numbered(e.count, count, events, h) && ctx.handle == h
    requires Record(ctx, Of(e.events, h) + events, multiset(e.refused)[h] + (if failed then 1 else 0), pending')
    ensures EngineInv(PutOrRefuse(e, h, ctx, count, events, failed), Some(h), pending')
  {
    hide Record, Consecutive, ContextOk, Of, Numbered;
    var e' := PutOrRefuse(e, h, ctx, count, events, failed);
    PutKeepsConsecutive(e, h, ctx, count, events);
    PutKeepsOwners(e, h, ctx, count, events, failed);
    ConsecutiveIgnoresRefusals(Put(e, h, ctx, count, events), h);
    hide PutOrRefuse;
    forall g | 0 <= g < |e'.contexts|
      ensures ContextOk(e', g, Some(h), pending')
    {
      PutKeepsContext(e, h, ctx, count, events, failed, pending, pending', g);
    }
  }

  /** Between requests a context at rest is nobody's business, and any may be taken up. */
  lemma BusyChanges(e: Engine, h: nat)
    requires h < |e.contexts| && (EngineInv(e, None, 0) || EngineInv(e, Some(h), 0))
    requires e.contexts[h].state != Terminating
    ensures EngineInv(e, None, 0) && EngineInv(e, Some(h), 0)
  {
    hide Record, Consecutive;
    forall g | 0 <= g < |e.contexts|
      ensures ContextOk(e, g, None, 0) && ContextOk(e, g, Some(h), 0)
    {
      assert ContextOk(e, g, None, 0) || ContextOk(e, g, Some(h), 0);
    }
  }

  /** Clients and events may touch any context at any time. */
  lemma TouchKeepsInv(e: Engine, h: nat, c: Context, busy: Option<nat>, pending: nat)
    requires h < |e.contexts| && EngineInv(e, busy, pending)
    requires SameRecord(e.contexts[h].(force := c.force), c) && c.loadingPosts <= e.contexts[h].loadingPosts
    ensures EngineInv(e.(contexts := e.contexts[h := c]), busy, pending)
  {
    var e' := e.(contexts := e.contexts[h := c]);
    hide Linked, Standing;
    forall g | 0 <= g < |e'.contexts|
      ensures ContextOk(e', g, busy, pending)
    {
      assert ContextOk(e, g, busy, pending);
      if g == h {
        TouchKeepsContext(e.contexts[h], c, Of(e.events, h));
      }
    }
  }

  function Create(e: Engine, app: AppId): Engine {
    e.(contexts := e.contexts + [NewContext(|e.contexts|, app)])
  }

  lemma CreateKeepsInv(e: Engine, app: AppId, busy: Option<nat>, pending: nat)
    requires EngineInv(e, busy, pending)
    requires busy.Some? ==> busy.value < |e.contexts|
    requires forall k :: 0 <= k < |e.refused| ==> e.refused[k] < |e.contexts|
    ensures EngineInv(Create(e, app), busy, pending)
  {
    var e' := Create(e, app);
    var n := |e.contexts|;
    OfNobody(e.events, n);
    assert n !in e.refused;
    hide Consecutive;
    forall h | 0 <= h < |e'.contexts|
      ensures ContextOk(e', h, busy, pending)
    {
      if h < n {
        assert ContextOk(e, h, busy, pending);
      }
    }
  }

  /** The beginning of an iteration on context `h`. */
  function Began(e: Engine, h: nat, next: LifecycleState, reply: Reply): Engine
    requires h < |e.contexts|
  {
    var b := Begin(e.contexts[h], e.count, next, reply);
    PutOrRefuse(e, h, b.ctx, b.count, b.events, next == Terminating && b.progress == Fails)
  }

  lemma BeginIsNumbered(ctx: Context, count: nat, next: LifecycleState, reply: Reply)
    requires Legal(ctx.state, next)
    ensures var b := Begin(ctx, count, next, reply); Numbered(count, b.count, b.events, ctx.handle)
  {
    HandleOutcome(ctx, next, reply);
    hide Handle;
  }

  lemma BeganRecord(e: Engine, h: nat, next: LifecycleState, reply: Reply)
    requires h < |e.contexts| && EngineInv(e, Some(h), PendingAt(e.contexts[h].state))
    requires Legal(e.contexts[h].state, next)
    ensures var ctx := e.contexts[h]; var b := Begin(ctx, e.count, next, reply);
      var evs := Of(e.events, h) + b.events;
      && b.ctx.handle == h && b.ctx.appId == ctx.appId
      && Numbered(e.count, b.count, b.events, h)
      && b.ctx.state == (if b.progress == Succeeds then next else ctx.state)
      && (b.progress == Fails ==> b.ctx.state != Terminating)
      && (b.progress == Succeeds ==> next != Terminating)
      && (b.progress.Waits? ==>
            WaitsFor(next, b.progress.signal) && (next == Terminating ==> AnnouncedTermination(evs, |evs|)))
      && Record(b.ctx, evs,
                multiset(e.refused)[h] + (if next == Terminating && b.progress == Fails then 1 else 0),
                if b.progress.Waits? then PendingAt(next) else 0)
  {
    assert ContextOk(e, h, Some(h), PendingAt(e.contexts[h].state));
    hide Begin, Record, EngineInv;
    BeginKeepsRecord(e.contexts[h], e.count, next, reply, Of(e.events, h), multiset(e.refused)[h]);
    BeginIsNumbered(e.contexts[h], e.count, next, reply);
  }

  lemma BeganKeepsInv(e: Engine, h: nat, next: LifecycleState, reply: Reply)
    requires h < |e.contexts| && EngineInv(e, Some(h), PendingAt(e.contexts[h].state))
    requires Legal(e.contexts[h].state, next)
    ensures var e' := Began(e, h, next, reply);
      var b := Begin(e.contexts[h], e.count, next, reply); var evs := Of(e'.events, h);
      && |e'.contexts| == |e.contexts|
      && e'.contexts[h] == b.ctx && b.ctx.appId == e.contexts[h].appId
      && b.ctx.state == (if b.progress == Succeeds then next else e.contexts[h].state)
      && (b.progress == Fails ==> b.ctx.state != Terminating)
      && (b.progress == Succeeds ==> next != Terminating)
      && (b.progress.Waits? ==>
            WaitsFor(next, b.progress.signal) && (next == Terminating ==> AnnouncedTermination(evs, |evs|)))
      && EngineInv(e', Some(h), if b.progress.Waits? then PendingAt(next) else 0)
  {
    var ctx, evs := e.contexts[h], Of(e.events, h);
    var b := Begin(ctx, e.count, next, reply);
    var failed := next == Terminating && b.progress == Fails;
    BeganRecord(e, h, next, reply);
    OfPut(e.events, e.count, b.count, b.events, h, h);
    hide Begin, Record, EngineInv, Of, AnnouncedTermination, Numbered, Legal;
    PutKeepsInv(e, h, b.ctx, b.count, b.events, failed,
                PendingAt(ctx.state), if b.progress.Waits? then PendingAt(next) else 0);
  }

  /** The end of an iteration whose handler waited. */
  function Ended(e: Engine, h: nat, next: LifecycleState): Engine
    requires h < |e.contexts|
  {
    var r := Finish(e.contexts[h], e.count, next);
    Put(e, h, r.ctx, r.count, r.events)
  }

  lemma EndedKeepsInv(e: Engine, h: nat, next: LifecycleState)
    requires h < |e.contexts| && EngineInv(e, Some(h), PendingAt(next))
    requires Legal(e.contexts[h].state, next) && next in {Initializing, Active, Terminating}
    requires next == Terminating ==> AnnouncedTermination(Of(e.events, h), |Of(e.events, h)|)
    ensures var e' := Ended(e, h, next);
      && |e'.contexts| == |e.contexts|
      && e'.contexts[h].state == next && e'.contexts[h].appId == e.contexts[h].appId
      && EngineInv(e', Some(h), PendingAt(next))
  {
    var ctx, evs := e.contexts[h], Of(e.events, h);
    assert ContextOk(e, h, Some(h), PendingAt(next));
    var r := Finish(ctx, e.count, next);
    FinishKeepsRecord(ctx, e.count, next, evs, multiset(e.refused)[h]);
    assert Numbered(e.count, r.count, r.events, h);
    hide Record, Numbered, EngineInv;
    PutKeepsInv(e, h, r.ctx, r.count, r.events, false, PendingAt(next), PendingAt(next));
  }

  // ------------------------------------------------- a whole request

  /** The request failed in its TERMINATING handler: it is the only failure announced. */
  predicate Refused(r: Result) {
    !r.ok && r.events != [] && r.events[|r.events| - 1].newState == Terminating
  }

  /** One request, taken through changeState, if its handlers return; a null context fails. */
  ghost function Perform(e: Engine, h: nat, target: LifecycleState, replies: Replies): (Engine, bool) {
    if h >= |e.contexts| then (e, false)
    else
      var r := ChangeState(e.contexts[h], e.count, target, replies);
      (PutOrRefuse(e, h, r.ctx, r.count, r.events, Refused(r)), r.ok)
  }

  lemma {:induction false} WalkCountIsWord(
    ctx: Context, count: nat, path: seq<LifecycleState>, i: nat, replies: Replies)
    requires count < WORD
    ensures Walk(ctx, count, path, i, replies).count < WORD
    decreases |path| - i
  {
    if i < |path| {
      var r := Advance(ctx, count, path[i], replies(i));
      assert r.count < WORD;
      if r.ok {
        WalkCountIsWord(r.ctx, r.count, path, i + 1, replies);
      }
    }
  }

  // ------------------------------------------------- what an observer can rely on

  /** The events of context `h` replay to its state, which is not TERMINATING; its instance
      id is set whenever it is not UNLOADED or its "reached loading" semaphore holds a post;
      and the events are a plain chain from UNLOADED to that state exactly when none of its
      TERMINATING handlers has failed. */
  ghost predicate Replays(e: Engine, h: nat)
    requires h < |e.contexts|
  {
    var evs, ctx := Of(e.events, h), e.contexts[h];
    && Linked(evs)
    && RestAt(evs, |evs|) == ctx.state != Terminating
    && (ctx.state != Unloaded || ctx.loadingPosts > 0 ==> ctx.instanceId != "")
    && (PlainChain(evs, ctx.state) <==> h !in e.refused)
  }

  /** An instance id is empty exactly until the context's first event. */
  lemma IdSetIff(e: Engine, h: nat, busy: Option<nat>, pending: nat)
    requires h < |e.contexts| && EngineInv(e, busy, pending)
    ensures e.contexts[h].instanceId == "" <==> Of(e.events, h) == []
    ensures e.contexts[h].loadingPosts > 0 ==> e.contexts[h].instanceId != ""
  {
    var evs := Of(e.events, h);
    assert ContextOk(e, h, busy, pending);
    if evs != [] {
      assert LinkedAt(evs, |evs| - 1);
    }
  }

  lemma RestingReplays(e: Engine, h: nat, busy: Option<nat>, pending: nat)
    requires h < |e.contexts| && EngineInv(e, busy, pending) && busy != Some(h)
    ensures Replays(e, h)
  {
    var evs, ctx := Of(e.events, h), e.contexts[h];
    assert ContextOk(e, h, busy, pending);
    IdSetIff(e, h, busy, pending);
    CompleteIffCountsAgree(evs);
    PlainChainIff(evs, ctx.state);
  }

  /** The context has never reached LOADING. */
  ghost predicate NeverLoaded(e: Engine, h: nat) {
    forall k :: 0 <= k < |e.events| && e.events[k].owner == h ==> e.events[k].newState != Loading
  }

  lemma NeverLoadedIff(e: Engine, h: nat, busy: Option<nat>, pending: nat)
    requires h < |e.contexts| && EngineInv(e, busy, pending)
    ensures NeverLoaded(e, h) <==> Of(e.events, h) == []
  {
    var evs := Of(e.events, h);
    assert ContextOk(e, h, busy, pending);
    if evs != [] {
      assert LinkedAt(evs, 0);
      OfMembers(e.events, h, evs[0]);
      var k :| 0 <= k < |e.events| && e.events[k] == evs[0];
    } else {
      forall k | 0 <= k < |e.events|
        ensures e.events[k].owner != h
      {
        OfMembers(e.events, h, e.events[k]);
      }
    }
  }
}
