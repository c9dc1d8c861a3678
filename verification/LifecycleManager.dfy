/**
 * The list of loaded applications and the request queue as objects updated in place:
 * getContext, SpawnApp's look-up, the handling of events, and the worker's drain loop. Their
 * joint value is an Engine with a list of handles, so everything proved of those holds here.
 */
module LifecycleManager {
  import opened Common
  import opened TransitionSearch
  import opened Lifecycle
  import opened LifecycleHistory
  import opened LifecycleObjects
  import opened TransitionSystem
  import opened TransitionPasses

  ghost function Values(cs: seq<ApplicationContext>): (vs: seq<Context>)
    reads cs
    ensures |vs| == |cs| && forall i :: 0 <= i < |cs| ==> vs[i] == cs[i].Value()
  {
    if cs == [] then [] else Values(cs[..|cs| - 1]) + [cs[|cs| - 1].Value()]
  }

  /** From the values `before`, only those of the context with handle `h` have changed. */
  lemma OneChanged(before: seq<Context>, cs: seq<ApplicationContext>, h: nat)
    requires h < |cs| == |before|
    requires forall i :: 0 <= i < |cs| && i != h ==> cs[i].Value() == before[i]
    ensures Values(cs) == before[h := cs[h].Value()]
  {
  }

  function Handles(cs: seq<ApplicationContext>): (hs: seq<nat>)
    ensures |hs| == |cs| && forall i :: 0 <= i < |cs| ==> hs[i] == cs[i].handle
  {
    if cs == [] then [] else Handles(cs[..|cs| - 1]) + [cs[|cs| - 1].handle]
  }

  lemma {:induction false} FindIsFirst(contexts: seq<Context>, loaded: seq<nat>, app: AppId, i: nat, at: nat)
    requires i <= at <= |loaded| && forall j :: 0 <= j < |loaded| ==> loaded[j] < |contexts|
    requires forall j :: i <= j < at ==> app == "" || contexts[loaded[j]].appId != app
    requires at < |loaded| ==> app != "" && contexts[loaded[at]].appId == app
    ensures Find(contexts, loaded, app, i) == at
    decreases |loaded| - i
  {
    if i < at {
      FindIsFirst(contexts, loaded, app, i + 1, at);
    }
  }

  /** The list without a context is the list without the first that has the id. */
  lemma {:induction false} WithoutIsFirst(contexts: seq<Context>, loaded: seq<nat>, id: string, at: nat)
    requires at <= |loaded| && forall j :: 0 <= j < |loaded| ==> loaded[j] < |contexts|
    requires forall j :: 0 <= j < at ==> contexts[loaded[j]].instanceId != id
    requires at < |loaded| ==> contexts[loaded[at]].instanceId == id
    ensures Without(contexts, loaded, id) == if at < |loaded| then loaded[..at] + loaded[at + 1..] else loaded
  {
    if loaded != [] && at > 0 {
      WithoutIsFirst(contexts, loaded[1..], id, at - 1);
      if at < |loaded| {
        assert [loaded[0]] + (loaded[1..][..at - 1] + loaded[1..][at..]) == loaded[..at] + loaded[at + 1..];
      }
    }
  }

  lemma ChangeStateCountIsWord(ctx: Context, count: nat, target: LifecycleState, replies: Replies)
    requires count < WORD
    ensures ChangeState(ctx, count, target, replies).count < WORD
  {
    hide Walk, Search, FullPath;
    if ctx.state != target && Search(TRANSITIONS, ctx.state, target, []).found {
      WalkCountIsWord(ctx, count, FullPath(ctx.state, target), 1, replies);
    }
  }

  class LifecycleManagerImplementation {
    const handler: StateHandler
    var contexts: seq<ApplicationContext>             // every context ever made
    var loadedApplications: seq<ApplicationContext>
    var requests: seq<Request>
    var requestSemaphore: nat
    ghost var refused: seq<nat>

    ghost predicate Valid()
      reads this, handler, contexts
    {
      && handler.possibleStateTransitions == TRANSITIONS
      && handler.stateChangeCount < WORD
      && (forall i :: 0 <= i < |contexts| ==> contexts[i].handle == i)
      && (forall j :: 0 <= j < |loadedApplications| ==>
            && loadedApplications[j].handle < |contexts|
            && contexts[loadedApplications[j].handle] == loadedApplications[j])
    }

    ghost function Snapshot(): Engine
      reads this, handler, contexts
    {
      Engine(Values(contexts), handler.stateChangeCount, handler.sent, refused)
    }

    predicate Matches(c: ApplicationContext, appInstanceId: string, appId: AppId)
      reads c
    {
      (appInstanceId != "" && c.appInstanceId == appInstanceId) || (appId != "" && c.appId == appId)
    }

    constructor ()
      ensures Valid() && Snapshot() == FRESH_ENGINE
      ensures loadedApplications == [] && requests == [] && requestSemaphore == 0
    {
      handler := new StateHandler();
      contexts, loadedApplications, requests, requestSemaphore, refused := [], [], [], 0, [];
      new;
      handler.Initialize();
    }

    /** The first loaded application with the given instance id or, failing that test on
        it, the given application id; an empty id matches nothing. */
    method GetContext(appInstanceId: string, appId: AppId) returns (context: ApplicationContext?, ghost at: nat)
      requires Valid()
      ensures context == null
         <==> forall j :: 0 <= j < |loadedApplications| ==> !Matches(loadedApplications[j], appInstanceId, appId)
      ensures at <= |loadedApplications|
      ensures forall j :: 0 <= j < at ==> !Matches(loadedApplications[j], appInstanceId, appId)
      ensures if at == |loadedApplications| then context == null
              else context == loadedApplications[at] && Matches(loadedApplications[at], appInstanceId, appId)
    {
      at := 0;
      for i := 0 to |loadedApplications|
        invariant at == i
        invariant forall j :: 0 <= j < i ==> !Matches(loadedApplications[j], appInstanceId, appId)
      {
        var c := loadedApplications[i];
        if appInstanceId != "" && c.appInstanceId == appInstanceId {
          return c, i;
        } else if appId != "" && c.appId == appId {
          return c, i;
        }
        at := at + 1;
      }
      context := null;
    }

    method AppendContext(appId: AppId) returns (context: ApplicationContext)
      requires Valid()
      modifies this`contexts, this`loadedApplications
      ensures Valid() && fresh(context) && context.handle == |old(contexts)|
      ensures contexts == old(contexts) + [context]
      ensures loadedApplications == old(loadedApplications) + [context]
      ensures Snapshot() == LifecycleHistory.Create(old(Snapshot()), appId)
    {
      ghost var before := contexts;
      context := new ApplicationContext(|contexts|, appId);
      contexts := contexts + [context];
      loadedApplications := loadedApplications + [context];
      assert contexts[..|contexts| - 1] == before;
    }

    /** SpawnApp up to the launch request. */
    method LoadContext(appId: AppId) returns (context: ApplicationContext, firstLaunch: bool)
      requires Valid()
      modifies this`contexts, this`loadedApplications
      ensures Valid()
      ensures
        var p := Find(old(Snapshot()).contexts, Handles(old(loadedApplications)), appId, 0);
        && firstLaunch == (p == |old(loadedApplications)|)
        && (if firstLaunch then
              && Snapshot() == LifecycleHistory.Create(old(Snapshot()), appId)
              && fresh(context) && loadedApplications == old(loadedApplications) + [context]
            else
              && Snapshot() == old(Snapshot())
              && loadedApplications == old(loadedApplications) && context == loadedApplications[p])
    {
      var found, at := GetContext("", appId);
      FindIsFirst(Snapshot().contexts, Handles(loadedApplications), appId, 0, at);
      firstLaunch := found == null;
      if found == null {
        context := AppendContext(appId);
      } else {
        context := found;
      }
    }

    /** The three events that post a semaphore of the application they name. */
    method HandleManagerEvent(appInstanceId: string, signal: Signal) returns (context: ApplicationContext?)
      requires Valid()
      modifies loadedApplications
      ensures Valid()
      ensures context == null
         <==> appInstanceId == ""
              || forall j :: 0 <= j < |loadedApplications| ==> old(loadedApplications[j].appInstanceId) != appInstanceId
      ensures context == null ==> Snapshot() == old(Snapshot())
      ensures context != null ==>
                && context in loadedApplications && old(context.appInstanceId) == appInstanceId
                && context.handle < |contexts|
                && Snapshot() == Touched(old(Snapshot()), context.handle, Signalled(old(context.Value()), signal))
    {
      hide Touched, Signalled, Values;
      ghost var at;
      context, at := GetContext(appInstanceId, "");
      if context != null {
        Post(context, signal);
      }
    }

    method Post(context: ApplicationContext, signal: Signal)
      requires Valid() && context in loadedApplications
      modifies context
      ensures Valid() && context.handle < |contexts|
      ensures Snapshot() == Touched(old(Snapshot()), context.handle, Signalled(old(context.Value()), signal))
    {
      context.Notify(signal);
      OneChanged(old(Values(contexts)), contexts, context.handle);
    }

    /** handleStateChangeEvent: an unloaded application leaves the list. */
    method HandleStateChangeEvent(appInstanceId: string, newLifecycleState: LifecycleState)
      requires Valid()
      modifies this`loadedApplications
      ensures Valid() && Snapshot() == old(Snapshot())
      ensures Handles(loadedApplications)
           == if newLifecycleState == Unloaded then
                Without(Snapshot().contexts, Handles(old(loadedApplications)), appInstanceId)
              else Handles(old(loadedApplications))
    {
      if newLifecycleState == Unloaded {
        var at := IndexOf(appInstanceId);
        WithoutIsFirst(Snapshot().contexts, Handles(loadedApplications), appInstanceId, at);
        hide Without;
        if at < |loadedApplications| {
          Erase(at);
        }
      }
    }

    method IndexOf(appInstanceId: string) returns (at: nat)
      ensures at <= |loadedApplications|
      ensures forall j :: 0 <= j < at ==> loadedApplications[j].appInstanceId != appInstanceId
      ensures at < |loadedApplications| ==> loadedApplications[at].appInstanceId == appInstanceId
    {
      at := 0;
      while at < |loadedApplications| && loadedApplications[at].appInstanceId != appInstanceId
        invariant at <= |loadedApplications|
        invariant forall j :: 0 <= j < at ==> loadedApplications[j].appInstanceId != appInstanceId
      {
        at := at + 1;
      }
    }

    method Erase(at: nat)
      requires Valid() && at < |loadedApplications|
      modifies this`loadedApplications
      ensures Valid() && Snapshot() == old(Snapshot())
      ensures Handles(loadedApplications)
           == Handles(old(loadedApplications))[..at] + Handles(old(loadedApplications))[at + 1..]
    {
      loadedApplications := loadedApplications[..at] + loadedApplications[at + 1..];
    }

    /** The push and the post of addRequest. */
    method AddRequest(request: Request)
      modifies this`requests, this`requestSemaphore
      ensures requests == old(requests) + [request] && requestSemaphore == old(requestSemaphore) + 1
    {
      requests := requests + [request];
      requestSemaphore := requestSemaphore + 1;
    }

    /** The loop that the worker runs while it holds the mutex. */
    method Drain(replies: nat -> Replies)
      requires Valid()
      modifies this`requests, this`refused, handler, contexts
      ensures Valid() && contexts == old(contexts) && loadedApplications == old(loadedApplications)
      ensures (Snapshot(), requests) == DrainAll(old(Snapshot()), old(requests), 0, replies)
    {
      hide Perform, Values, Handles;
      var attempt := 0;
      while |requests| > 0
        invariant Valid() && contexts == old(contexts) && loadedApplications == old(loadedApplications)
        invariant DrainAll(old(Snapshot()), old(requests), 0, replies)
               == DrainAll(Snapshot(), requests, attempt, replies)
        decreases |requests|
      {
        var request := requests[0];
        var success := Attempt(request, replies(attempt));
        if !success {
          break;
        }
        requests := requests[1..];
        attempt := attempt + 1;
      }
    }

    /** One request; a handle that names no context stands for the null context. */
    method Attempt(request: Request, replies: Replies) returns (success: bool)
      requires Valid()
      modifies this`refused, handler, contexts
      ensures Valid()
      ensures (Snapshot(), success) == Perform(old(Snapshot()), request.handle, request.target, replies)
    {
      hide ChangeState, Refused, Handles, Values;
      if request.handle >= |contexts| {
        success := handler.ChangeState(null, request.target, replies);
      } else {
        ghost var before := Snapshot();
        ghost var r := ChangeState(before.contexts[request.handle], before.count, request.target, replies);
        success := AttemptOn(request.handle, request.target, replies);
        if Refused(r) {
          refused := refused + [request.handle];
        }
      }
    }

    method AttemptOn(handle: nat, target: LifecycleState, replies: Replies) returns (success: bool)
      requires Valid() && handle < |contexts|
      modifies handler, contexts
      ensures Valid()
      ensures
        var r := ChangeState(old(contexts[handle].Value()), old(handler.stateChangeCount), target, replies);
        && success == r.ok
        && Snapshot() == Put(old(Snapshot()), handle, r.ctx, r.count, r.events)
    {
      hide ChangeState, Handles;
      var context := contexts[handle];
      ChangeStateCountIsWord(context.Value(), handler.stateChangeCount, target, replies);
      success := handler.ChangeState(context, target, replies);
      OneChanged(old(Values(contexts)), contexts, handle);
    }
  }
}
