/**
 * ApplicationContext and StateHandler as objects updated in place, each method
 * proved to make exactly the change that the value-level specification describes.
 */
module LifecycleObjects {
  import opened Common
  import opened TransitionSearch
  import opened Lifecycle

  class ApplicationContext {
    const handle: nat
    const appId: AppId
    var appInstanceId: string
    var state: LifecycleState
    var stateChangeId: nat
    var force: bool
    var reachedLoadingStateSemaphore: nat
    var appRunningSemaphore: nat
    var appTerminatingSemaphore: nat
    var firstFrameSemaphore: nat
    ghost var container: Container
    ghost var lapsed: bool

    ghost function Value(): Context
      reads this
    {
      Context(handle, appId, appInstanceId, state, stateChangeId, force, reachedLoadingStateSemaphore,
              appRunningSemaphore, appTerminatingSemaphore, firstFrameSemaphore, container, lapsed)
    }

    constructor (handle: nat, appId: AppId)
      ensures Value() == NewContext(handle, appId)
    {
      this.handle, this.appId, appInstanceId, state := handle, appId, "", Unloaded;
      stateChangeId, force, reachedLoadingStateSemaphore := 0, false, 0;
      appRunningSemaphore, appTerminatingSemaphore, firstFrameSemaphore := 0, 0, 0;
      container, lapsed := Absent, false;
    }

    /** Sends one command to a manager and returns whether it succeeded. */
    method Issue(call: Call, reply: Reply) returns (ok: bool)
      modifies this`container, this`lapsed
      ensures ok == reply.succeeds(call)
      ensures Value() == Command(old(Value()), call, reply).ctx
    {
      ok := reply.succeeds(call);
      if ok {
        container := Commanded(container, call);
        lapsed := call == RenderReady && lapsed;
      }
    }

    /** The post that the event handler makes when an event for this application arrives. */
    method Notify(signal: Signal)
      modifies this
      ensures Value() == Signalled(old(Value()), signal)
    {
      match signal {
        case AppRunning =>
          appRunningSemaphore := appRunningSemaphore + 1;
          container, lapsed := Running, false;
        case AppTerminated =>
          appTerminatingSemaphore := appTerminatingSemaphore + 1;
          container := Absent;
        case FirstFrame =>
          firstFrameSemaphore := firstFrameSemaphore + 1;
      }
    }

    function Semaphore(signal: Signal): (posts: nat)
      reads this
      ensures posts == Posts(Value(), signal)
    {
      match signal
      case AppRunning => appRunningSemaphore
      case AppTerminated => appTerminatingSemaphore
      case FirstFrame => firstFrameSemaphore
    }

    /** sem_wait on the semaphore of an event, which comes meanwhile if it has not yet. */
    method Wait(signal: Signal)
      modifies this
      ensures Value() == Awaited(old(Value()), signal)
    {
      if Semaphore(signal) == 0 {
        Notify(signal);
      }
      match signal {
        case AppRunning =>
          appRunningSemaphore := appRunningSemaphore - 1;
        case AppTerminated =>
          appTerminatingSemaphore := appTerminatingSemaphore - 1;
        case FirstFrame =>
          firstFrameSemaphore := firstFrameSemaphore - 1;
      }
    }

    /** The virtual `handle` of the state object made for `next`. */
    method Handle(next: LifecycleState, reply: Reply) returns (ret: bool)
      modifies this
      ensures (Value(), ret) == HandleToEnd(old(Value()), next, reply)
    {
      ret := false;
      match next {
        case Unloaded =>
          ret := true;
        case Loading =>
          appInstanceId := reply.uuid;
          reachedLoadingStateSemaphore := reachedLoadingStateSemaphore + 1;
          ret := true;
        case Initializing =>
          if reply.runtime {
            ret := Issue(Run, reply);
            lapsed := lapsed || !ret;
            ret := true;
            Wait(AppRunning);
          }
        case Paused =>
          if state == Initializing {
            ret := true;
          } else if state == Suspended {
            if reply.runtime {
              ret := Issue(Resume, reply);
              lapsed := lapsed || !ret;
              ret := true;
            }
          } else if state == Active {
            ret := true;
          }
        case Active =>
          ret := true;
          if reply.window {
            ret := Issue(RenderReady, reply);
            if ret && !reply.rendered {
              Wait(FirstFrame);
            }
          }
        case Suspended =>
          if reply.runtime {
            if state == Hibernated {
              ret := Issue(Wake, reply);
            } else {
              ret := Issue(Suspend, reply);
            }
          }
        case Hibernated =>
          if reply.runtime {
            ret := Issue(Hibernate, reply);
          }
        case Terminating =>
          if reply.runtime {
            if force {
              ret := Issue(Kill, reply);
            } else {
              ret := Issue(Terminate, reply);
            }
            if ret {
              Wait(AppTerminated);
            }
          }
      }
    }
  }

  class StateHandler {
    var possibleStateTransitions: Table<LifecycleState>
    var stateChangeCount: nat
    var sent: seq<Event>   // what the event handler has received

    constructor ()
      ensures possibleStateTransitions == map[] && stateChangeCount == 0 && sent == []
    {
      possibleStateTransitions, stateChangeCount, sent := map[], 0, [];
    }

    method Initialize()
      modifies this`possibleStateTransitions
      ensures possibleStateTransitions == TRANSITIONS
    {
      var t := possibleStateTransitions;
      t := t[Unloaded := []];
      t := t[Loading := [Unloaded]];
      t := t[Initializing := [Loading]];
      t := t[Paused := []];
      t := t[Paused := t[Paused] + [Initializing]];
      t := t[Paused := t[Paused] + [Active]];
      t := t[Paused := t[Paused] + [Suspended]];
      t := t[Active := []];
      t := t[Active := t[Active] + [Paused]];
      t := t[Suspended := []];
      t := t[Suspended := t[Suspended] + [Initializing]];
      t := t[Suspended := t[Suspended] + [Paused]];
      t := t[Suspended := t[Suspended] + [Hibernated]];
      t := t[Hibernated := [Suspended]];
      t := t[Terminating := []];
      t := t[Terminating := t[Terminating] + [Paused]];
      t := t[Terminating := t[Terminating] + [Suspended]];
      forall s: LifecycleState
        ensures s in t && s in TRANSITIONS && t[s] == TRANSITIONS[s]
      {
        match s
        case Unloaded =>
        case Loading =>
        case Initializing =>
        case Paused =>
        case Active =>
        case Suspended =>
        case Hibernated =>
        case Terminating =>
      }
      possibleStateTransitions := t;
    }

    method UpdateState(context: ApplicationContext, next: LifecycleState, reply: Reply) returns (result: bool)
      modifies context
      ensures (context.Value(), result) == Lifecycle.UpdateState(old(context.Value()), next, reply)
    {
      if context.state == next {
        return true;
      }
      result := context.Handle(next, reply);
      if result {
        context.state := next;
      }
    }

    /** The search from an empty visited map, and the path that changeState then walks. */
    method PathTo(start: LifecycleState, target: LifecycleState)
      returns (isValidRequest: bool, statePath: seq<LifecycleState>)
      requires possibleStateTransitions == TRANSITIONS && start != target
      ensures isValidRequest == Search(TRANSITIONS, start, target, []).found
      ensures isValidRequest ==> statePath == FullPath(start, target) && |statePath| >= 2
    {
      var search := new SearchState<LifecycleState>();
      isValidRequest := IsValidTransition(possibleStateTransitions, start, target, search);
      statePath := search.foundPath + [target];
      if target == Terminating {
        statePath := statePath + [Unloaded];
      }
      if isValidRequest {
        FullPathIsLegal(start, target);
      }
    }

    /** The effect of a request on the context, the change counter and the event stream. */
    method ChangeState(context: ApplicationContext?, target: LifecycleState, replies: Replies)
      returns (result: bool)
      requires possibleStateTransitions == TRANSITIONS && stateChangeCount < WORD
      modifies this`stateChangeCount, this`sent, context
      ensures context == null ==>
                !result && stateChangeCount == old(stateChangeCount) && sent == old(sent)
      ensures context != null ==>
                var r := Lifecycle.ChangeState(old(context.Value()), old(stateChangeCount), target, replies);
                && result == r.ok
                && context.Value() == r.ctx
                && stateChangeCount == r.count
                && sent == old(sent) + r.events
    {
      if context == null {
        return false;
      }
      if context.state == target {
        return true;
      }
      var isValidRequest, statePath := PathTo(context.state, target);
      if !isValidRequest {
        return false;
      }
      result := WalkPath(context, statePath, replies);
    }

    /** The loop of changeState, which starts at the second state of the path. */
    method WalkPath(context: ApplicationContext, statePath: seq<LifecycleState>, replies: Replies)
      returns (result: bool)
      requires |statePath| >= 2 && stateChangeCount < WORD
      modifies this`stateChangeCount, this`sent, context
      ensures
        var r := Walk(old(context.Value()), old(stateChangeCount), statePath, 1, replies);
        && result == r.ok
        && context.Value() == r.ctx
        && stateChangeCount == r.count
        && sent == old(sent) + r.events
    {
      hide Advance;
      result := false;
      ghost var whole := Walk(context.Value(), stateChangeCount, statePath, 1, replies);
      ghost var done: seq<Event> := [];
      for stateIndex := 1 to |statePath|
        invariant stateIndex > 1 ==> result
        invariant sent == old(sent) + done
        invariant whole == Walk(context.Value(), stateChangeCount, statePath, stateIndex, replies).After(done)
      {
        ghost var step := Advance(context.Value(), stateChangeCount, statePath[stateIndex], replies(stateIndex));
        Walk(step.ctx, step.count, statePath, stateIndex + 1, replies).AfterTwice(done, step.events);
        result := WalkStep(context, statePath[stateIndex], replies(stateIndex));
        done := done + step.events;
        if !result {
          break;
        }
      }
    }

    /** The body of that loop. */
    method WalkStep(context: ApplicationContext, next: LifecycleState, reply: Reply) returns (result: bool)
      modifies this`stateChangeCount, this`sent, context
      ensures
        var r := Advance(old(context.Value()), old(stateChangeCount), next, reply);
        && result == r.ok
        && context.Value() == r.ctx
        && stateChangeCount == r.count
        && sent == old(sent) + r.events
    {
      var oldLifecycleState := context.state;
      var isStateTerminating := next == Terminating;
      if !isStateTerminating {
        result := UpdateState(context, next, reply);
        if !result {
          return;
        }
      }
      context.stateChangeId := stateChangeCount;
      stateChangeCount := NextId(stateChangeCount);
      var newLifecycleState := if isStateTerminating then next else context.state;
      sent := sent + [Event(context.handle, context.appId, context.appInstanceId, context.stateChangeId,
                            oldLifecycleState, newLifecycleState)];
      if isStateTerminating {
        result := UpdateState(context, next, reply);
      }
    }
  }
}
