/**
 * MessageControl's observer of remote connections: each connection is attached and
 * detached by one dispatch job whose lock is released around the calls, while other
 * threads announce and drop connections.
 */
module Observers {
  import opened Common

  datatype State = Attaching | Detaching | Observing

  datatype Call = Attach(id: nat) | Detach(id: nat)

  type Table = map<nat, State>

  function Activated(o: Table, id: nat): Table {
    if id !in o then o[id := Attaching]
    else if o[id] == Detaching then o[id := Observing]
    else o
  }

  function Dropped(o: Table, id: nat): Table {
    if id !in o then o
    else if o[id] == Attaching then o - {id}
    else if o[id] == Observing then o[id := Detaching]
    else o
  }

  /** Where the dispatch job is. It holds the lock exactly while it is scanning. */
  datatype Job =
    | Idle
    | Scanning
    | Calling(call: Call)   // lock released, the call not yet made

  /** `client` is the set of attached instances. History: `log` holds the calls made on
      it, and `live` the connections announced and not dropped since. */
  datatype System = System(observing: Table, job: Job, client: set<nat>, log: seq<Call>, live: set<nat>)

  const INITIAL := System(map[], Idle, {}, [], {})

  datatype Step =
    | Announce(id: nat) | Drop(id: nat)
    | StartJob | Pick(id: nat) | MakeCall | EndJob

  predicate AllObserving(o: Table) {
    forall id :: id in o ==> o[id] == Observing
  }

  predicate Enabled(s: System, a: Step) {
    match a
    case Announce(id) => s.job != Scanning
    case Drop(id) => s.job != Scanning
    case StartJob => s.job == Idle
    case Pick(id) => s.job == Scanning && id in s.observing && s.observing[id] != Observing
    case MakeCall => s.job.Calling?
    case EndJob => s.job == Scanning && AllObserving(s.observing)
  }

  function Apply(s: System, a: Step): System
    requires Enabled(s, a)
  {
    match a
    case Announce(id) => s.(observing := Activated(s.observing, id), live := s.live + {id})
    case Drop(id) => s.(observing := Dropped(s.observing, id), live := s.live - {id})
    case StartJob => s.(job := Scanning)
    case Pick(id) =>
      if s.observing[id] == Attaching then
        s.(observing := s.observing[id := Observing], job := Calling(Attach(id)))
      else
        s.(observing := s.observing - {id}, job := Calling(Detach(id)))
    case MakeCall =>
      var c := s.job.call;
      s.(client := if c.Attach? then s.client + {c.id} else s.client - {c.id},
         log := s.log + [c], job := Scanning)
    case EndJob => s.(job := Idle)
  }

  ghost function Exec(steps: seq<Step>): Option<System> {
    if steps == [] then Some(INITIAL)
    else
      var before := Exec(steps[..|steps| - 1]);
      if before.Some? && Enabled(before.value, steps[|steps| - 1]) then
        Some(Apply(before.value, steps[|steps| - 1]))
      else None
  }

  // ------------------------------------------------- the protocol of one connection

  /** The calls made for one connection. */
  function Of(log: seq<Call>, id: nat): seq<Call> {
    if log == [] then []
    else Of(log[..|log| - 1], id) + if log[|log| - 1].id == id then [log[|log| - 1]] else []
  }

  /** Attach, Detach, Attach, ... */
  predicate Alternates(calls: seq<Call>) {
    forall k :: 0 <= k < |calls| ==> (calls[k].Attach? <==> k % 2 == 0)
  }

  /** Whether the table, and the call still to be made, say that `id` is attached. */
  predicate Attached(s: System, id: nat) {
    if s.job.Calling? && s.job.call.id == id then s.job.call.Detach?
    else id in s.observing && s.observing[id] != Attaching
  }

  /** The entry of a connection whose call is about to be made. */
  predicate CallOk(s: System) {
    s.job.Calling? ==>
      var id := s.job.call.id;
      if s.job.call.Attach? then id in s.observing && s.observing[id] != Attaching
      else id !in s.observing || s.observing[id] == Attaching
  }

  predicate ConnectionOk(s: System, id: nat) {
    var calls := Of(s.log, id);
    && Alternates(calls)
    && (Attached(s, id) <==> |calls| % 2 == 1)
    && (id in s.client <==> Attached(s, id))
    && (id in s.live <==> id in s.observing && s.observing[id] != Detaching)
  }

  ghost predicate Inv(s: System) {
    CallOk(s) && forall id :: ConnectionOk(s, id)
  }

  lemma OfExtends(log: seq<Call>, c: Call, id: nat)
    ensures Of(log + [c], id) == if c.id == id then Of(log, id) + [c] else Of(log, id)
  {
    assert (log + [c])[..|log + [c]| - 1] == log;
  }

  lemma StepKeepsConnection(s: System, a: Step, id: nat)
    requires CallOk(s) && ConnectionOk(s, id) && Enabled(s, a)
    ensures ConnectionOk(Apply(s, a), id)
  {
    var s' := Apply(s, a);
    if a.MakeCall? {
      OfExtends(s.log, s.job.call, id);
      hide Of;
      assert s'.log == s.log + [s.job.call];
    } else {
      assert s'.log == s.log && s'.client == s.client;
      assert Attached(s', id) == Attached(s, id);
    }
  }

  lemma StepKeepsInv(s: System, a: Step)
    requires Inv(s) && Enabled(s, a)
    ensures Inv(Apply(s, a))
  {
    assert CallOk(Apply(s, a));
    forall id
      ensures ConnectionOk(Apply(s, a), id)
    {
      StepKeepsConnection(s, a, id);
    }
  }

  lemma InitialInv()
    ensures Inv(INITIAL)
  {
  }

  lemma {:induction false} EveryInterleaving(steps: seq<Step>)
    requires Exec(steps).Some?
    ensures Inv(Exec(steps).value)
  {
    InitialInv();
    hide Inv, Apply, Enabled;
    if steps != [] {
      EveryInterleaving(steps[..|steps| - 1]);
      StepKeepsInv(Exec(steps[..|steps| - 1]).value, steps[|steps| - 1]);
    }
  }

  /** Under every interleaving, the calls for one connection strictly alternate and start
      with Attach; and outside a call the attached instances are exactly those being
      observed or waiting to be detached. */
  lemma CallsAlternate(steps: seq<Step>, id: nat)
    requires Exec(steps).Some?
    ensures var s := Exec(steps).value;
      && Alternates(Of(s.log, id))
      && (!s.job.Calling? ==>
            (id in s.client <==> id in s.observing && s.observing[id] in {State.Observing, State.Detaching}))
  {
    EveryInterleaving(steps);
    assert ConnectionOk(Exec(steps).value, id);
  }

  /** When the job ends, the attached instances are exactly the live connections. */
  lemma JobEndsSettled(steps: seq<Step>)
    requires Exec(steps).Some? && Enabled(Exec(steps).value, EndJob)
    ensures var s := Exec(steps).value; s.client == s.observing.Keys == s.live
  {
    EveryInterleaving(steps);
    var s := Exec(steps).value;
    forall id
      ensures id in s.client <==> id in s.observing.Keys
      ensures id in s.live <==> id in s.observing.Keys
    {
      assert ConnectionOk(s, id);
    }
  }

  // ------------------------------------------------- progress of the job

  function Unsettled(o: Table): set<nat> {
    set id | id in o && o[id] != Observing
  }

  /** Left alone, the job settles one connection with each pick, and can always go on. */
  lemma JobMakesProgress(s: System)
    ensures forall id :: Enabled(s, Pick(id)) ==>
              Unsettled(Apply(s, Pick(id)).observing) == Unsettled(s.observing) - {id} < Unsettled(s.observing)
    ensures s.job == Scanning ==> Enabled(s, EndJob) || exists id :: Enabled(s, Pick(id))
    ensures s.job.Calling? ==> Unsettled(Apply(s, MakeCall).observing) == Unsettled(s.observing)
  {
    forall id | Enabled(s, Pick(id))
      ensures Unsettled(Apply(s, Pick(id)).observing) == Unsettled(s.observing) - {id} < Unsettled(s.observing)
    {
      assert id in Unsettled(s.observing);
    }
    if s.job == Scanning && !AllObserving(s.observing) {
      var id :| id in s.observing && s.observing[id] != Observing;
      assert Enabled(s, Pick(id));
    }
  }

  // ------------------------------------------------- the object

  class Observer {
    var observing: Table

    constructor ()
      ensures observing == map[]
    {
      observing := map[];
    }

    method ConnectionActivated(id: nat)
      modifies this`observing
      ensures observing == Activated(old(observing), id)
    {
      if id !in observing {
        observing := observing[id := Attaching];
      } else if observing[id] == Detaching {
        observing := observing[id := Observing];
      }
    }

    method Drop(id: nat)
      modifies this`observing
      ensures observing == Dropped(old(observing), id)
    {
      if id in observing {
        if observing[id] == Attaching {
          observing := observing - {id};
        } else if observing[id] == Observing {
          observing := observing[id := Detaching];
        }
      }
    }

    /** The inner loop of Dispatch up to the point where it releases the lock: visits the
        entries in some order and settles the first that needs a call. Nothing to call
        means that every entry is observing. */
    method Scan(order: seq<nat>) returns (call: Option<Call>)
      requires forall id :: id in order <==> id in observing
      modifies this`observing
      ensures var before := System(old(observing), Scanning, {}, [], {});
        if call == None then
          Enabled(before, EndJob) && observing == old(observing)
        else
          && Enabled(before, Pick(call.value.id))
          && Apply(before, Pick(call.value.id)).observing == observing
          && Apply(before, Pick(call.value.id)).job == Calling(call.value)
    {
      for i := 0 to |order|
        invariant observing == old(observing)
        invariant forall j :: 0 <= j < i ==> order[j] in observing && observing[order[j]] == Observing
      {
        var id := order[i];
        if observing[id] == Attaching {
          observing := observing[id := Observing];
          return Some(Attach(id));
        } else if observing[id] == Detaching {
          observing := observing - {id};
          return Some(Detach(id));
        }
      }
      call := None;
    }
  }
}
