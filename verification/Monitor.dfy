/**
 * MonitorObject and MonitorObjects: objects evaluated on their own tick by one job that
 * schedules itself at the earliest slot.
 */
module Monitor {
  import opened Common
  import opened MonitorTicks
  import opened RestartBudget

  /** What the observed process answers when it is asked. */
  datatype Sample = Sample(operational: bool, resident: nat)

  datatype Status = Status(notOperational: bool, exceededMemory: bool) {
    predicate Bad() { notOperational || exceededMemory }
  }

  const LONG: nat := 0x1_0000_0000_0000_0000

  datatype Settings = Settings(operationalInterval: nat, memoryInterval: nat, memoryThreshold: nat) {
    /** The constructor's assertion, and the widths of the fields. */
    predicate Ok() {
      && operationalInterval < WORD && memoryInterval < WORD && memoryThreshold < LONG
      && (operationalInterval != 0 || memoryInterval != 0)
    }

    function Interval(): nat { Gcd(operationalInterval, memoryInterval) }
  }

  lemma IntervalIsTick(c: Settings)
    requires c.Ok()
    ensures 0 < c.Interval() < WORD
  {
    GcdIsPositive(c.operationalInterval, c.memoryInterval);
    GcdIsGreatest(c.operationalInterval, c.memoryInterval);
    if c.operationalInterval > 0 {
      DivisorIsSmaller(c.Interval(), c.operationalInterval);
    } else {
      DivisorIsSmaller(c.Interval(), c.memoryInterval);
    }
  }

  /** The part of an object that Evaluate reads and writes, with the history of its
      evaluations: how many there were, and how many probes and measurements they made. */
  datatype Meter = Meter(
    operationalSlots: nat, memorySlots: nat, operational: bool,
    ticks: nat, probes: nat, measurements: nat)

  predicate MeterOk(c: Settings, m: Meter) {
    && c.Ok() && c.Interval() < WORD
    && Countdown(m.ticks, c.Interval(), c.operationalInterval) == (m.operationalSlots, m.probes)
    && Countdown(m.ticks, c.Interval(), c.memoryInterval) == (m.memorySlots, m.measurements)
  }

  /** One evaluation with a live source. */
  function Evaluated(c: Settings, m: Meter, s: Sample): (Meter, Status)
    requires MeterOk(c, m)
  {
    var (opSlots, probe) := Count(m.operationalSlots, c.Interval(), c.operationalInterval);
    var (memSlots, measure) := Count(m.memorySlots, c.Interval(), c.memoryInterval);
    (Meter(opSlots, memSlots, if probe then s.operational else m.operational,
           m.ticks + 1, if probe then m.probes + 1 else m.probes,
           if measure then m.measurements + 1 else m.measurements),
     Status(probe && !s.operational,
            measure && c.memoryThreshold != 0 && s.resident > c.memoryThreshold))
  }

  lemma EvaluatedKeepsMeter(c: Settings, m: Meter, s: Sample)
    requires MeterOk(c, m)
    ensures MeterOk(c, Evaluated(c, m, s).0)
  {
  }

  /** After n evaluations with a live source an object has been probed floor(n * I / op)
      times and measured floor(n * I / mem) times; neither countdown ever underflows. */
  lemma RatesAreExact(c: Settings, m: Meter)
    requires MeterOk(c, m)
    ensures c.operationalInterval != 0 ==>
      && m.probes == Elapsed(m.ticks, c.Interval()) / c.operationalInterval
      && c.Interval() <= m.operationalSlots && Divides(c.Interval(), m.operationalSlots)
    ensures c.memoryInterval != 0 ==>
      && m.measurements == Elapsed(m.ticks, c.Interval()) / c.memoryInterval
      && c.Interval() <= m.memorySlots && Divides(c.Interval(), m.memorySlots)
  {
    GcdIsGreatest(c.operationalInterval, c.memoryInterval);
    if c.operationalInterval != 0 {
      CountdownKeepsTime(m.ticks, c.Interval(), c.operationalInterval);
    }
    if c.memoryInterval != 0 {
      CountdownKeepsTime(m.ticks, c.Interval(), c.memoryInterval);
    }
  }

  lemma FiresAtPeriod(n: nat, tick: nat, period: nat)
    requires 0 < period < WORD && tick < WORD && Divides(tick, period)
    ensures Count(Countdown(n, tick, period).0, tick, period).1 <==> Elapsed(n + 1, tick) % period == 0
  {
    CountdownKeepsTime(n, tick, period);
    CountdownKeepsTime(n + 1, tick, period);
  }

  /** An object is reported when, and only when, this very evaluation completes a period
      and finds it not operational or over its threshold. */
  lemma ReportedIff(c: Settings, m: Meter, s: Sample)
    requires MeterOk(c, m)
    ensures var (m', status) := Evaluated(c, m, s); var t := Elapsed(m.ticks + 1, c.Interval());
      && (status.notOperational <==>
            c.operationalInterval != 0 && t % c.operationalInterval == 0 && !s.operational)
      && (status.exceededMemory <==>
            c.memoryInterval != 0 && t % c.memoryInterval == 0
            && c.memoryThreshold != 0 && s.resident > c.memoryThreshold)
  {
    GcdIsGreatest(c.operationalInterval, c.memoryInterval);
    if c.operationalInterval != 0 {
      FiresAtPeriod(m.ticks, c.Interval(), c.operationalInterval);
    }
    if c.memoryInterval != 0 {
      FiresAtPeriod(m.ticks, c.Interval(), c.memoryInterval);
    }
  }

  /** The operational flag is the answer of the latest probe: it changes when, and only when, an
      operational period completes. */
  lemma FlagIsLatestProbe(c: Settings, m: Meter, s: Sample)
    requires MeterOk(c, m)
    ensures Evaluated(c, m, s).0.operational
         == if c.operationalInterval != 0 && Elapsed(m.ticks + 1, c.Interval()) % c.operationalInterval == 0
            then s.operational else m.operational
  {
    GcdIsGreatest(c.operationalInterval, c.memoryInterval);
    if c.operationalInterval != 0 {
      FiresAtPeriod(m.ticks, c.Interval(), c.operationalInterval);
    }
    hide Elapsed, Gcd, Countdown;
  }

  class MonitorObject {
    const settings: Settings
    const interval: nat
    const restartAllowed: bool
    var operationalSlots: nat
    var memorySlots: nat
    var operational: bool
    var nextSlot: nat
    var budget: Budget
    var hasSource: bool
    var active: bool
    ghost var ticks: nat
    ghost var probes: nat
    ghost var measurements: nat

    ghost function Meters(): Meter
      reads this
    {
      Meter(operationalSlots, memorySlots, operational, ticks, probes, measurements)
    }

    ghost predicate Valid()
      reads this
    {
      && MeterOk(settings, Meters())
      && interval == settings.Interval() && 0 < interval < WORD
      && nextSlot < LONG - 1
    }

    constructor (actOnOperational: bool, operationalInterval: nat, memoryInterval: nat,
                 memoryThreshold: nat, absTime: nat, restartWindow: nat, restartLimit: nat)
      requires Settings(operationalInterval, memoryInterval, memoryThreshold * 1024 % LONG).Ok()
      requires absTime < LONG - 1
      ensures Valid() && ticks == 0 && nextSlot == absTime && !active && !hasSource
      ensures settings == Settings(operationalInterval, memoryInterval, memoryThreshold * 1024 % LONG)
      ensures budget == Budget(restartWindow, restartLimit, None, 0)
    {
      settings := Settings(operationalInterval, memoryInterval, memoryThreshold * 1024 % LONG);
      interval := Gcd(operationalInterval, memoryInterval);
      restartAllowed := actOnOperational;
      operationalSlots, memorySlots, operational := operationalInterval, memoryInterval, false;
      nextSlot, hasSource, active := absTime, false, false;
      budget := Budget(restartWindow, restartLimit, None, 0);
      ticks, probes, measurements := 0, 0, 0;
      IntervalIsTick(Settings(operationalInterval, memoryInterval, memoryThreshold * 1024 % LONG));
    }

    /** A new measurement source, or none; it also settles the operational flag. */
    method Set(memory: bool)
      requires Valid()
      modifies this`hasSource, this`operational
      ensures Valid() && hasSource == memory
      ensures Meters() == old(Meters()).(operational := memory)
    {
      hasSource := memory;
      operational := memory;
    }

    method Evaluate(sample: Sample) returns (status: Status)
      requires Valid()
      modifies this`operationalSlots, this`memorySlots, this`operational,
               this`ticks, this`probes, this`measurements
      ensures Valid()
      ensures (Meters(), status)
           == if hasSource then Evaluated(settings, old(Meters()), sample)
              else (old(Meters()), Status(false, false))
    {
      status := Status(false, false);
      hide Countdown, Gcd;
      if hasSource {
        ghost var before := Meters();
        operationalSlots := Less(operationalSlots, interval);
        memorySlots := Less(memorySlots, interval);
        if settings.operationalInterval != 0 && operationalSlots == 0 {
          operational := sample.operational;
          if !operational {
            status := status.(notOperational := true);
          }
          operationalSlots := settings.operationalInterval;
          probes := probes + 1;
        }
        if settings.memoryInterval != 0 && memorySlots == 0 {
          measurements := measurements + 1;
          if settings.memoryThreshold != 0 && sample.resident > settings.memoryThreshold {
            status := status.(exceededMemory := true);
          }
          memorySlots := settings.memoryInterval;
        }
        ticks := ticks + 1;
        EvaluatedKeepsMeter(settings, before, sample);
      }
    }

    /** The slot that is reached must be a time that fits its word and is not the sentinel. */
    method Retrigger(currentSlot: nat)
      requires Valid() && Aligned(nextSlot, currentSlot, interval) < LONG - 1
      modifies this`nextSlot
      ensures Valid() && nextSlot == Aligned(old(nextSlot), currentSlot, interval)
    {
      AlignedFacts(nextSlot, currentSlot, interval);
      while nextSlot < currentSlot
        invariant Aligned(nextSlot, currentSlot, interval) == Aligned(old(nextSlot), currentSlot, interval)
        invariant nextSlot <= Aligned(old(nextSlot), currentSlot, interval)
      {
        AlignedStep(nextSlot, currentSlot, interval);
        nextSlot := nextSlot + interval;
        AlignedFacts(nextSlot, currentSlot, interval);
      }
    }

    method RegisterRestart(now: nat) returns (result: bool)
      modifies this`budget
      ensures (budget, result) == Register(old(budget), now)
    {
      if WithinWindow(budget, now) {
        budget := budget.(count := (budget.count + (budget.count + 1)) % WORD);
      } else {
        budget := budget.(windowEnd := Some(now + budget.window * 1000), count := 0);
      }
      result := budget.limit == 0 || budget.count < budget.limit;
      if !result {
        budget := budget.(count := 0);
      }
    }
  }

  // ------------------------------------------------- the dispatch pass

  datatype Verdict = Nothing | MemoryExceeded | Failure

  datatype Job = Stop | SubmitNow | RescheduleAt(time: nat)

  /** Everything a pass can read or change in one object. */
  datatype Observed = Observed(settings: Settings, meter: Meter, nextSlot: nat, hasSource: bool, active: bool)

  predicate Due(o: Observed, now: nat) {
    o.active && o.nextSlot <= now
  }

  function StatusOf(o: Observed, s: Sample): Status
    requires MeterOk(o.settings, o.meter)
  {
    if o.hasSource then Evaluated(o.settings, o.meter, s).1 else Status(false, false)
  }

  /** The object after a pass scheduled at `now`. */
  function AfterPass(o: Observed, now: nat, s: Sample): Observed
    requires MeterOk(o.settings, o.meter) && o.settings.Interval() > 0
  {
    if Due(o, now) then
      o.(meter := if o.hasSource then Evaluated(o.settings, o.meter, s).0 else o.meter,
         nextSlot := Aligned(o.nextSlot, now, o.settings.Interval()))
    else o
  }

  /** `slot` is the earliest slot of the active objects, or the sentinel if there are none. */
  ghost predicate IsEarliest(os: seq<Observed>, slot: nat) {
    && (forall i :: 0 <= i < |os| && os[i].active ==> slot <= os[i].nextSlot)
    && (slot == LONG - 1 || exists i :: 0 <= i < |os| && os[i].active && slot == os[i].nextSlot)
  }

  lemma SentinelIsEarliest()
    ensures IsEarliest([], LONG - 1)
  {
  }

  lemma EarliestExtends(os: seq<Observed>, slot: nat, o: Observed)
    requires IsEarliest(os, slot)
    ensures IsEarliest(os + [o], if o.active && o.nextSlot < slot then o.nextSlot else slot)
  {
    var slot' := if o.active && o.nextSlot < slot then o.nextSlot else slot;
    if slot' == slot && slot != LONG - 1 {
      var i :| 0 <= i < |os| && os[i].active && slot == os[i].nextSlot;
      assert (os + [o])[i] == os[i];
    } else if slot' != slot {
      assert (os + [o])[|os|] == o;
    }
  }

  ghost predicate ObservedOk(o: Observed) {
    MeterOk(o.settings, o.meter) && o.settings.Interval() > 0 && o.nextSlot < LONG - 1
  }

  ghost predicate AllOk(os: seq<Observed>) {
    forall i :: 0 <= i < |os| ==> ObservedOk(os[i])
  }

  /** The job stops exactly when no object is active. */
  lemma StopsIffNoneActive(os: seq<Observed>, slot: nat)
    requires IsEarliest(os, slot) && AllOk(os)
    ensures slot == LONG - 1 <==> forall i :: 0 <= i < |os| ==> !os[i].active
  {
  }

  ghost function View(o: MonitorObject): Observed
    reads o
  {
    Observed(o.settings, o.Meters(), o.nextSlot, o.hasSource, o.active)
  }

  ghost function Views(os: seq<MonitorObject>): (vs: seq<Observed>)
    reads os
    ensures |vs| == |os| && forall i :: 0 <= i < |os| ==> vs[i] == View(os[i])
  {
    seq(|os|, i requires 0 <= i < |os| reads os => View(os[i]))
  }

  /** The slot that the object moves to in a pass is a time that can be represented. */
  predicate Fits(o: Observed, now: nat)
    requires o.settings.Interval() > 0
  {
    Due(o, now) ==> Aligned(o.nextSlot, now, o.settings.Interval()) < LONG - 1
  }

  /** It is whenever the scheduled time is that of a clock with 2^32 microseconds to spare. */
  lemma ClockFits(o: Observed, now: nat)
    requires ObservedOk(o) && now + WORD < LONG
    ensures Fits(o, now)
  {
    AlignedFacts(o.nextSlot, now, o.settings.Interval());
  }

  /** The first `n` objects have been passed, and the others are untouched. */
  ghost predicate Passed(before: seq<Observed>, after: seq<Observed>, n: nat, now: nat, samples: nat -> Sample)
    requires AllOk(before)
  {
    && |before| == |after|
    && forall i :: 0 <= i < |before| ==>
         after[i] == if i < n then AfterPass(before[i], now, samples(i)) else before[i]
  }

  /** Why an object is reported during a pass, if it is. */
  function Report(o: Observed, now: nat, s: Sample): Verdict
    requires MeterOk(o.settings, o.meter)
  {
    var status := StatusOf(o, s);
    if !Due(o, now) || !status.Bad() then Nothing
    else if status.exceededMemory then MemoryExceeded
    else Failure
  }

  /** The verdict on an object in a pass, by the time that its evaluations make up: a memory
      report before a failure, and neither unless the object is active, due and has a source. */
  lemma VerdictIff(o: Observed, now: nat, s: Sample)
    requires MeterOk(o.settings, o.meter)
    ensures var c := o.settings;
      var t := Elapsed(o.meter.ticks + 1, c.Interval());
      var due := o.active && o.hasSource && o.nextSlot <= now;
      var memory := due && c.memoryInterval != 0 && t % c.memoryInterval == 0
                    && c.memoryThreshold != 0 && s.resident > c.memoryThreshold;
      var dead := due && c.operationalInterval != 0 && t % c.operationalInterval == 0 && !s.operational;
      && (Report(o, now, s) == MemoryExceeded <==> memory)
      && (Report(o, now, s) == Failure <==> dead && !memory)
  {
    ReportedIff(o.settings, o.meter, s);
    hide Evaluated, MeterOk, Elapsed;
  }

  /** A pass touches an object only if it is active and due: then it evaluates it once if it has
      a source, and moves its slot to the first of its grid that is not before the pass. */
  lemma PassTouchesIff(o: Observed, now: nat, s: Sample)
    requires MeterOk(o.settings, o.meter) && o.settings.Interval() > 0
    ensures var o' := AfterPass(o, now, s); var due := o.active && o.nextSlot <= now;
      && o' == o.(meter := o'.meter, nextSlot := o'.nextSlot)
      && (if due && o.hasSource then o'.meter.ticks == o.meter.ticks + 1 else o'.meter == o.meter)
      && (due ==> now <= o'.nextSlot < now + o.settings.Interval()
                  && OnGrid(o.nextSlot, o'.nextSlot, o.settings.Interval()))
      && (!due ==> o'.nextSlot == o.nextSlot)
  {
    AlignedFacts(o.nextSlot, now, o.settings.Interval());
    hide MeterOk, Aligned;
  }

  ghost predicate Reported(
    before: seq<Observed>, n: nat, now: nat, samples: nat -> Sample, reported: map<nat, Verdict>)
    requires AllOk(before) && n <= |before|
  {
    && (forall i :: i in reported <==> 0 <= i < n && Report(before[i], now, samples(i)) != Nothing)
    && (forall i :: i in reported ==> reported[i] == Report(before[i], now, samples(i)))
  }

  lemma PassedExtends(before: seq<Observed>, after: seq<Observed>, i: nat, now: nat, samples: nat -> Sample)
    requires AllOk(before) && i < |before| && Passed(before, after, i, now, samples)
    ensures Passed(before, after[i := AfterPass(before[i], now, samples(i))], i + 1, now, samples)
  {
    hide AfterPass;
  }

  lemma ReportedExtends(
    before: seq<Observed>, i: nat, now: nat, samples: nat -> Sample, reported: map<nat, Verdict>, verdict: Verdict)
    requires AllOk(before) && i < |before| && Reported(before, i, now, samples, reported)
    requires verdict == Report(before[i], now, samples(i))
    ensures Reported(before, i + 1, now, samples, if verdict == Nothing then reported else reported[i := verdict])
  {
    hide Report;
  }

  /** The set of monitored objects, in the order in which a pass happens to visit them. */
  class MonitorObjects {
    var monitor: seq<MonitorObject>

    ghost predicate Valid()
      reads this, monitor
      ensures Valid() ==> AllOk(Views(monitor))
    {
      && (forall i :: 0 <= i < |monitor| ==> monitor[i].Valid())
      && (forall i, j :: 0 <= i < j < |monitor| ==> monitor[i] != monitor[j])
    }

    /** The part of a pass that touches one object. */
    method Visit(info: MonitorObject, scheduledTime: nat, sample: Sample) returns (reason: Verdict)
      requires info.Valid() && Fits(View(info), scheduledTime)
      modifies info
      ensures info.Valid()
      ensures View(info) == AfterPass(old(View(info)), scheduledTime, sample)
      ensures reason == Report(old(View(info)), scheduledTime, sample)
    {
      reason := Nothing;
      if info.active && info.nextSlot <= scheduledTime {
        hide Evaluated;
        var status := info.Evaluate(sample);
        if status.Bad() {
          reason := if status.exceededMemory then MemoryExceeded else Failure;
        }
        info.Retrigger(scheduledTime);
      }
    }

    /** One pass at `scheduledTime`; the clock reads `later` when it ends. Returns how the
        job is scheduled next and which objects were reported for deactivation. */
    method Dispatch(scheduledTime: nat, later: nat, samples: nat -> Sample)
      returns (job: Job, reported: map<nat, Verdict>, ghost nextSlot: nat)
      requires Valid() && forall i :: 0 <= i < |monitor| ==> Fits(View(monitor[i]), scheduledTime)
      modifies monitor
      ensures Valid() && monitor == old(monitor)
      ensures Passed(old(Views(monitor)), Views(monitor), |monitor|, scheduledTime, samples)
      ensures Reported(old(Views(monitor)), |monitor|, scheduledTime, samples, reported)
      ensures IsEarliest(Views(monitor), nextSlot)
      ensures job == (if nextSlot == LONG - 1 then Stop
                      else if nextSlot < later then SubmitNow
                      else RescheduleAt(nextSlot + 1000))
      ensures job.Stop? <==> forall i :: 0 <= i < |monitor| ==> !monitor[i].active
    {
      hide MeterOk, IsEarliest, AfterPass, Report, ObservedOk;
      ghost var before := Views(monitor);
      assert Passed(before, before, 0, scheduledTime, samples);
      assert Reported(before, 0, scheduledTime, samples, map[]);
      var next: nat := LONG - 1;
      reported := map[];
      SentinelIsEarliest();
      for i := 0 to |monitor|
        invariant Valid() && monitor == old(monitor)
        invariant Passed(before, Views(monitor), i, scheduledTime, samples)
        invariant Reported(before, i, scheduledTime, samples, reported)
        invariant IsEarliest(Views(monitor)[..i], next)
      {
        ghost var views, earliest := Views(monitor), next;
        var info := monitor[i];
        assert View(info) == before[i];
        PassedExtends(before, views, i, scheduledTime, samples);
        var reason := Visit(info, scheduledTime, samples(i));
        ReportedExtends(before, i, scheduledTime, samples, reported, reason);
        hide Passed, Reported;
        if reason != Nothing {
          reported := reported[i := reason];
        }
        if info.active && info.nextSlot < next {
          next := info.nextSlot;
        }
        assert Views(monitor) == views[i := View(info)];
        EarliestExtends(views[..i], earliest, View(info));
        assert Views(monitor)[..i + 1] == views[..i] + [View(info)];
      }
      assert Views(monitor)[..|monitor|] == Views(monitor);
      StopsIffNoneActive(Views(monitor), next);
      nextSlot := next;
      if next != LONG - 1 {
        job := if next < later then SubmitNow else RescheduleAt(next + 1000);
      } else {
        job := Stop;
      }
    }
  }

  /** After a pass every active object is due no earlier than the scheduled time, on its
      old grid, and a late one less than an interval after it. */
  lemma PassMovesSlots(o: Observed, now: nat, s: Sample)
    requires MeterOk(o.settings, o.meter) && o.settings.Interval() > 0 && o.active
    ensures var o' := AfterPass(o, now, s); var interval := o.settings.Interval();
      && now <= o'.nextSlot && OnGrid(o.nextSlot, o'.nextSlot, interval)
      && (o.nextSlot < now ==> o'.nextSlot < now + interval)
      && (o.nextSlot <= now ==> (o'.nextSlot == now <==> OnGrid(o.nextSlot, now, interval)))
  {
    AlignedFacts(o.nextSlot, now, o.settings.Interval());
    if o.nextSlot <= now {
      MovesPastIff(o.nextSlot, now, o.settings.Interval());
    }
  }
}
