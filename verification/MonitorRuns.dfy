/**
 * An object over any run of dispatch passes: how its evaluations keep time.
 */
module MonitorRuns {
  import opened Common
  import opened MonitorTicks
  import opened Monitor

  /** A pass at a scheduled time, with what the object answers in it. */
  datatype Pass = Pass(now: nat, sample: Sample)

  predicate Sound(o: Observed) {
    MeterOk(o.settings, o.meter) && o.settings.Interval() > 0
  }

  lemma PassKeepsSound(o: Observed, now: nat, s: Sample)
    requires Sound(o)
    ensures var o' := AfterPass(o, now, s);
      Sound(o') && o'.settings == o.settings && o'.active == o.active && o'.hasSource == o.hasSource
  {
    EvaluatedKeepsMeter(o.settings, o.meter, s);
  }

  ghost function AfterPasses(o: Observed, passes: seq<Pass>): (o': Observed)
    requires Sound(o)
    ensures Sound(o') && o'.settings == o.settings && o'.active == o.active && o'.hasSource == o.hasSource
  {
    if passes == [] then o
    else
      var before, last := AfterPasses(o, passes[..|passes| - 1]), passes[|passes| - 1];
      PassKeepsSound(before, last.now, last.sample);
      AfterPass(before, last.now, last.sample)
  }

  /** The pass comes at the very slot of the object, which stays due. */
  predicate Repeats(o: Observed, now: nat) {
    o.active && o.nextSlot == now
  }

  /** The slots of its grid that the object passes over without an evaluation. */
  function Skipped(o: Observed, now: nat): nat
    requires o.settings.Interval() > 0
  {
    var interval := o.settings.Interval();
    if o.active && o.nextSlot + interval < now then (now - o.nextSlot - 1) / interval else 0
  }

  ghost function RepeatsIn(o: Observed, passes: seq<Pass>): nat
    requires Sound(o)
  {
    if passes == [] then 0
    else
      var front := passes[..|passes| - 1];
      RepeatsIn(o, front) + if Repeats(AfterPasses(o, front), passes[|passes| - 1].now) then 1 else 0
  }

  ghost function SkippedIn(o: Observed, passes: seq<Pass>): nat
    requires Sound(o)
  {
    if passes == [] then 0
    else
      var front := passes[..|passes| - 1];
      SkippedIn(o, front) + Skipped(AfterPasses(o, front), passes[|passes| - 1].now)
  }

  /** No pass comes more than an interval after the object's slot. */
  ghost predicate Punctual(o: Observed, passes: seq<Pass>)
    requires Sound(o)
  {
    passes == []
    || (var front := passes[..|passes| - 1];
        var before := AfterPasses(o, front);
        && Punctual(o, front)
        && (o.active ==> passes[|passes| - 1].now <= before.nextSlot + before.settings.Interval()))
  }

  predicate InOrder(passes: seq<Pass>) {
    forall i :: 0 < i < |passes| ==> passes[i - 1].now <= passes[i].now
  }

  // ------------------------------------------------- one pass

  lemma ElapsedAdds(a: nat, b: nat, tick: nat)
    ensures Elapsed(a + b, tick) == Elapsed(a, tick) + Elapsed(b, tick)
  {
    DifferenceOfMultiples(a + b, b, tick);
  }

  lemma ElapsedOnce(tick: nat)
    ensures Elapsed(1, tick) == tick && Elapsed(0, tick) == 0
  {
  }

  /** A late slot moves over the slots skipped and one more. */
  lemma LateSlotMoves(slot: nat, now: nat, interval: nat)
    requires interval > 0 && slot < now
    ensures var skipped := if slot + interval < now then (now - slot - 1) / interval else 0;
      Aligned(slot, now, interval) == slot + Elapsed(skipped + 1, interval)
  {
    var q, r := Quotient(now - slot - 1, interval);
    assert now - slot + interval - 1 == (now - slot - 1) + interval;
    DifferenceOfMultiples(q + 1, q, interval);
    QuotientIsUnique(now - slot + interval - 1, interval, q + 1, r);
    if slot + interval >= now {
      QuotientIsUnique(now - slot - 1, interval, 0, now - slot - 1);
    }
  }

  lemma SkippedIffLate(o: Observed, now: nat)
    requires o.settings.Interval() > 0
    ensures Skipped(o, now) == 0 <==> !o.active || now <= o.nextSlot + o.settings.Interval()
  {
    var interval := o.settings.Interval();
    if o.active && o.nextSlot + interval < now {
      var q, r := Quotient(now - o.nextSlot - 1, interval);
      assert q == 0 ==> q * interval == 0;
    }
  }

  /** An evaluation for each slot moved on, but for the slots skipped, and one more if the
      pass comes at the slot itself. */
  lemma PassKeepsTime(o: Observed, now: nat, s: Sample)
    requires Sound(o) && o.active && o.hasSource
    ensures var o' := AfterPass(o, now, s); var interval := o.settings.Interval();
      && o.meter.ticks <= o'.meter.ticks && o.nextSlot <= o'.nextSlot && now <= o'.nextSlot
      && Elapsed(o'.meter.ticks - o.meter.ticks, interval) + Elapsed(Skipped(o, now), interval)
         == o'.nextSlot - o.nextSlot + (if Repeats(o, now) then interval else 0)
      && (o'.nextSlot == o.nextSlot || o'.nextSlot < now + interval)
  {
    var interval := o.settings.Interval();
    ElapsedOnce(interval);
    AlignedFacts(o.nextSlot, now, interval);
    hide MeterOk, Elapsed;
    if o.nextSlot < now {
      LateSlotMoves(o.nextSlot, now, interval);
      hide Aligned;
      ElapsedAdds(Skipped(o, now), 1, interval);
    }
  }

  // ------------------------------------------------- every run

  /** The intervals evaluated and skipped make up the time passed and the repeats. */
  predicate Balanced(evaluated: int, skipped: nat, time: int, repeated: nat, interval: nat) {
    evaluated >= 0 && Elapsed(evaluated, interval) + Elapsed(skipped, interval) == time + Elapsed(repeated, interval)
  }

  lemma BalanceAdds(
    evaluated: int, skipped: nat, time: int, repeated: nat,
    evaluated': int, skipped': nat, time': int, repeated': nat, interval: nat)
    requires Balanced(evaluated, skipped, time, repeated, interval)
    requires Balanced(evaluated', skipped', time', repeated', interval)
    ensures Balanced(evaluated + evaluated', skipped + skipped', time + time', repeated + repeated', interval)
  {
    ElapsedAdds(evaluated, evaluated', interval);
    ElapsedAdds(skipped, skipped', interval);
    ElapsedAdds(repeated, repeated', interval);
    hide Elapsed;
  }

  /** What a run is, by its last pass. */
  lemma LastPass(o: Observed, passes: seq<Pass>)
    requires Sound(o) && passes != []
    ensures var front, last := passes[..|passes| - 1], passes[|passes| - 1];
      var before := AfterPasses(o, front);
      && AfterPasses(o, passes) == AfterPass(before, last.now, last.sample)
      && RepeatsIn(o, passes) == RepeatsIn(o, front) + (if Repeats(before, last.now) then 1 else 0)
      && SkippedIn(o, passes) == SkippedIn(o, front) + Skipped(before, last.now)
      && (Punctual(o, passes)
          <==> Punctual(o, front) && (o.active ==> last.now <= before.nextSlot + o.settings.Interval()))
  {
    hide Sound, AfterPass, Repeats, Skipped;
  }

  lemma NoPass(o: Observed)
    requires Sound(o)
    ensures AfterPasses(o, []) == o && RepeatsIn(o, []) == SkippedIn(o, []) == 0
    ensures Balanced(0, 0, 0, 0, o.settings.Interval())
  {
  }

  lemma PassIsBalanced(o: Observed, now: nat, s: Sample)
    requires Sound(o) && o.active && o.hasSource
    ensures var o' := AfterPass(o, now, s);
      Balanced(o'.meter.ticks - o.meter.ticks, Skipped(o, now), o'.nextSlot - o.nextSlot,
               if Repeats(o, now) then 1 else 0, o.settings.Interval())
  {
    PassKeepsTime(o, now, s);
    ElapsedOnce(o.settings.Interval());
    hide AfterPass, Elapsed, Skipped;
  }

  /** In any run of passes the intervals evaluated and those skipped make up the time that the
      slot has moved on, with one interval more for each pass that came at the slot itself. */
  lemma {:induction false} PassesKeepTime(o: Observed, passes: seq<Pass>)
    requires Sound(o) && o.active && o.hasSource
    ensures var o' := AfterPasses(o, passes);
      Balanced(o'.meter.ticks - o.meter.ticks, SkippedIn(o, passes),
               o'.nextSlot - o.nextSlot, RepeatsIn(o, passes), o.settings.Interval())
  {
    hide MeterOk, AfterPass, AfterPasses, RepeatsIn, SkippedIn, Balanced, Skipped, Repeats;
    if passes == [] {
      NoPass(o);
    } else {
      var front, last := passes[..|passes| - 1], passes[|passes| - 1];
      LastPass(o, passes);
      PassesKeepTime(o, front);
      var before := AfterPasses(o, front);
      PassIsBalanced(before, last.now, last.sample);
      var after := AfterPasses(o, passes);
      BalanceAdds(
        before.meter.ticks - o.meter.ticks, SkippedIn(o, front), before.nextSlot - o.nextSlot, RepeatsIn(o, front),
        after.meter.ticks - before.meter.ticks, Skipped(before, last.now), after.nextSlot - before.nextSlot,
        if Repeats(before, last.now) then 1 else 0, o.settings.Interval());
    }
  }

  /** Nothing is skipped exactly when no pass comes more than an interval after the slot. */
  lemma {:induction false} NothingSkippedIff(o: Observed, passes: seq<Pass>)
    requires Sound(o) && o.active
    ensures SkippedIn(o, passes) == 0 <==> Punctual(o, passes)
  {
    if passes != [] {
      LastPass(o, passes);
      NothingSkippedIff(o, passes[..|passes| - 1]);
      SkippedIffLate(AfterPasses(o, passes[..|passes| - 1]), passes[|passes| - 1].now);
      hide AfterPass, AfterPasses, SkippedIn, Skipped, Punctual;
    }
  }

  /** In order of time, the slot ends where the last pass needs it. */
  lemma {:induction false} SlotFollowsPasses(o: Observed, passes: seq<Pass>)
    requires Sound(o) && o.active && o.hasSource && passes != [] && InOrder(passes)
    ensures var o', now := AfterPasses(o, passes), passes[|passes| - 1].now;
      now <= o'.nextSlot && (o'.nextSlot == o.nextSlot || o'.nextSlot < now + o.settings.Interval())
  {
    var front, last := passes[..|passes| - 1], passes[|passes| - 1];
    LastPass(o, passes);
    PassKeepsTime(AfterPasses(o, front), last.now, last.sample);
    if front != [] {
      SlotFollowsPasses(o, front);
      assert passes[|passes| - 2].now <= last.now;
    }
    hide AfterPass, Elapsed, Skipped, Repeats;
  }

  /** So an object that is new when the run begins has been probed, and measured, once for each
      of its periods in the time its slot has moved on: less the time skipped, and an interval
      sooner for each pass that came at its slot. */
  lemma RatesKeepTime(o: Observed, passes: seq<Pass>)
    requires Sound(o) && o.active && o.hasSource && o.meter.ticks == 0
    ensures var o', c := AfterPasses(o, passes), o.settings; var interval := c.Interval();
      var time := o'.nextSlot - o.nextSlot
                  + Elapsed(RepeatsIn(o, passes), interval) - Elapsed(SkippedIn(o, passes), interval);
      && (c.operationalInterval != 0 ==> o'.meter.probes == time / c.operationalInterval)
      && (c.memoryInterval != 0 ==> o'.meter.measurements == time / c.memoryInterval)
  {
    hide Elapsed, AfterPasses, RepeatsIn, SkippedIn, MeterOk;
    PassesKeepTime(o, passes);
    RatesAreExact(o.settings, AfterPasses(o, passes).meter);
    var ticks := AfterPasses(o, passes).meter.ticks;
    assert ticks - o.meter.ticks == ticks;
  }
}
