/**
 * The arithmetic behind the Monitor plugin: the tick at which a monitored object is
 * evaluated, the two countdowns it drives, the grid its next slot moves along, and
 * the restart budget.
 */
module MonitorTicks {
  import opened Common

  // ------------------------------------------------- division by a positive number

  lemma MultipleIsLarge(k: int, d: int)
    requires k >= 1 && d > 0
    ensures k * d >= d
  {
    assert (k - 1) * d >= 0;
  }

  /** The only multiple of `d` nearer to zero than `d` is zero. */
  lemma SmallMultipleIsZero(k: int, d: int)
    requires -d < k * d < d
    ensures k == 0
  {
    if k >= 1 {
      MultipleIsLarge(k, d);
    } else if k <= -1 {
      MultipleIsLarge(-k, d);
    }
  }

  lemma DifferenceOfMultiples(a: int, b: int, d: int)
    ensures a * d - b * d == (a - b) * d
  {
  }

  lemma Quotient(n: int, d: int) returns (q: int, r: int)
    requires d > 0
    ensures q == n / d && r == n % d && n == q * d + r && 0 <= r < d
  {
    q, r := n / d, n % d;
  }

  lemma QuotientIsUnique(n: int, d: int, q: int, r: int)
    requires d > 0 && n == q * d + r && 0 <= r < d
    ensures n / d == q && n % d == r
  {
    var q', r' := Quotient(n, d);
    DifferenceOfMultiples(q, q', d);
    SmallMultipleIsZero(q - q', d);
  }

  predicate Divides(d: nat, n: nat) {
    d > 0 && n % d == 0
  }

  lemma DividesMultiple(d: nat, k: nat)
    requires d > 0
    ensures Divides(d, k * d) && k * d / d == k
  {
    QuotientIsUnique(k * d, d, k, 0);
  }

  lemma DividesCombination(d: nat, x: nat, y: nat, k: nat)
    requires Divides(d, x) && Divides(d, y)
    ensures Divides(d, k * x + y)
  {
    var a, b := x / d, y / d;
    assert k * x + y == (k * a + b) * d by {
      assert x == a * d && y == b * d;
      assert k * (a * d) == (k * a) * d;
    }
    DividesMultiple(d, k * a + b);
  }

  lemma DividesRemainder(d: nat, x: nat, y: nat)
    requires Divides(d, x) && Divides(d, y) && y > 0
    ensures Divides(d, x % y)
  {
    var a, b, k := x / d, y / d, x / y;
    var m := a - k * b;
    assert x % y == m * d by {
      assert x == a * d && y == b * d && x == k * y + x % y;
      assert k * (b * d) == (k * b) * d;
    }
    assert m >= 0;
    DividesMultiple(d, m);
  }

  lemma DivisorIsSmaller(d: nat, n: nat)
    requires Divides(d, n) && n > 0
    ensures d <= n && n / d > 0
  {
    var q, r := Quotient(n, d);
    MultipleIsLarge(q, d);
  }

  // ------------------------------------------------- the tick

  function Gcd(a: nat, b: nat): nat
    decreases b
  {
    if b == 0 then a else Gcd(b, a % b)
  }

  /** The tick divides both periods, and every tick that does divides it. */
  lemma {:induction false} GcdIsGreatest(a: nat, b: nat)
    requires a != 0 || b != 0
    ensures Divides(Gcd(a, b), a) && Divides(Gcd(a, b), b)
    ensures forall d: nat :: Divides(d, a) && Divides(d, b) ==> Divides(d, Gcd(a, b))
    decreases b
  {
    if b != 0 {
      GcdIsGreatest(b, a % b);
      var g := Gcd(a, b);
      DividesCombination(g, b, a % b, a / b);
      assert a == (a / b) * b + a % b;
      forall d: nat | Divides(d, a) && Divides(d, b)
        ensures Divides(d, a % b)
      {
        DividesRemainder(d, a, b);
      }
    }
  }

  lemma {:induction false} GcdIsPositive(a: nat, b: nat)
    requires a != 0 || b != 0
    ensures Gcd(a, b) > 0
    decreases b
  {
    if b != 0 {
      GcdIsPositive(b, a % b);
    }
  }

  function Elapsed(n: nat, tick: nat): nat { n * tick }

  /** A tick meets a period when some whole number of ticks adds up to it. */
  ghost predicate Meets(tick: nat, period: nat) {
    tick > 0 && exists n: nat :: Elapsed(n, tick) == period
  }

  lemma MeetsIffDivides(tick: nat, period: nat)
    ensures Meets(tick, period) <==> Divides(tick, period)
  {
    if Divides(tick, period) {
      assert Elapsed(period / tick, tick) == period;
    }
    if Meets(tick, period) {
      var n: nat :| Elapsed(n, tick) == period;
      DividesMultiple(tick, n);
    }
  }

  /** The tick is the longest one that meets both periods. */
  lemma LongestTick(a: nat, b: nat)
    requires a != 0 || b != 0
    ensures Meets(Gcd(a, b), a) && Meets(Gcd(a, b), b)
    ensures forall t: nat :: Meets(t, a) && Meets(t, b) ==> t <= Gcd(a, b)
  {
    GcdIsGreatest(a, b);
    GcdIsPositive(a, b);
    MeetsIffDivides(Gcd(a, b), a);
    MeetsIffDivides(Gcd(a, b), b);
    forall t: nat | Meets(t, a) && Meets(t, b)
      ensures t <= Gcd(a, b)
    {
      MeetsIffDivides(t, a);
      MeetsIffDivides(t, b);
      assert Divides(t, Gcd(a, b));
      DivisorIsSmaller(t, Gcd(a, b));
    }
  }

  // ------------------------------------------------- countdowns

  /** Subtraction of unsigned 32-bit numbers. */
  function Less(slots: nat, tick: nat): nat
    requires slots < WORD && tick < WORD
  {
    if tick <= slots then slots - tick else slots + WORD - tick
  }

  /** One evaluation of a countdown; it fires and restarts on reaching zero. */
  function Count(slots: nat, tick: nat, period: nat): (r: (nat, bool))
    requires slots < WORD && tick < WORD && period < WORD
    ensures r.0 < WORD
  {
    var left := Less(slots, tick);
    if period != 0 && left == 0 then (period, true) else (left, false)
  }

  /** The countdown and the number of times it fired, after `n` evaluations. */
  function Countdown(n: nat, tick: nat, period: nat): (r: (nat, nat))
    requires tick < WORD && period < WORD
    ensures r.0 < WORD
  {
    if n == 0 then (period, 0)
    else
      var (slots, fired) := Countdown(n - 1, tick, period);
      var (slots', fires) := Count(slots, tick, period);
      (slots', if fires then fired + 1 else fired)
  }

  /** One more evaluation, in whole ticks: `left` of `m` ticks remain before it. */
  lemma CountOneTick(left: nat, m: nat, tick: nat)
    requires 0 < tick && 0 < left <= m && m * tick < WORD
    ensures left * tick < WORD && tick < WORD
    ensures Count(left * tick, tick, m * tick)
         == (if left == 1 then (m * tick, true) else ((left - 1) * tick, false))
  {
    DifferenceOfMultiples(m, left, tick);
    DifferenceOfMultiples(left, 1, tick);
    MultipleIsLarge(left, tick);
    MultipleIsLarge(m, tick);
    if left > 1 {
      MultipleIsLarge(left - 1, tick);
    }
    if left < m {
      MultipleIsLarge(m - left, tick);
    }
  }

  /** Counting modulo `m`. */
  lemma NextRemainder(n: nat, m: nat)
    requires m > 0
    ensures if n % m + 1 == m then (n + 1) / m == n / m + 1 && (n + 1) % m == 0
            else (n + 1) / m == n / m && (n + 1) % m == n % m + 1
  {
    var q, j := Quotient(n, m);
    DifferenceOfMultiples(q + 1, q, m);
    if j + 1 == m {
      QuotientIsUnique(n + 1, m, q + 1, 0);
    } else {
      QuotientIsUnique(n + 1, m, q, j + 1);
    }
  }

  lemma {:induction false} CountdownInTicks(n: nat, tick: nat, m: nat)
    requires 0 < tick < WORD && 0 < m && m * tick < WORD
    ensures Countdown(n, tick, m * tick) == ((m - n % m) * tick, n / m)
  {
    if n == 0 {
      QuotientIsUnique(0, m, 0, 0);
    } else {
      CountdownInTicks(n - 1, tick, m);
      var q, j := Quotient(n - 1, m);
      NextRemainder(n - 1, m);
      CountOneTick(m - j, m, tick);
    }
  }

  lemma Reassociate(a: int, b: int, c: int)
    ensures (a * b) * c == a * (b * c)
  {
  }

  /** Whole ticks scale: `n` ticks are `n / m` periods of `m` ticks and `n % m` ticks more. */
  lemma ElapsedInPeriods(n: nat, tick: nat, m: nat)
    requires tick > 0 && m > 0
    ensures m * tick > 0
    ensures Elapsed(n, tick) / (m * tick) == n / m
    ensures Elapsed(n, tick) % (m * tick) == (n % m) * tick
  {
    var q, j := Quotient(n, m);
    MultipleIsLarge(m, tick);
    DifferenceOfMultiples(m, j, tick);
    MultipleIsLarge(m - j, tick);
    calc {
      n * tick;
      (q * m + j) * tick;
      { DifferenceOfMultiples(q * m, -j, tick); }
      (q * m) * tick + j * tick;
      { Reassociate(q, m, tick); }
      q * (m * tick) + j * tick;
    }
    assert j * tick >= 0;
    QuotientIsUnique(n * tick, m * tick, q, j * tick);
  }

  lemma ScaledCountdownKeepsTime(n: nat, tick: nat, m: nat, period: nat)
    requires 0 < tick < WORD && m > 0 && period == m * tick && 0 < period < WORD
    ensures Countdown(n, tick, period) == (period - Elapsed(n, tick) % period, Elapsed(n, tick) / period)
    ensures Divides(tick, Countdown(n, tick, period).0)
    ensures tick <= Countdown(n, tick, period).0
  {
    var q, j := Quotient(n, m);
    CountdownInTicks(n, tick, m);
    ElapsedInPeriods(n, tick, m);
    DifferenceOfMultiples(m, j, tick);
    MultipleIsLarge(m - j, tick);
    DividesMultiple(tick, m - j);
  }

  /** After `n` evaluations the countdown has fired floor(n * tick / period) times and
      stands at what is left of the period: a positive multiple of the tick. */
  lemma CountdownKeepsTime(n: nat, tick: nat, period: nat)
    requires 0 < period < WORD && tick < WORD && Divides(tick, period)
    ensures Countdown(n, tick, period) == (period - Elapsed(n, tick) % period, Elapsed(n, tick) / period)
    ensures Divides(tick, Countdown(n, tick, period).0)
    ensures tick <= Countdown(n, tick, period).0
  {
    var m, r := Quotient(period, tick);
    DivisorIsSmaller(tick, period);
    ScaledCountdownKeepsTime(n, tick, m, period);
  }

  // ------------------------------------------------- the grid of slots

  /** The first slot of the grid `slot + k * interval` that is not before `now`. */
  function Aligned(slot: nat, now: nat, interval: nat): nat
    requires interval > 0
  {
    if slot >= now then slot else slot + Elapsed((now - slot + interval - 1) / interval, interval)
  }

  predicate OnGrid(slot: nat, t: nat, interval: nat)
    requires interval > 0
  {
    slot <= t && (t - slot) % interval == 0
  }

  /** Not before `now`, on the old grid, less than one interval late, unmoved if not due. */
  lemma AlignedFacts(slot: nat, now: nat, interval: nat)
    requires interval > 0
    ensures var t := Aligned(slot, now, interval);
      && now <= t && OnGrid(slot, t, interval)
      && (slot < now ==> t < now + interval)
      && (slot >= now ==> t == slot)
  {
    if slot < now {
      DividesMultiple(interval, (now - slot + interval - 1) / interval);
    } else {
      QuotientIsUnique(0, interval, 0, 0);
    }
  }

  /** Those conditions leave no choice. */
  lemma AlignedIsUnique(slot: nat, now: nat, interval: nat, t: nat)
    requires interval > 0 && slot < now <= t < now + interval && OnGrid(slot, t, interval)
    ensures t == Aligned(slot, now, interval)
  {
    var t' := Aligned(slot, now, interval);
    AlignedFacts(slot, now, interval);
    var a, r := Quotient(t - slot, interval);
    var b, r' := Quotient(t' - slot, interval);
    DifferenceOfMultiples(a, b, interval);
    SmallMultipleIsZero(a - b, interval);
  }

  /** An evaluated object's slot moves past the scheduled time exactly when that time is
      not itself on its grid; otherwise the same slot is due again. */
  lemma MovesPastIff(slot: nat, now: nat, interval: nat)
    requires interval > 0 && slot <= now
    ensures Aligned(slot, now, interval) > now <==> !OnGrid(slot, now, interval)
  {
    AlignedFacts(slot, now, interval);
    if slot < now && OnGrid(slot, now, interval) {
      AlignedIsUnique(slot, now, interval, now);
    }
  }

  lemma AlignedStep(slot: nat, now: nat, interval: nat)
    requires interval > 0 && slot < now
    ensures Aligned(slot + interval, now, interval) == Aligned(slot, now, interval)
  {
    var t := Aligned(slot + interval, now, interval);
    AlignedFacts(slot + interval, now, interval);
    var k := (t - (slot + interval)) / interval;
    assert t - slot == (k + 1) * interval;
    DividesMultiple(interval, k + 1);
    AlignedIsUnique(slot, now, interval, t);
  }
}
