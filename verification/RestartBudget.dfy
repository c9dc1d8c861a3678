/**
 * The restart budget of a monitored object (MonitorObject::RegisterRestart). Times are
 * in milliseconds; `windowEnd` is the field that the source calls _restartWindowStart.
 */
module RestartBudget {
  import opened Common
  import opened MonitorTicks

  datatype Budget = Budget(window: nat, limit: nat, windowEnd: Option<nat>, count: nat)

  predicate WithinWindow(b: Budget, now: nat) {
    (b.windowEnd.Some? && b.windowEnd.value > now) || b.window == 0
  }

  /** One failure. The count goes from c to 2c + 1, since the source adds the
      incremented count to itself. */
  function Register(b: Budget, now: nat): (Budget, bool) {
    var counted :=
      if WithinWindow(b, now) then b.(count := (b.count + b.count + 1) % WORD)
      else b.(windowEnd := Some(now + b.window * 1000), count := 0);
    var granted := b.limit == 0 || counted.count < b.limit;
    (if granted then counted else counted.(count := 0), granted)
  }

  /** The restarts granted before the first refusal, for failures at `times`. */
  function Grants(b: Budget, times: seq<nat>): nat
    decreases |times|
  {
    if times == [] then 0
    else
      var (b', granted) := Register(b, times[0]);
      if granted then 1 + Grants(b', times[1..]) else 0
  }

  /** floor(log2 n) */
  function Log2(n: nat): nat
    requires n > 0
  {
    if n == 1 then 0 else 1 + Log2(n / 2)
  }

  lemma {:induction false} Pow2Grows(k: nat)
    ensures Pow2(k) > k && (k >= 2 ==> Pow2(k) > k + 1)
  {
    if k > 0 {
      Pow2Grows(k - 1);
    }
  }

  lemma {:induction false} Log2Brackets(n: nat)
    requires n > 0
    ensures Pow2(Log2(n)) <= n < Pow2(Log2(n) + 1)
  {
    if n > 1 {
      Log2Brackets(n / 2);
    }
  }

  lemma {:induction false} Pow2Monotone(a: nat, b: nat)
    requires a <= b
    ensures Pow2(a) <= Pow2(b)
  {
    if a < b {
      Pow2Monotone(a, b - 1);
    }
  }

  lemma Pow2FitsIff(k: nat, n: nat)
    requires n > 0
    ensures Pow2(k) <= n <==> k <= Log2(n)
  {
    Log2Brackets(n);
    if k <= Log2(n) {
      Pow2Monotone(k, Log2(n));
    } else {
      Pow2Monotone(Log2(n) + 1, k);
    }
  }

  function Min(a: nat, b: nat): nat { if a < b then a else b }

  lemma RegisterInWindow(b: Budget, k: nat, now: nat)
    requires 1 <= b.limit < 0x100 && b.count == Pow2(k) - 1 && k <= Log2(b.limit)
    requires b.window == 0 || (b.windowEnd.Some? && now < b.windowEnd.value)
    ensures var (b', granted) := Register(b, now);
      && (granted <==> k + 1 <= Log2(b.limit))
      && (granted ==> b' == b.(count := Pow2(k + 1) - 1))
  {
    Pow2FitsIff(k, b.limit);
    Pow2FitsIff(k + 1, b.limit);
    assert b.count + b.count + 1 == Pow2(k + 1) - 1 < WORD;
  }

  /** Inside a window, with `k` counted failures behind it, the count is 2^k - 1 and the
      remaining grants are those k' > k with 2^k' no larger than the limit. */
  lemma {:induction false} GrantsInWindow(b: Budget, k: nat, times: seq<nat>)
    requires 1 <= b.limit < 0x100 && b.count == Pow2(k) - 1 && k <= Log2(b.limit)
    requires b.window == 0
      || (b.windowEnd.Some? && forall i :: 0 <= i < |times| ==> times[i] < b.windowEnd.value)
    ensures Grants(b, times) == Min(|times|, Log2(b.limit) - k)
    decreases |times|
  {
    if times != [] {
      var (b', granted) := Register(b, times[0]);
      RegisterInWindow(b, k, times[0]);
      hide Register, Log2, Pow2;
      if granted {
        GrantsInWindow(b', k + 1, times[1..]);
      }
    }
  }

  /** With a window, the failures that open and stay in it are granted exactly
      floor(log2 limit) + 1 restarts before the first refusal, and never more than
      the limit. */
  lemma GrantsFromFreshWindow(b: Budget, times: seq<nat>)
    requires 1 <= b.limit < 0x100 && b.window > 0
    requires times != [] && (b.windowEnd == None || b.windowEnd.value <= times[0])
    requires forall i :: 0 <= i < |times| ==> times[i] < times[0] + b.window * 1000
    ensures Grants(b, times) == Min(|times|, Log2(b.limit) + 1) <= b.limit
  {
    var (b', granted) := Register(b, times[0]);
    GrantsInWindow(b', 0, times[1..]);
    Log2Brackets(b.limit);
    Pow2Grows(Log2(b.limit));
  }

  /** Whether each of the failures at `times` is granted a restart; a refusal does not end
      the window, but zeroes the count. */
  function Outcomes(b: Budget, times: seq<nat>): (granted: seq<bool>)
    ensures |granted| == |times|
    decreases |times|
  {
    if times == [] then []
    else
      var (b', granted) := Register(b, times[0]);
      [granted] + Outcomes(b', times[1..])
  }

  function Granted(outcomes: seq<bool>): nat {
    if outcomes == [] then 0 else (if outcomes[0] then 1 else 0) + Granted(outcomes[1..])
  }

  lemma RegisterAtLimit(b: Budget, k: nat, now: nat)
    requires 1 <= b.limit < 0x100 && b.count == Pow2(k) - 1 && k <= Log2(b.limit)
    requires b.window == 0 || (b.windowEnd.Some? && now < b.windowEnd.value)
    ensures var (b', granted) := Register(b, now);
      b' == b.(count := Pow2(if k < Log2(b.limit) then k + 1 else 0) - 1) && (granted <==> k < Log2(b.limit))
  {
    RegisterInWindow(b, k, now);
  }

  lemma WrapsAround(m: nat, n: nat)
    requires m > 0
    ensures (m + n) % m == n % m && (m + n) / m == n / m + 1
  {
    var q, r := Quotient(n, m);
    DifferenceOfMultiples(q + 1, q, m);
    QuotientIsUnique(m + n, m, q + 1, r);
  }

  lemma NoTurnYet(m: nat, n: nat)
    requires n < m
    ensures n % m == n && n / m == 0
  {
    QuotientIsUnique(n, m, 0, n);
  }

  /** The place in a period after `k` that is `i` further on. */
  function Next(k: nat, m: nat): nat { if k + 1 < m then k + 1 else 0 }

  lemma NextPlace(m: nat, k: nat, i: nat)
    requires k < m
    ensures (k + 1 + i) % m == (Next(k, m) + i) % m
    ensures (k + 1 + i) / m == (Next(k, m) + i) / m + (if k + 1 < m then 0 else 1)
  {
    if k + 1 == m {
      WrapsAround(m, i);
    }
  }

  lemma OutcomesPrepend(granted: bool, rest: seq<bool>, m: nat, k: nat)
    requires k < m && (granted <==> k + 1 < m)
    requires forall i :: 0 <= i < |rest| ==> (rest[i] <==> (Next(k, m) + i + 1) % m != 0)
    requires Granted(rest) == |rest| - (Next(k, m) + |rest|) / m
    ensures var outcomes := [granted] + rest;
      && (forall i :: 0 <= i < |outcomes| ==> (outcomes[i] <==> (k + i + 1) % m != 0))
      && Granted(outcomes) == |outcomes| - (k + |outcomes|) / m
  {
    var outcomes := [granted] + rest;
    assert outcomes[1..] == rest;
    NextPlace(m, k, |rest|);
    forall i | 0 <= i < |outcomes|
      ensures outcomes[i] <==> (k + i + 1) % m != 0
    {
      NextPlace(m, k, i);
      if i == 0 {
        NoTurnYet(m, Next(k, m));
      } else {
        assert outcomes[i] == rest[i - 1];
      }
    }
  }

  /** Inside a window, after `k` counted failures, every (floor(log2 limit) + 1)-th is refused. */
  lemma {:induction false} OutcomesInWindow(b: Budget, k: nat, times: seq<nat>)
    requires 1 <= b.limit < 0x100 && b.count == Pow2(k) - 1 && k <= Log2(b.limit)
    requires b.window == 0
      || (b.windowEnd.Some? && forall i :: 0 <= i < |times| ==> times[i] < b.windowEnd.value)
    ensures var m := Log2(b.limit) + 1; var outcomes := Outcomes(b, times);
      && (forall i :: 0 <= i < |times| ==> (outcomes[i] <==> (k + i + 1) % m != 0))
      && Granted(outcomes) == |times| - (k + |times|) / m
    decreases |times|
  {
    var m := Log2(b.limit) + 1;
    if times == [] {
      NoTurnYet(m, k);
    } else {
      var (b', granted) := Register(b, times[0]);
      RegisterAtLimit(b, k, times[0]);
      hide Register, Log2, Pow2;
      OutcomesInWindow(b', Next(k, m), times[1..]);
      var rest := Outcomes(b', times[1..]);
      assert Outcomes(b, times) == [granted] + rest;
      OutcomesPrepend(granted, rest, m, k);
    }
  }

  lemma RegisterOpens(b: Budget, now: nat)
    requires b.limit >= 1 && b.window > 0 && (b.windowEnd == None || b.windowEnd.value <= now)
    ensures Register(b, now) == (b.(windowEnd := Some(now + b.window * 1000), count := 0), true)
  {
  }

  lemma PowOfNone()
    ensures Pow2(0) == 1
  {
  }

  lemma LogIsLimitIff(limit: nat)
    requires limit >= 1
    ensures Log2(limit) + 1 == limit <==> limit <= 2
  {
    Log2Brackets(limit);
    Pow2Grows(Log2(limit));
  }

  /** Of more failures than the limit, in one fresh window, just as many as the limit are
      granted before the first refusal only for limits 1 and 2. */
  lemma BudgetIsLimitIff(b: Budget, times: seq<nat>)
    requires 1 <= b.limit < 0x100 && b.window > 0
    requires |times| > b.limit && (b.windowEnd == None || b.windowEnd.value <= times[0])
    requires forall i :: 0 <= i < |times| ==> times[i] < times[0] + b.window * 1000
    ensures Grants(b, times) == b.limit <==> b.limit <= 2
  {
    GrantsFromFreshWindow(b, times);
    LogIsLimitIff(b.limit);
  }

  /** With no window the first failure already counts, so one restart fewer is granted;
      a limit of one grants none. */
  lemma GrantsWithoutWindow(b: Budget, times: seq<nat>)
    requires 1 <= b.limit < 0x100 && b.window == 0 && b.count == 0
    ensures Grants(b, times) == Min(|times|, Log2(b.limit))
  {
    GrantsInWindow(b, 0, times);
  }

  /** A limit of zero never refuses. */
  lemma {:induction false} NoLimitNeverRefuses(b: Budget, times: seq<nat>)
    requires b.limit == 0
    ensures Grants(b, times) == |times|
    decreases |times|
  {
    if times != [] {
      NoLimitNeverRefuses(Register(b, times[0]).0, times[1..]);
    }
  }

  lemma FirstOpens(b: Budget, times: seq<nat>)
    requires b.limit >= 1 && b.window > 0 && times != []
    requires b.windowEnd == None || b.windowEnd.value <= times[0]
    ensures var b' := b.(windowEnd := Some(times[0] + b.window * 1000), count := 0);
      Outcomes(b, times) == [true] + Outcomes(b', times[1..])
  {
    RegisterOpens(b, times[0]);
    hide Register;
  }

  lemma OutcomesOpen(rest: seq<bool>, m: nat)
    requires m > 0 && forall i :: 0 <= i < |rest| ==> (rest[i] <==> (i + 1) % m != 0)
    requires Granted(rest) == |rest| - |rest| / m
    ensures var outcomes := [true] + rest;
      && (forall i :: 0 <= i < |outcomes| ==> (outcomes[i] <==> i == 0 || i % m != 0))
      && Granted(outcomes) == |outcomes| - (|outcomes| - 1) / m
  {
    var outcomes := [true] + rest;
    assert outcomes[1..] == rest;
    forall i | 0 <= i < |outcomes|
      ensures outcomes[i] <==> i == 0 || i % m != 0
    {
      assert i > 0 ==> outcomes[i] == rest[i - 1];
    }
  }

  /** Of the failures that open a window and stay in it exactly every (floor(log2 limit) + 1)-th
      after the first is refused, so that an object is never given up for good. */
  lemma OutcomesFromFreshWindow(b: Budget, times: seq<nat>)
    requires 1 <= b.limit < 0x100 && b.window > 0
    requires times != [] && (b.windowEnd == None || b.windowEnd.value <= times[0])
    requires forall i :: 0 <= i < |times| ==> times[i] < times[0] + b.window * 1000
    ensures var m := Log2(b.limit) + 1; var outcomes := Outcomes(b, times);
      && (forall i :: 0 <= i < |times| ==> (outcomes[i] <==> i == 0 || i % m != 0))
      && Granted(outcomes) == |times| - (|times| - 1) / m
  {
    hide Register, Log2, Granted, Outcomes;
    var b' := b.(windowEnd := Some(times[0] + b.window * 1000), count := 0);
    FirstOpens(b, times);
    PowOfNone();
    OutcomesInWindow(b', 0, times[1..]);
    OutcomesOpen(Outcomes(b', times[1..]), Log2(b.limit) + 1);
  }

  // ------------------------------------------------- failures over several windows

  /** The budget after all the failures. */
  function After(b: Budget, times: seq<nat>): Budget {
    if times == [] then b else Register(After(b, times[..|times| - 1]), times[|times| - 1]).0
  }

  /** Which failure opened the window that failure `i` falls into: the first one opens a
      window, and so does each that comes when the last window has ended. */
  function Opener(times: seq<nat>, window: nat, i: nat): (o: nat)
    requires i < |times|
    ensures o <= i
  {
    if i == 0 then 0
    else
      var o := Opener(times, window, i - 1);
      if times[i] < times[o] + window * 1000 then o else i
  }

  lemma NextTurn(n: nat, m: nat)
    requires m > 0
    ensures (n + 1) % m == Next(n % m, m)
  {
    var q, r := Quotient(n, m);
    if r + 1 < m {
      QuotientIsUnique(n + 1, m, q, r + 1);
    } else {
      DifferenceOfMultiples(q + 1, q, m);
      QuotientIsUnique(n + 1, m, q + 1, 0);
    }
  }

  /** Whatever came before the first failure, each one is granted unless a positive multiple of
      floor(log2 limit) + 1 failures lies between it and the one that opened its window. */
  lemma {:induction false} OutcomeInItsWindow(b: Budget, times: seq<nat>, i: nat)
    requires 1 <= b.limit < 0x100 && b.window > 0 && i < |times|
    requires b.windowEnd == None || b.windowEnd.value <= times[0]
    ensures var m := Log2(b.limit) + 1; var o := Opener(times, b.window, i);
      var (b', granted) := Register(After(b, times[..i]), times[i]);
      && (granted <==> i == o || (i - o) % m != 0)
      && b' == After(b, times[..i + 1])
      && b' == b.(windowEnd := Some(times[o] + b.window * 1000), count := Pow2((i - o) % m) - 1)
  {
    hide Register, Log2, Pow2;
    var m := Log2(b.limit) + 1;
    assert times[..i + 1][..i] == times[..i];
    NoTurnYet(m, 0);
    PowOfNone();
    if i == 0 {
      RegisterOpens(b, times[0]);
    } else {
      OutcomeInItsWindow(b, times, i - 1);
      var o := Opener(times, b.window, i - 1);
      var before := After(b, times[..i]);
      if times[i] < times[o] + b.window * 1000 {
        var k := (i - 1 - o) % m;
        NextTurn(i - 1 - o, m);
        RegisterAtLimit(before, k, times[i]);
      } else {
        RegisterOpens(before, times[i]);
      }
    }
  }
}
