/**
 * The wait between download retries: each wait is the previous one times the golden
 * ratio, rounded (PackageManagerImplementation::nextRetryDuration).
 */
module RetryBackoff {

  /** The formula of the source, with `root5` standing for the square root of five. */
  function Rounded(n: int, root5: real): int {
    (n as real * (1.0 + root5) / 2.0 + 0.5).Floor
  }

  ghost predicate IsRoot5(root5: real) {
    root5 > 0.0 && root5 * root5 == 5.0
  }

  function Fib(k: nat): nat {
    if k < 2 then k else Fib(k - 2) + Fib(k - 1)
  }

  /** The wait before retry `j`, which starts from a wait of one. */
  function Wait(j: nat, root5: real): int {
    if j == 0 then 1 else Rounded(Wait(j - 1, root5), root5)
  }

  // ------------------------------------------------- rounding

  /** An integer condition under which `r` is the rounded product. */
  predicate Nearest(n: nat, r: nat) {
    && 2 * r >= n + 1
    && (2 * r - 1 - n) * (2 * r - 1 - n) < 5 * n * n
    && 5 * n * n < (2 * r + 1 - n) * (2 * r + 1 - n)
  }

  /** A product of reals that a proof can treat as one number. */
  function Times(x: real, y: real): real { x * y }

  lemma SquaresGrow(x: real, y: real)
    requires x >= y >= 0.0
    ensures x * x >= y * y
  {
    assert x * x >= y * x;
  }

  lemma SquaresCompare(x: real, y: real)
    requires x >= 0.0 && y >= 0.0 && Times(x, x) < Times(y, y)
    ensures x < y
  {
    if x >= y {
      SquaresGrow(x, y);
    }
  }

  function Square(x: int): int { x * x }

  lemma CastSquare(x: int)
    ensures Square(x) as real == Times(x as real, x as real)
  {
  }

  lemma CompareInReals(below: int, middle: int, above: int)
    requires below < 5 * middle < above
    ensures below as real < 5.0 * (middle as real) < above as real
  {
  }

  lemma NearestSquares(n: nat, r: nat)
    requires Nearest(n, r)
    ensures n + 1 <= 2 * r && Square(2 * r - 1 - n) < 5 * Square(n) < Square(2 * r + 1 - n)
  {
  }

  lemma NearestInReals(n: nat, r: nat)
    requires Nearest(n, r)
    ensures var m, lo, hi := n as real, (2 * r - 1 - n) as real, (2 * r + 1 - n) as real;
      0.0 <= lo && 0.0 <= hi && Times(lo, lo) < 5.0 * Times(m, m) < Times(hi, hi)
  {
    hide Nearest, Square, Times;
    var lo, hi := 2 * r - 1 - n, 2 * r + 1 - n;
    NearestSquares(n, r);
    CompareInReals(Square(lo), Square(n), Square(hi));
    CastSquare(n);
    CastSquare(lo);
    CastSquare(hi);
  }

  lemma ScaledRoot(m: real, root5: real)
    requires m >= 0.0 && IsRoot5(root5)
    ensures var y := Times(m, root5); y >= 0.0 && Times(y, y) == 5.0 * Times(m, m)
  {
    assert (m * root5) * (m * root5) == (m * m) * (root5 * root5);
  }

  lemma RoundedByRoot(n: nat, root5: real)
    ensures Rounded(n, root5) == ((n as real + Times(n as real, root5)) / 2.0 + 0.5).Floor
  {
  }

  lemma HalfWay(n: int, r: int, y: real)
    requires (2 * r - 1 - n) as real < y < (2 * r + 1 - n) as real
    ensures ((n as real + y) / 2.0 + 0.5).Floor == r
  {
  }

  lemma NearestIsRounded(n: nat, r: nat, root5: real)
    requires IsRoot5(root5) && Nearest(n, r)
    ensures Rounded(n, root5) == r
  {
    hide Nearest, IsRoot5, Times, Rounded;
    var y := Times(n as real, root5);
    NearestInReals(n, r);
    ScaledRoot(n as real, root5);
    SquaresCompare((2 * r - 1 - n) as real, y);
    SquaresCompare(y, (2 * r + 1 - n) as real);
    HalfWay(n, r, y);
    RoundedByRoot(n, root5);
  }

  // ------------------------------------------------- Fibonacci numbers

  function Sign(k: nat): int { if k % 2 == 0 then 1 else -1 }

  function Form(b: int, a: int): int { b * b - b * a - a * a }

  lemma FormBase()
    ensures Form(Fib(1), Fib(0)) == 1
  {
  }

  lemma FormStep(a: int, b: int)
    ensures Form(a + b, b) == -Form(b, a)
  {
    assert (a + b) * (a + b) == a * a + 2 * (b * a) + b * b;
    assert (a + b) * b == b * a + b * b;
  }

  /** The quadratic form of two neighbours is plus or minus one. */
  lemma {:induction false} NeighboursForm(k: nat)
    ensures Form(Fib(k + 1), Fib(k)) == Sign(k)
  {
    FormBase();
    hide Form;
    if k > 0 {
      NeighboursForm(k - 1);
      FormStep(Fib(k - 1), Fib(k));
      assert Fib(k + 1) == Fib(k - 1) + Fib(k);
      assert Sign(k) == -Sign(k - 1);
    }
  }

  lemma {:induction false} FibGrows(k: nat)
    requires k >= 2
    ensures 1 <= Fib(k) < Fib(k + 1)
  {
    if k > 2 {
      FibGrows(k - 1);
    }
  }

  lemma {:induction false} FibMonotone(a: nat, b: nat)
    requires 2 <= a <= b
    ensures Fib(a) <= Fib(b)
  {
    if a < b {
      FibMonotone(a, b - 1);
      FibGrows(b - 1);
    }
  }

  lemma NearestFromForm(a: nat, b: nat, s: int)
    requires Form(b, a) == s && -1 <= s <= 1
    requires 1 <= a < b
    ensures Nearest(a, b)
  {
    var x := 2 * b - a;
    assert x * x == 4 * (b * b - b * a - a * a) + 5 * a * a;
    assert x >= 3;
    assert (x - 1) * (x - 1) == x * x - 2 * x + 1;
    assert (x + 1) * (x + 1) == x * x + 2 * x + 1;
    assert 2 * b - 1 - a == x - 1 && 2 * b + 1 - a == x + 1;
  }

  /** Rounding sends each Fibonacci number from the second on to its successor. */
  lemma RoundsToSuccessor(k: nat, root5: real)
    requires k >= 2 && IsRoot5(root5)
    ensures Rounded(Fib(k), root5) == Fib(k + 1)
  {
    NeighboursForm(k);
    FibGrows(k);
    NearestFromForm(Fib(k), Fib(k + 1), Sign(k));
    NearestIsRounded(Fib(k), Fib(k + 1), root5);
  }

  /** The wait before the j-th retry is the Fibonacci number F(j + 2). */
  lemma {:induction false} WaitIsFib(j: nat, root5: real)
    requires IsRoot5(root5)
    ensures Wait(j, root5) == Fib(j + 2)
  {
    if j == 0 {
      assert Fib(2) == 1;
    } else {
      WaitIsFib(j - 1, root5);
      RoundsToSuccessor(j + 1, root5);
    }
  }

  function Sum(waits: seq<int>): int {
    if waits == [] then 0 else Sum(waits[..|waits| - 1]) + waits[|waits| - 1]
  }

  /** `waits` are the waits before the first |waits| retries. */
  ghost predicate FibonacciWaits(waits: seq<int>) {
    forall i :: 0 <= i < |waits| ==> waits[i] == Fib(i + 3)
  }

  /** Over n retries the waits add up to F(n + 4) - 3. */
  lemma {:induction false} TotalWait(waits: seq<int>)
    requires FibonacciWaits(waits)
    ensures Sum(waits) == Fib(|waits| + 4) - 3
  {
    var n := |waits|;
    if n == 0 {
      assert Fib(4) == Fib(2) + Fib(3) && Fib(3) == Fib(1) + Fib(2) && Fib(2) == 1;
    } else {
      TotalWait(waits[..n - 1]);
      assert waits[n - 1] == Fib(n + 2);
    }
  }

  // ------------------------------------------------- width

  const INT_MAX: int := 0x7fff_ffff

  /** Two neighbours, ten steps on. */
  lemma TenSteps(k: nat)
    ensures Fib(k + 10) == 34 * Fib(k) + 55 * Fib(k + 1)
    ensures Fib(k + 11) == 55 * Fib(k) + 89 * Fib(k + 1)
  {
    assert Fib(k + 2) == Fib(k) + Fib(k + 1);
    assert Fib(k + 3) == Fib(k + 1) + Fib(k + 2);
    assert Fib(k + 4) == Fib(k + 2) + Fib(k + 3);
    assert Fib(k + 5) == Fib(k + 3) + Fib(k + 4);
    assert Fib(k + 6) == Fib(k + 4) + Fib(k + 5);
    assert Fib(k + 7) == Fib(k + 5) + Fib(k + 6);
    assert Fib(k + 8) == Fib(k + 6) + Fib(k + 7);
    assert Fib(k + 9) == Fib(k + 7) + Fib(k + 8);
    assert Fib(k + 10) == Fib(k + 8) + Fib(k + 9);
    assert Fib(k + 11) == Fib(k + 9) + Fib(k + 10);
  }

  lemma LargestWaits()
    ensures Fib(46) == 1836311903 && Fib(47) == 2971215073
  {
    assert Fib(0) == 0 && Fib(1) == 1;
    TenSteps(0);
    TenSteps(10);
    TenSteps(20);
    TenSteps(30);
    assert Fib(40) == 102334155 && Fib(41) == 165580141;
    assert Fib(42) == Fib(40) + Fib(41);
    assert Fib(43) == Fib(41) + Fib(42);
    assert Fib(44) == Fib(42) + Fib(43);
    assert Fib(45) == Fib(43) + Fib(44);
    assert Fib(46) == Fib(44) + Fib(45);
    assert Fib(47) == Fib(45) + Fib(46);
  }

  /** The wait fits the source's int for the first 44 retries and for no later one. */
  lemma WaitFitsIff(j: nat, root5: real)
    requires IsRoot5(root5)
    ensures Wait(j, root5) <= INT_MAX <==> j <= 44
  {
    WaitIsFib(j, root5);
    LargestWaits();
    if j <= 44 {
      FibMonotone(j + 2, 46);
    } else {
      FibMonotone(47, j + 2);
    }
  }
}
