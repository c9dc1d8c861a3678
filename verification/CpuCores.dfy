/**
 * DobbySpecGenerator::getCpuCores: the configured core mask, restricted to the cores of
 * the machine, printed as a comma-separated list.
 */
module CpuCores {
  import opened Common

  // ------------------------------------------------- bits of a word

  /** Bit `k` of `v`. */
  predicate Bit(v: nat, k: nat) {
    if k == 0 then v % 2 == 1 else Bit(v / 2, k - 1)
  }

  /** A std::bitset<32> made from an unsigned word. */
  function Bitset(v: nat): (bits: seq<bool>)
    ensures |bits| == 32 && forall k :: 0 <= k < 32 ==> bits[k] == Bit(v, k)
  {
    seq(32, k requires 0 <= k => Bit(v, k))
  }

  lemma {:induction false} ZeroHasNoBits(k: nat)
    ensures !Bit(0, k)
  {
    if k > 0 {
      ZeroHasNoBits(k - 1);
    }
  }

  /** 2^n - 1 has exactly the lowest n bits. */
  lemma {:induction false} OnesBits(n: nat, k: nat)
    ensures Bit(Pow2(n) - 1, k) <==> k < n
  {
    if n == 0 {
      ZeroHasNoBits(k);
    } else {
      assert (Pow2(n) - 1) % 2 == 1 && (Pow2(n) - 1) / 2 == Pow2(n - 1) - 1;
      if k > 0 {
        OnesBits(n - 1, k - 1);
      }
    }
  }

  // ------------------------------------------------- the cores to print

  predicate NoneBelow(mask: nat, n: nat) {
    forall k :: 0 <= k < n ==> !Bit(mask, k)
  }

  /** Whether core `k` is enabled: all cores when none of the machine's is configured. */
  predicate Wanted(mask: nat, n: nat, k: nat) {
    k < n && (NoneBelow(mask, n) || Bit(mask, k))
  }

  /** The enabled cores below `upto`, in increasing order. */
  function Cores(mask: nat, n: nat, upto: nat): (cores: seq<nat>)
    ensures forall k: nat :: k in cores <==> k < upto && Wanted(mask, n, k)
    ensures forall i, j :: 0 <= i < j < |cores| ==> cores[i] < cores[j]
  {
    if upto == 0 then []
    else
      var lower := Cores(mask, n, upto - 1);
      assert forall i :: 0 <= i < |lower| ==> lower[i] in lower;
      if Wanted(mask, n, upto - 1) then lower + [upto - 1] else lower
  }

  lemma SomeCore(mask: nat, n: nat)
    requires n > 0
    ensures Cores(mask, n, n) != []
  {
    if NoneBelow(mask, n) {
      assert 0 in Cores(mask, n, n);
    } else {
      var k :| 0 <= k < n && Bit(mask, k);
      assert k in Cores(mask, n, n);
    }
  }

  // ------------------------------------------------- printing and parsing

  const DIGITS: string := "0123456789"

  function Decimal(n: nat): (s: string)
    ensures s != ""
  {
    if n < 10 then [DIGITS[n]] else Decimal(n / 10) + [DIGITS[n % 10]]
  }

  /** Numbers separated by commas. */
  function Print(xs: seq<nat>): string {
    if xs == [] then ""
    else if |xs| == 1 then Decimal(xs[0])
    else Decimal(xs[0]) + ("," + Print(xs[1..]))
  }

  /** The value of a digit; anything else counts as zero. */
  function Digit(c: char): nat {
    if '0' <= c <= '9' then (c as int) - ('0' as int) else 0
  }

  /** Reads a comma-separated list, having read `acc` of its first number. */
  function Parse(s: string, acc: nat): seq<nat> {
    if s == "" then [acc]
    else if s[0] == ',' then [acc] + Parse(s[1..], 0)
    else Parse(s[1..], 10 * acc + Digit(s[0]))
  }

  lemma {:induction false} ParseDecimal(n: nat, rest: string)
    ensures Parse(Decimal(n) + rest, 0) == Parse(rest, n)
  {
    if n < 10 {
      assert ([DIGITS[n]] + rest)[1..] == rest;
      assert Digit(DIGITS[n]) == n;
    } else {
      var last := [DIGITS[n % 10]];
      ParseDecimal(n / 10, last + rest);
      assert Decimal(n) + rest == Decimal(n / 10) + (last + rest);
      assert (last + rest)[1..] == rest;
      assert Digit(DIGITS[n % 10]) == n % 10;
    }
  }

  lemma ParseAfterComma(rest: string, acc: nat)
    ensures Parse("," + rest, acc) == [acc] + Parse(rest, 0)
  {
    assert ("," + rest)[1..] == rest;
  }

  /** Printing loses nothing. */
  lemma {:induction false} ParseReadsPrint(xs: seq<nat>)
    requires xs != []
    ensures Parse(Print(xs), 0) == xs
  {
    if |xs| == 1 {
      ParseDecimal(xs[0], "");
      assert Decimal(xs[0]) + "" == Decimal(xs[0]);
    } else {
      var tail := "," + Print(xs[1..]);
      ParseReadsPrint(xs[1..]);
      ParseDecimal(xs[0], tail);
      ParseAfterComma(Print(xs[1..]), xs[0]);
    }
  }

  predicate IsDigit(c: char) { '0' <= c <= '9' }

  /** At `i` is a digit or a comma, and if a number begins there it begins with a digit, which is
      not a zero unless it is all of the number. */
  predicate ListedAt(s: string, i: nat)
    requires i < |s|
  {
    && (IsDigit(s[i]) || s[i] == ',')
    && (i == 0 || s[i - 1] == ',' ==> IsDigit(s[i]) && (s[i] == '0' ==> i + 1 == |s| || s[i + 1] == ','))
  }

  /** Nothing but decimal numbers without leading zeros, separated by single commas. */
  ghost predicate IsNumberList(s: string) {
    s != "" && IsDigit(s[|s| - 1]) && forall i :: 0 <= i < |s| ==> ListedAt(s, i)
  }

  lemma {:induction false} DecimalIsNumber(n: nat)
    ensures var s := Decimal(n);
      (forall i :: 0 <= i < |s| ==> IsDigit(s[i])) && (s[0] == '0' ==> n == 0 && |s| == 1)
  {
    if n >= 10 {
      DecimalIsNumber(n / 10);
    }
  }

  ghost predicate IsNumber(s: string) {
    && s != "" && (forall i :: 0 <= i < |s| ==> IsDigit(s[i]))
    && (s[0] == '0' ==> |s| == 1)
  }

  lemma JoinIsNumberList(number: string, rest: string)
    requires IsNumber(number) && IsNumberList(rest)
    ensures IsNumberList(number + ("," + rest))
  {
    var s, n := number + ("," + rest), |number|;
    forall i | 0 <= i < |s|
      ensures ListedAt(s, i)
    {
      if i > n {
        assert ListedAt(rest, i - n - 1);
        assert s[i] == rest[i - n - 1];
        assert s[i - 1] == if i == n + 1 then ',' else rest[i - n - 2];
        assert i + 1 < |s| ==> s[i + 1] == rest[i - n];
      } else if i > 0 {
        assert s[i - 1] == number[i - 1];
      }
    }
    assert s[|s| - 1] == rest[|rest| - 1];
  }

  /** A printed list is such a list. */
  lemma {:induction false} PrintIsNumberList(xs: seq<nat>)
    requires xs != []
    ensures IsNumberList(Print(xs))
  {
    DecimalIsNumber(xs[0]);
    if |xs| > 1 {
      PrintIsNumberList(xs[1..]);
      JoinIsNumberList(Decimal(xs[0]), Print(xs[1..]));
    }
  }

  /** The numbers with a comma after each, as the loop writes them. */
  function Stream(xs: seq<nat>): string {
    if xs == [] then "" else Stream(xs[..|xs| - 1]) + Decimal(xs[|xs| - 1]) + ","
  }

  lemma StreamExtends(xs: seq<nat>, x: nat)
    ensures Stream(xs + [x]) == Stream(xs) + Decimal(x) + ","
  {
    assert (xs + [x])[..|xs + [x]| - 1] == xs;
  }

  lemma {:induction false} PrintExtends(xs: seq<nat>, x: nat)
    requires xs != []
    ensures Print(xs + [x]) == Print(xs) + "," + Decimal(x)
  {
    assert (xs + [x])[1..] == xs[1..] + [x];
    if |xs| > 1 {
      PrintExtends(xs[1..], x);
      assert Print(xs + [x]) == Decimal(xs[0]) + ("," + (Print(xs[1..]) + "," + Decimal(x)));
    } else {
      assert Print([x]) == Decimal(x);
    }
  }

  /** Dropping the last comma leaves the list. */
  lemma {:induction false} StreamIsPrint(xs: seq<nat>)
    requires xs != []
    ensures Stream(xs) == Print(xs) + ","
  {
    if |xs| > 1 {
      var front, last := xs[..|xs| - 1], xs[|xs| - 1];
      StreamIsPrint(front);
      PrintExtends(front, last);
      assert front + [last] == xs;
    } else {
      assert Stream([]) == "" && xs[..0] == [];
    }
  }

  // ------------------------------------------------- the operation

  /** The mask of the machine's cores, or all of them if none is left. */
  method Masked(appsCpuSet: nat, nCores: nat) returns (mask: seq<bool>)
    requires 1 <= nCores <= 31
    ensures |mask| == 32 && forall k :: 0 <= k < nCores ==> (mask[k] <==> Wanted(appsCpuSet, nCores, k))
  {
    var all := Bitset(Pow2(nCores) - 1);
    forall k | 0 <= k < 32
      ensures all[k] <==> k < nCores
    {
      OnesBits(nCores, k);
    }
    hide Bit, Pow2;
    var configured := Bitset(appsCpuSet);
    mask := seq(32, k requires 0 <= k < 32 => configured[k] && all[k]);
    if forall k :: 0 <= k < 32 ==> !mask[k] {
      forall k | 0 <= k < nCores
        ensures !Bit(appsCpuSet, k)
      {
        assert !mask[k];
      }
      mask := all;
    }
  }

  lemma StreamOfCores(mask: nat, n: nat, core: nat)
    ensures Stream(Cores(mask, n, core + 1))
         == if Wanted(mask, n, core) then Stream(Cores(mask, n, core)) + (Decimal(core) + ",")
            else Stream(Cores(mask, n, core))
  {
    if Wanted(mask, n, core) {
      StreamExtends(Cores(mask, n, core), core);
    }
  }

  lemma StreamOfNone(mask: nat, n: nat)
    ensures Stream(Cores(mask, n, 0)) == ""
  {
  }

  lemma PrintIsNonempty(xs: seq<nat>)
    requires xs != []
    ensures Print(xs) != ""
  {
  }

  lemma CoresAre(mask: nat, n: nat)
    ensures forall k: nat :: k in Cores(mask, n, n) <==> k < n && (Bit(mask, k) || NoneBelow(mask, n))
  {
  }

  /** For 1 to 31 processors and any configured mask: a non-empty list that parses back to
      the configured cores of the machine, or to all of them if none is configured. */
  method GetCpuCores(nprocs: nat, appsCpuSet: nat) returns (coresStr: string)
    requires 1 <= nprocs <= 31
    ensures coresStr == Print(Cores(appsCpuSet, nprocs, nprocs)) != ""
    ensures Parse(coresStr, 0) == Cores(appsCpuSet, nprocs, nprocs) != []
    ensures IsNumberList(coresStr)
    ensures forall k: nat :: k in Parse(coresStr, 0) <==>
              k < nprocs && (Bit(appsCpuSet, k) || NoneBelow(appsCpuSet, nprocs))
  {
    hide Bit, Cores, Wanted, NoneBelow, Parse, Print, Decimal, Stream, Pow2, IsNumberList;
    var nCores := if nprocs < 32 then nprocs else 32;
    var mask := Masked(appsCpuSet, nCores);
    coresStr := "";
    StreamOfNone(appsCpuSet, nCores);
    for core := 0 to nCores
      invariant coresStr == Stream(Cores(appsCpuSet, nCores, core))
    {
      StreamOfCores(appsCpuSet, nCores, core);
      if mask[core] {
        coresStr := coresStr + (Decimal(core) + ",");
      }
    }
    ghost var cores := Cores(appsCpuSet, nCores, nCores);
    SomeCore(appsCpuSet, nCores);
    StreamIsPrint(cores);
    ParseReadsPrint(cores);
    if coresStr != "" {
      coresStr := coresStr[..|coresStr| - 1];
    }
    assert coresStr == Print(cores);
    PrintIsNonempty(cores);
    PrintIsNumberList(cores);
    CoresAre(appsCpuSet, nCores);
  }
}
