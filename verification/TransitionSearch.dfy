/**
 * Backward depth-first search over a predecessor table, as performed by
 * StateHandler::isValidTransition. `table[t]` lists the states from which `t`
 * may be entered. The search is generic in the state type and in the table.
 */
module TransitionSearch {
  import opened Common

  type Table<S> = map<S, seq<S>>

  /** `table` allows a step from `source` to `target`. */
  predicate Edge<S(==)>(table: Table<S>, source: S, target: S) {
    target in table && source in table[target]
  }

  ghost predicate Chain<S>(table: Table<S>, p: seq<S>) {
    forall i :: 0 <= i < |p| - 1 ==> Edge(table, p[i], p[i + 1])
  }

  /** `p` is a non-empty chain of allowed steps from `start` to `target`. */
  ghost predicate IsWalk<S>(table: Table<S>, start: S, target: S, p: seq<S>) {
    |p| > 0 && p[0] == start && p[|p| - 1] == target && Chain(table, p)
  }

  ghost predicate Reaches<S(!new)>(table: Table<S>, start: S, target: S) {
    exists p :: IsWalk(table, start, target, p)
  }

  ghost predicate Avoids<S>(p: seq<S>, seen: seq<S>) {
    forall x :: x in p ==> x !in seen
  }

  /** Every state marked since `before` has all its predecessors marked. */
  ghost predicate ClosedSince<S(!new)>(table: Table<S>, before: seq<S>, seen: seq<S>) {
    forall x, y :: x in seen && x !in before && Edge(table, y, x) ==> y in seen
  }

  // ---------------------------------------------------------------- search

  /** `seen` is the visited map as the sequence of its insertions, so that a state
      expanded twice would occur twice. */
  datatype Outcome<S> = Outcome(found: bool, seen: seq<S>, path: seq<S>)

  ghost function Unmarked<S>(table: Table<S>, seen: seq<S>): set<S> {
    set s | s in table && s !in seen
  }

  /** One call of the search on `target`. */
  ghost function Search<S(!new)>(table: Table<S>, start: S, target: S, seen: seq<S>): (r: Outcome<S>)
    requires target !in seen
    ensures seen <= r.seen && (!r.found ==> r.path == [])
    decreases Unmarked(table, seen), 0, 0
  {
    if start == target then
      Outcome(true, seen, [])
    else
      var marked := seen + [target];
      if target !in table then
        Outcome(false, marked, [])
      else
        assert target in Unmarked(table, seen) && target !in Unmarked(table, marked);
        Scan(table, start, table[target], marked)
  }

  /** The loop over the predecessors of the state being expanded. */
  ghost function Scan<S(!new)>(table: Table<S>, start: S, preds: seq<S>, seen: seq<S>): (r: Outcome<S>)
    ensures seen <= r.seen && (!r.found ==> r.path == [])
    decreases Unmarked(table, seen), 1, |preds|
  {
    if preds == [] then
      Outcome(false, seen, [])
    else if preds[0] in seen then
      Scan(table, start, preds[1..], seen)
    else
      var r := Search(table, start, preds[0], seen);
      if r.found then
        r.(path := r.path + [preds[0]])
      else
        assert Unmarked(table, r.seen) <= Unmarked(table, seen);
        Scan(table, start, preds[1..], r.seen)
  }

  // ------------------------------------------------------------ properties

  /** What one call promises about the marks it adds and the path it builds. */
  ghost predicate SearchPromise<S(!new)>(table: Table<S>, start: S, target: S, seen: seq<S>, r: Outcome<S>) {
    && NoRepeats(r.seen)
    && start !in r.seen
    && (r.found ==>
          && IsWalk(table, start, target, r.path + [target])
          && NoRepeats(r.path + [target])
          && Avoids(r.path + [target], seen))
    && (!r.found ==>
          && target in r.seen
          && ClosedSince(table, seen, r.seen))
  }

  ghost predicate ScanPromise<S(!new)>(table: Table<S>, start: S, preds: seq<S>, seen: seq<S>, r: Outcome<S>) {
    && NoRepeats(r.seen)
    && start !in r.seen
    && (r.found ==>
          && |r.path| > 0
          && r.path[|r.path| - 1] in preds
          && IsWalk(table, start, r.path[|r.path| - 1], r.path)
          && NoRepeats(r.path)
          && Avoids(r.path, seen))
    && (!r.found ==>
          && (forall y :: y in preds ==> y in r.seen)
          && ClosedSince(table, seen, r.seen))
  }

  lemma {:induction false} SearchKeepsPromise<S(!new)>(table: Table<S>, start: S, target: S, seen: seq<S>)
    requires target !in seen && start !in seen && NoRepeats(seen)
    ensures SearchPromise(table, start, target, seen, Search(table, start, target, seen))
    decreases Unmarked(table, seen), 0, 0
  {
    var r := Search(table, start, target, seen);
    if start == target {
      assert r.path + [target] == [target];
    } else if target in table {
      var marked := seen + [target];
      assert target in Unmarked(table, seen) && target !in Unmarked(table, marked);
      ScanKeepsPromise(table, start, table[target], marked);
      if r.found {
        var p := r.path + [target];
        assert forall i :: 0 <= i < |r.path| - 1 ==> Edge(table, r.path[i], r.path[i + 1]);
        assert forall x :: x in p ==> x in r.path || x == target;
      } else {
        assert target in marked;
      }
    }
  }

  lemma {:induction false} ScanKeepsPromise<S(!new)>(table: Table<S>, start: S, preds: seq<S>, seen: seq<S>)
    requires start !in seen && NoRepeats(seen)
    ensures ScanPromise(table, start, preds, seen, Scan(table, start, preds, seen))
    decreases Unmarked(table, seen), 1, |preds|
  {
    if preds != [] {
      var rest := preds[1..];
      assert forall y :: y in preds <==> y == preds[0] || y in rest;
      if preds[0] in seen {
        ScanKeepsPromise(table, start, rest, seen);
      } else {
        SearchKeepsPromise(table, start, preds[0], seen);
        var r := Search(table, start, preds[0], seen);
        if !r.found {
          assert Unmarked(table, r.seen) <= Unmarked(table, seen);
          ScanKeepsPromise(table, start, rest, r.seen);
        }
      }
    }
  }

  /** A set of states closed under predecessors contains every walk that ends in it. */
  lemma {:induction false} ClosedHoldsWalk<S(!new)>(table: Table<S>, seen: seq<S>, p: seq<S>, i: nat)
    requires ClosedSince(table, [], seen)
    requires Chain(table, p) && i < |p| && p[|p| - 1] in seen
    ensures p[i] in seen
    decreases |p| - i
  {
    if i < |p| - 1 {
      ClosedHoldsWalk(table, seen, p, i + 1);
      assert Edge(table, p[i], p[i + 1]);
    }
  }

  /** Completeness: the visited map shared by sibling branches never hides a path. */
  lemma SearchDecidesReachability<S(!new)>(table: Table<S>, start: S, target: S)
    ensures Search(table, start, target, []).found <==> Reaches(table, start, target)
  {
    var r := Search(table, start, target, []);
    SearchKeepsPromise(table, start, target, []);
    if r.found {
      assert IsWalk(table, start, target, r.path + [target]);
    } else {
      forall p | IsWalk(table, start, target, p)
        ensures false
      {
        ClosedHoldsWalk(table, r.seen, p, 0);
      }
    }
  }

  /** The found path followed by the target is a simple chain; no state is expanded twice. */
  lemma SearchPathIsSimple<S(!new)>(table: Table<S>, start: S, target: S)
    ensures var r := Search(table, start, target, []);
      && NoRepeats(r.seen)
      && (r.found ==> IsWalk(table, start, target, r.path + [target]) && NoRepeats(r.path + [target]))
      && (!r.found ==> r.path == [])
  {
    SearchKeepsPromise(table, start, target, []);
  }

  // ------------------------------------------------- walks and reachability

  lemma ReachesTransitive<S(!new)>(table: Table<S>, a: S, b: S, c: S)
    requires Reaches(table, a, b) && Reaches(table, b, c)
    ensures Reaches(table, a, c)
  {
    var p :| IsWalk(table, a, b, p);
    var q :| IsWalk(table, b, c, q);
    var w := p + q[1..];
    forall i | 0 <= i < |w| - 1
      ensures Edge(table, w[i], w[i + 1])
    {
      if i < |p| - 1 {
        assert Edge(table, p[i], p[i + 1]);
      } else {
        assert Edge(table, q[i - (|p| - 1)], q[i - (|p| - 1) + 1]);
      }
    }
    assert IsWalk(table, a, c, w);
  }

  lemma EdgeReaches<S(!new)>(table: Table<S>, a: S, b: S)
    requires a == b || Edge(table, a, b)
    ensures Reaches(table, a, b)
  {
    if a == b {
      assert IsWalk(table, a, b, [a]);
    } else {
      assert IsWalk(table, a, b, [a, b]);
    }
  }

  /** Every state on a walk still reaches the end of the walk. */
  lemma SuffixReaches<S(!new)>(table: Table<S>, p: seq<S>, i: nat)
    requires Chain(table, p) && i < |p|
    ensures Reaches(table, p[i], p[|p| - 1])
  {
    var q := p[i..];
    forall k | 0 <= k < |q| - 1
      ensures Edge(table, q[k], q[k + 1])
    {
      assert Edge(table, p[i + k], p[i + k + 1]);
    }
    assert IsWalk(table, p[i], p[|p| - 1], q);
  }

  // --------------------------------------------------------- the procedure

  /** The two by-reference arguments of the recursion. */
  class SearchState<S(==,!new)> {
    var pathSequence: map<S, bool>
    var foundPath: seq<S>
    ghost var marks: seq<S>

    ghost predicate Valid()
      reads this
    {
      forall s :: s in pathSequence <==> s in marks
    }

    constructor ()
      ensures Valid() && pathSequence == map[] && foundPath == [] && marks == []
    {
      pathSequence, foundPath, marks := map[], [], [];
    }
  }

  method IsValidTransition<S(==,!new)>(table: Table<S>, start: S, target: S, st: SearchState<S>)
    returns (pathPresent: bool)
    requires st.Valid() && target !in st.pathSequence
    modifies st
    ensures st.Valid()
    ensures pathPresent == Search(table, start, target, old(st.marks)).found
    ensures st.marks == Search(table, start, target, old(st.marks)).seen
    ensures st.foundPath == old(st.foundPath) + Search(table, start, target, old(st.marks)).path
    decreases Unmarked(table, st.marks)
  {
    pathPresent := false;
    if start == target {
      return true;
    }
    st.pathSequence := st.pathSequence[target := true];
    st.marks := st.marks + [target];
    if target !in table {
      return false;
    }
    ghost var marked := st.marks;
    assert target in Unmarked(table, old(st.marks)) && target !in Unmarked(table, marked);
    var transitionList := table[target];
    for i := 0 to |transitionList|
      invariant st.Valid() && !pathPresent
      invariant marked <= st.marks
      invariant st.foundPath == old(st.foundPath)
      invariant Scan(table, start, transitionList, marked) == Scan(table, start, transitionList[i..], st.marks)
    {
      assert transitionList[i..][1..] == transitionList[i + 1..];
      if transitionList[i] in st.pathSequence {
        continue;
      }
      assert Unmarked(table, st.marks) <= Unmarked(table, marked);
      pathPresent := IsValidTransition(table, start, transitionList[i], st);
      if pathPresent {
        st.foundPath := st.foundPath + [transitionList[i]];
        break;
      }
    }
  }
}
