/**
 * The pool of user ids that UserIdManager hands out to applications: first in, first
 * out, with the last four never given away.
 */
module UserIds {
  import opened Common

  const FIRST: nat := 30001
  const LAST: nat := 31000
  const RANGE: nat := 1000

  datatype Uids = Uids(pool: seq<nat>, held: map<string, nat>)

  function InitialPool(n: nat): (pool: seq<nat>)
    ensures |pool| == n && forall i :: 0 <= i < n ==> pool[i] == FIRST + i
  {
    seq(n, i => FIRST + i)
  }

  const FRESH := Uids(InitialPool(RANGE), map[])

  /** getUserId; zero means refused. */
  function Get(u: Uids, app: string): (Uids, nat) {
    if app in u.held then (u, u.held[app])
    else if |u.pool| < 5 then (u, 0)
    else (Uids(u.pool[1..], u.held[app := u.pool[0]]), u.pool[0])
  }

  function Clear(u: Uids, app: string): Uids {
    if app in u.held then Uids(u.pool + [u.held[app]], u.held - {app}) else u
  }

  // ------------------------------------------------- partition

  ghost predicate InRange(uid: nat) { FIRST <= uid <= LAST }

  /** The free pool and the assigned ids partition the range, without repeats, and at
      least four ids stay in the pool. */
  ghost predicate Partition(u: Uids) {
    && NoRepeats(u.pool)
    && (forall a, b :: a in u.held && b in u.held && a != b ==> u.held[a] != u.held[b])
    && (forall a :: a in u.held ==> u.held[a] !in u.pool)
    && (forall uid :: InRange(uid) <==> uid in u.pool || uid in u.held.Values)
    && |u.pool| + |u.held| == RANGE
    && |u.pool| >= 4
  }

  lemma FreshIsPartition()
    ensures Partition(FRESH)
  {
    forall uid: nat | InRange(uid)
      ensures uid in FRESH.pool
    {
      assert FRESH.pool[uid - FIRST] == uid;
    }
  }

  lemma GetKeepsPartition(u: Uids, app: string)
    requires Partition(u)
    ensures Partition(Get(u, app).0)
  {
    if app !in u.held && |u.pool| >= 5 {
      var u' := Get(u, app).0;
      assert u.pool == [u.pool[0]] + u'.pool;
      forall uid
        ensures uid in u'.held.Values <==> uid in u.held.Values || uid == u.pool[0]
      {
        if uid in u.held.Values {
          var a :| a in u.held && u.held[a] == uid;
          assert u'.held[a] == uid;
        }
        assert u'.held[app] == u.pool[0];
      }
    }
  }

  lemma ClearKeepsPartition(u: Uids, app: string)
    requires Partition(u)
    ensures Partition(Clear(u, app))
  {
    if app in u.held {
      var u' := Clear(u, app);
      assert u'.held.Keys == u.held.Keys - {app};
      forall uid
        ensures uid in u.held.Values <==> uid in u'.held.Values || uid == u.held[app]
      {
        if uid in u.held.Values {
          var a :| a in u.held && u.held[a] == uid;
          if a != app {
            assert u'.held[a] == uid;
          }
        }
      }
    }
  }

  /** A request is refused exactly when the application holds no id and 996 others do;
      otherwise it gets its own id from the range, the same one until it is cleared. */
  lemma RefusedIff(u: Uids, app: string)
    requires Partition(u)
    ensures Get(u, app).1 == 0 <==> app !in u.held && |u.held| == RANGE - 4
    ensures var (u', uid) := Get(u, app); uid != 0 ==>
      && InRange(uid) && app in u'.held && u'.held[app] == uid && Get(u', app) == (u', uid)
      && forall b :: b in u'.held && b != app ==> u'.held[b] != uid
  {
    GetKeepsPartition(u, app);
    var (u', uid) := Get(u, app);
    if app in u.held {
      assert u.held[app] in u.held.Values;
    } else {
      assert |u.pool| < 5 <==> |u.held| == RANGE - 4;
      assert u.pool[0] in u.pool;
    }
    assert InRange(uid) || uid == 0;
  }

  // ------------------------------------------------- runs

  datatype Call = GetUserId(app: string) | ClearUserId(app: string)

  function Do(u: Uids, c: Call): Uids {
    match c
    case GetUserId(app) => Get(u, app).0
    case ClearUserId(app) => Clear(u, app)
  }

  function Run(u: Uids, calls: seq<Call>): Uids {
    if calls == [] then u else Do(Run(u, calls[..|calls| - 1]), calls[|calls| - 1])
  }

  /** The id a call takes out of the pool, if any, and the one it gives back. */
  function IssuedBy(u: Uids, c: Call): seq<nat> {
    if c.GetUserId? && c.app !in u.held && |u.pool| >= 5 then [u.pool[0]] else []
  }

  function ReturnedBy(u: Uids, c: Call): seq<nat> {
    if c.ClearUserId? && c.app in u.held then [u.held[c.app]] else []
  }

  function Issued(u: Uids, calls: seq<Call>): seq<nat> {
    if calls == [] then []
    else
      var front := calls[..|calls| - 1];
      Issued(u, front) + IssuedBy(Run(u, front), calls[|calls| - 1])
  }

  function Returned(u: Uids, calls: seq<Call>): seq<nat> {
    if calls == [] then []
    else
      var front := calls[..|calls| - 1];
      Returned(u, front) + ReturnedBy(Run(u, front), calls[|calls| - 1])
  }

  lemma {:induction false} RunKeepsPartition(calls: seq<Call>)
    ensures Partition(Run(FRESH, calls))
  {
    hide Partition;
    if calls == [] {
      FreshIsPartition();
    } else {
      RunKeepsPartition(calls[..|calls| - 1]);
      var u := Run(FRESH, calls[..|calls| - 1]);
      match calls[|calls| - 1]
      case GetUserId(app) => GetKeepsPartition(u, app);
      case ClearUserId(app) => ClearKeepsPartition(u, app);
    }
  }

  lemma DoIsFifo(u: Uids, c: Call)
    ensures u.pool + ReturnedBy(u, c) == IssuedBy(u, c) + Do(u, c).pool
  {
  }

  lemma Regroup(p: seq<nat>, b: seq<nat>, a: seq<nat>, q: seq<nat>, y: seq<nat>, x: seq<nat>, c: seq<nat>)
    requires p + b == a + q && q + y == x + c
    ensures p + (b + y) == (a + x) + c
  {
    assert p + (b + y) == (p + b) + y == a + (q + y) == (a + x) + c;
  }

  /** Conservation, in order: the pool followed by what comes back is what goes out
      followed by the pool that remains. */
  lemma {:induction false} PoolIsFifo(u: Uids, calls: seq<Call>)
    ensures u.pool + Returned(u, calls) == Issued(u, calls) + Run(u, calls).pool
  {
    if calls != [] {
      var front, c := calls[..|calls| - 1], calls[|calls| - 1];
      PoolIsFifo(u, front);
      var m := Run(u, front);
      DoIsFifo(m, c);
      Regroup(u.pool, Returned(u, front), Issued(u, front), m.pool, ReturnedBy(m, c), IssuedBy(m, c), Do(m, c).pool);
    }
  }

  /** An id given back is issued again only after every id then in the pool, of which
      there are at least four, has been handed out in order. */
  lemma ReissuedLast(before: seq<Call>, app: string, after: seq<Call>)
    requires app in Run(FRESH, before).held
    ensures var u := Run(FRESH, before); var uid := u.held[app]; var out := Issued(Clear(u, app), after);
      && |u.pool| >= 4
      && (uid in out ==> u.pool + [uid] <= out)
  {
    var u := Run(FRESH, before);
    var v := Clear(u, app);
    var uid := u.held[app];
    var out := Issued(v, after);
    RunKeepsPartition(before);
    PoolIsFifo(v, after);
    var line := v.pool + Returned(v, after);
    assert out == line[..|out|];
    assert v.pool == u.pool + [uid] == line[..|v.pool|];
    if uid in out && |out| < |v.pool| {
      assert false;
    }
  }

  // ------------------------------------------------- the object

  class UserIdManager {
    var userIdAvailablePool: seq<nat>
    var userIdMap: map<string, nat>

    ghost function Value(): Uids
      reads this
    {
      Uids(userIdAvailablePool, userIdMap)
    }

    constructor ()
      ensures Value() == FRESH
      ensures |userIdAvailablePool| == 1000 && userIdMap == map[]
      ensures forall i :: 0 <= i < 1000 ==> userIdAvailablePool[i] == 30001 + i
    {
      userIdMap := map[];
      var pool: seq<nat> := [];
      var count := 0;
      var uid := FIRST;
      while uid <= LAST
        invariant uid == FIRST + count && count <= RANGE
        invariant pool == InitialPool(count)
      {
        if count > 1000 {
          break;
        }
        count := count + 1;
        pool := pool + [uid];
        uid := uid + 1;
      }
      userIdAvailablePool := pool;
    }

    method GetUserId(appId: string) returns (uid: nat)
      modifies this
      ensures (Value(), uid) == Get(old(Value()), appId)
    {
      if appId in userIdMap {
        return userIdMap[appId];
      }
      if |userIdAvailablePool| < 5 {
        return 0;
      }
      uid := userIdAvailablePool[0];
      userIdAvailablePool := userIdAvailablePool[1..];
      userIdMap := userIdMap[appId := uid];
    }

    method ClearUserId(appId: string)
      modifies this
      ensures Value() == Clear(old(Value()), appId)
    {
      if appId in userIdMap {
        userIdAvailablePool := userIdAvailablePool + [userIdMap[appId]];
        userIdMap := userIdMap - {appId};
      }
    }
  }
}
