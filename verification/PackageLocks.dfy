/**
 * The lock count that PackageManagerImplementation wraps around the package library's
 * own lock, over every run of Lock and Unlock calls on any number of packages.
 */
module PackageLocks {
  import opened Common

  datatype Key = Key(packageId: string, version: string)

  /** A runtime configuration, as one value. */
  type RuntimeConfig = string

  datatype Package = Package(lockCount: nat, unpackedPath: string, config: RuntimeConfig)

  /** What the library's Lock does: it may write the path and the configuration even
      when it fails. */
  datatype LibraryLock = LibraryLock(success: bool, path: string, config: RuntimeConfig)

  /** What one call amounted to. */
  datatype Record =
    | Granted(key: Key, lockId: nat, path: string, config: RuntimeConfig, library: bool)
    | LockFailed(key: Key)
    | Released(key: Key, library: bool, ok: bool)
    | NeverLocked(key: Key)
    | Unknown(key: Key)

  type Packages = map<Key, Package>

  function Lock(ps: Packages, key: Key, reply: LibraryLock): (Packages, Record) {
    if key !in ps then (ps, Unknown(key))
    else
      var p := ps[key];
      if p.lockCount > 0 then
        var n := (p.lockCount + 1) % WORD;
        (ps[key := p.(lockCount := n)], Granted(key, n, p.unpackedPath, p.config, false))
      else
        var q := p.(unpackedPath := reply.path, config := reply.config);
        if reply.success then
          (ps[key := q.(lockCount := 1)], Granted(key, 1, reply.path, reply.config, true))
        else
          (ps[key := q], LockFailed(key))
  }

  function Unlock(ps: Packages, key: Key, libraryOk: bool): (Packages, Record) {
    if key !in ps then (ps, Unknown(key))
    else
      var p := ps[key];
      if p.lockCount == 0 then (ps, NeverLocked(key))
      else if p.lockCount == 1 then
        (ps[key := p.(lockCount := 0, unpackedPath := "")], Released(key, true, libraryOk))
      else
        (ps[key := p.(lockCount := p.lockCount - 1)], Released(key, false, true))
  }

  datatype Call = DoLock(key: Key, reply: LibraryLock) | DoUnlock(key: Key, libraryOk: bool)

  function Do(ps: Packages, c: Call): (Packages, Record) {
    match c
    case DoLock(key, reply) => Lock(ps, key, reply)
    case DoUnlock(key, libraryOk) => Unlock(ps, key, libraryOk)
  }

  /** The packages after a run, and what each call amounted to. */
  function Run(ps: Packages, calls: seq<Call>): (Packages, seq<Record>) {
    if calls == [] then (ps, [])
    else
      var (before, log) := Run(ps, calls[..|calls| - 1]);
      var (after, record) := Do(before, calls[|calls| - 1]);
      (after, log + [record])
  }

  // ------------------------------------------------- counting

  function One(b: bool): nat { if b then 1 else 0 }

  predicate IsGrant(r: Record, key: Key) { r.Granted? && r.key == key }

  predicate IsRelease(r: Record, key: Key) { r.Released? && r.key == key }

  function Grants(log: seq<Record>, key: Key): nat {
    if log == [] then 0
    else Grants(log[..|log| - 1], key) + One(IsGrant(log[|log| - 1], key))
  }

  function Releases(log: seq<Record>, key: Key): nat {
    if log == [] then 0
    else Releases(log[..|log| - 1], key) + One(IsRelease(log[|log| - 1], key))
  }

  function LibraryLocks(log: seq<Record>, key: Key): nat {
    if log == [] then 0
    else
      var r := log[|log| - 1];
      LibraryLocks(log[..|log| - 1], key) + One(IsGrant(r, key) && r.library)
  }

  function LibraryUnlocks(log: seq<Record>, key: Key): nat {
    if log == [] then 0
    else
      var r := log[|log| - 1];
      LibraryUnlocks(log[..|log| - 1], key) + One(IsRelease(r, key) && r.library)
  }

  /** No call in log[i..] gave the package back to the library. */
  ghost predicate HeldSince(log: seq<Record>, i: nat, key: Key) {
    forall m :: i <= m < |log| && IsRelease(log[m], key) ==> !log[m].library
  }

  /** Every lock granted since the package was last given back saw what is stored now. */
  ghost predicate SessionOk(log: seq<Record>, key: Key, p: Package) {
    forall i :: 0 <= i < |log| && IsGrant(log[i], key) && HeldSince(log, i, key) ==>
      p.lockCount > 0 && log[i].path == p.unpackedPath && log[i].config == p.config
  }

  predicate CountsOk(log: seq<Record>, key: Key, p: Package) {
    && Grants(log, key) == Releases(log, key) + p.lockCount
    && LibraryLocks(log, key) == LibraryUnlocks(log, key) + One(p.lockCount > 0)
  }

  ghost predicate PackageOk(log: seq<Record>, key: Key, p: Package) {
    CountsOk(log, key, p) && SessionOk(log, key, p) && p.lockCount < WORD
  }

  lemma CountsExtend(log: seq<Record>, r: Record, key: Key)
    ensures Grants(log + [r], key) == Grants(log, key) + One(IsGrant(r, key))
    ensures Releases(log + [r], key) == Releases(log, key) + One(IsRelease(r, key))
    ensures LibraryLocks(log + [r], key) == LibraryLocks(log, key) + One(IsGrant(r, key) && r.library)
    ensures LibraryUnlocks(log + [r], key) == LibraryUnlocks(log, key) + One(IsRelease(r, key) && r.library)
  {
    assert (log + [r])[..|log + [r]| - 1] == log;
  }

  lemma HeldSinceShrinks(log: seq<Record>, r: Record, i: nat, key: Key)
    requires i <= |log| && HeldSince(log + [r], i, key)
    ensures HeldSince(log, i, key) && (IsRelease(r, key) ==> !r.library)
  {
    forall m | i <= m < |log| && IsRelease(log[m], key)
      ensures !log[m].library
    {
      assert (log + [r])[m] == log[m];
    }
    assert (log + [r])[|log|] == r;
  }

  lemma OtherPackageStaysOk(log: seq<Record>, r: Record, key: Key, p: Package)
    requires PackageOk(log, key, p) && r.key != key
    ensures PackageOk(log + [r], key, p)
  {
    CountsExtend(log, r, key);
    forall i | 0 <= i < |log + [r]| && IsGrant((log + [r])[i], key) && HeldSince(log + [r], i, key)
      ensures p.lockCount > 0 && (log + [r])[i].path == p.unpackedPath && (log + [r])[i].config == p.config
    {
      HeldSinceShrinks(log, r, i, key);
    }
  }

  /** The call locks a package whose 32-bit count is at its greatest. */
  predicate Overflow(ps: Packages, c: Call) {
    c.DoLock? && c.key in ps && ps[c.key].lockCount == WORD - 1
  }

  /** Some call of the run does that to `key`. */
  predicate Overflows(ps: Packages, calls: seq<Call>, key: Key) {
    && calls != []
    && var front := calls[..|calls| - 1];
       var c := calls[|calls| - 1];
       Overflows(ps, front, key) || (c.key == key && Overflow(Run(ps, front).0, c))
  }

  lemma CalledCountsStayOk(ps: Packages, log: seq<Record>, c: Call)
    requires c.key in ps && PackageOk(log, c.key, ps[c.key]) && !Overflow(ps, c)
    ensures var (ps', r) := Do(ps, c);
      r.key == c.key && CountsOk(log + [r], c.key, ps'[c.key]) && ps'[c.key].lockCount < WORD
  {
    hide SessionOk;
    CountsExtend(log, Do(ps, c).1, c.key);
    hide Grants, Releases, LibraryLocks, LibraryUnlocks;
  }

  lemma CalledPackageStaysOk(ps: Packages, log: seq<Record>, c: Call)
    requires c.key in ps && PackageOk(log, c.key, ps[c.key]) && !Overflow(ps, c)
    ensures var (ps', r) := Do(ps, c); r.key == c.key && PackageOk(log + [r], c.key, ps'[c.key])
  {
    hide CountsOk;
    var (ps', r) := Do(ps, c);
    var p, p' := ps[c.key], ps'[c.key];
    CalledCountsStayOk(ps, log, c);
    forall i | 0 <= i < |log + [r]| && IsGrant((log + [r])[i], c.key) && HeldSince(log + [r], i, c.key)
      ensures p'.lockCount > 0 && (log + [r])[i].path == p'.unpackedPath && (log + [r])[i].config == p'.config
    {
      if i < |log| {
        HeldSinceShrinks(log, r, i, c.key);
        assert IsGrant(log[i], c.key);
      }
    }
  }

  /** An overflowing lock is granted and leaves the package at count zero, although 2^32 locks
      have been granted that were not given back. */
  lemma OverflowLosesCount(ps: Packages, log: seq<Record>, c: Call)
    requires c.key in ps && PackageOk(log, c.key, ps[c.key]) && Overflow(ps, c)
    ensures var (ps', r) := Do(ps, c); var log' := log + [r];
      && IsGrant(r, c.key) && c.key in ps' && ps'[c.key].lockCount == 0
      && Grants(log', c.key) == Releases(log', c.key) + WORD
      && !CountsOk(log', c.key, ps'[c.key])
  {
    CountsExtend(log, Do(ps, c).1, c.key);
  }

  lemma {:induction false} RunKeepsKeys(ps: Packages, calls: seq<Call>)
    ensures Run(ps, calls).0.Keys == ps.Keys && |Run(ps, calls).1| == |calls|
  {
    if calls != [] {
      RunKeepsKeys(ps, calls[..|calls| - 1]);
    }
  }

  lemma {:induction false} RunKeepsPackage(ps: Packages, calls: seq<Call>, key: Key)
    requires key in ps && ps[key].lockCount == 0 && !Overflows(ps, calls, key)
    ensures var (ps', log) := Run(ps, calls); key in ps' && PackageOk(log, key, ps'[key])
  {
    RunKeepsKeys(ps, calls);
    if calls != [] {
      var front, c := calls[..|calls| - 1], calls[|calls| - 1];
      RunKeepsPackage(ps, front, key);
      RunKeepsKeys(ps, front);
      var (before, log) := Run(ps, front);
      hide PackageOk;
      if key == c.key {
        CalledPackageStaysOk(before, log, c);
      } else {
        OtherPackageStaysOk(log, Do(before, c).1, key, before[key]);
      }
    } else {
      assert PackageOk([], key, ps[key]);
    }
  }

  /** After every call of a run the count is the locks granted less the unlocks accepted. */
  ghost predicate Balanced(ps: Packages, calls: seq<Call>, key: Key)
    requires key in ps
  {
    RunKeepsKeys(ps, calls);
    var (ps', log) := Run(ps, calls);
    CountsOk(log, key, ps'[key]) && (calls == [] || Balanced(ps, calls[..|calls| - 1], key))
  }

  /** Each package's count stays the locks granted less the unlocks accepted, and the library
      holds it once exactly while the count is positive, through exactly those runs in which
      its count does not overflow. */
  lemma {:induction false} CountsBalanceIff(ps: Packages, calls: seq<Call>, key: Key)
    requires key in ps && ps[key].lockCount == 0
    ensures Balanced(ps, calls, key) <==> !Overflows(ps, calls, key)
  {
    RunKeepsKeys(ps, calls);
    if calls != [] {
      var front, c := calls[..|calls| - 1], calls[|calls| - 1];
      RunKeepsKeys(ps, front);
      CountsBalanceIff(ps, front, key);
      if !Overflows(ps, calls, key) {
        RunKeepsPackage(ps, calls, key);
      } else if !Overflows(ps, front, key) {
        RunKeepsPackage(ps, front, key);
        var (before, log) := Run(ps, front);
        hide PackageOk, CountsOk;
        OverflowLosesCount(before, log, c);
      }
    }
  }

  /** Two locks granted with the package held by the library in between saw the same
      unpacked path and the same configuration. */
  lemma {:induction false} HoldersAgree(ps: Packages, calls: seq<Call>, i: nat, j: nat, key: Key)
    requires key in ps && ps[key].lockCount == 0 && !Overflows(ps, calls, key) && i < j < |calls|
    requires var log := Run(ps, calls).1; |log| == |calls| && IsGrant(log[i], key) && IsGrant(log[j], key)
    requires HeldSince(Run(ps, calls).1[..j], i, key)
    ensures var log := Run(ps, calls).1; log[i].path == log[j].path && log[i].config == log[j].config
    decreases |calls|
  {
    var front := calls[..|calls| - 1];
    RunKeepsPackage(ps, front, key);
    RunKeepsKeys(ps, front);
    var (before, log) := Run(ps, front);
    var whole := Run(ps, calls).1;
    assert whole == log + [Do(before, calls[|calls| - 1]).1];
    if j < |front| {
      assert whole[..j] == log[..j];
      HoldersAgree(ps, front, i, j, key);
    } else {
      assert whole[..j] == log;
      assert PackageOk(log, key, before[key]);
      assert IsGrant(log[i], key);
    }
  }

  // ------------------------------------------------- what callers are answered

  lemma {:induction false} RunPrefix(ps: Packages, calls: seq<Call>, j: nat)
    requires j < |calls|
    ensures |Run(ps, calls).1| == |calls|
    ensures Run(ps, calls).1[..j] == Run(ps, calls[..j]).1
    ensures Run(ps, calls).1[j] == Do(Run(ps, calls[..j]).0, calls[j]).1
  {
    var front := calls[..|calls| - 1];
    RunKeepsKeys(ps, calls);
    RunKeepsKeys(ps, front);
    hide Do;
    if j < |front| {
      RunPrefix(ps, front, j);
      assert front[..j] == calls[..j];
    } else {
      assert calls[..j] == front;
    }
  }

  lemma {:induction false} OverflowsLater(ps: Packages, calls: seq<Call>, j: nat, key: Key)
    requires j <= |calls| && !Overflows(ps, calls, key)
    ensures !Overflows(ps, calls[..j], key)
    ensures j < |calls| && calls[j].key == key ==> !Overflow(Run(ps, calls[..j]).0, calls[j])
  {
    if j < |calls| {
      var front := calls[..|calls| - 1];
      if j < |front| {
        OverflowsLater(ps, front, j, key);
        assert front[..j] == calls[..j];
      } else {
        assert calls[..j] == front;
      }
    } else {
      assert calls[..j] == calls;
    }
  }

  /** What each call of a run answers, by the number of holders that the calls before it leave:
      the locks granted less the unlocks accepted. */
  lemma AnswerIff(ps: Packages, calls: seq<Call>, j: nat)
    requires j < |calls| && !Overflows(ps, calls, calls[j].key)
    requires calls[j].key in ps ==> ps[calls[j].key].lockCount == 0
    ensures |Run(ps, calls).1| == |calls|
    ensures var c, log := calls[j], Run(ps, calls).1;
      var r, holders := log[j], Grants(log[..j], c.key) - Releases(log[..j], c.key);
      && r.key == c.key
      && (r.Unknown? <==> c.key !in ps)
      && (c.DoLock? && c.key in ps ==>
            && (r.Granted? <==> holders > 0 || c.reply.success)
            && (r.LockFailed? <==> holders == 0 && !c.reply.success)
            && (r.Granted? ==> r.lockId == holders + 1 && (r.library <==> holders == 0)))
      && (c.DoUnlock? && c.key in ps ==>
            && (r.NeverLocked? <==> holders == 0)
            && (r.Released? <==> holders > 0)
            && (r.Released? ==> (r.library <==> holders == 1) && (r.ok <==> holders > 1 || c.libraryOk)))
  {
    var c := calls[j];
    RunPrefix(ps, calls, j);
    OverflowsLater(ps, calls, j, c.key);
    RunKeepsKeys(ps, calls[..j]);
    if c.key in ps {
      RunKeepsPackage(ps, calls[..j], c.key);
      hide Run, SessionOk, Grants, Releases, LibraryLocks, LibraryUnlocks, Overflows;
    }
  }

  /** What the library has last written to the stored path: the answer of its last lock,
      granted or not, unless it has been given the package back since. */
  function PathWritten(path: string, calls: seq<Call>, log: seq<Record>, key: Key): string
    requires |log| == |calls|
  {
    if calls == [] then path
    else
      var c, r := calls[|calls| - 1], log[|log| - 1];
      if c.key == key && c.DoLock? && (r.LockFailed? || (r.Granted? && r.library)) then c.reply.path
      else if c.key == key && r.Released? && r.library then ""
      else PathWritten(path, calls[..|calls| - 1], log[..|log| - 1], key)
  }

  function ConfigWritten(config: RuntimeConfig, calls: seq<Call>, log: seq<Record>, key: Key): RuntimeConfig
    requires |log| == |calls|
  {
    if calls == [] then config
    else
      var c, r := calls[|calls| - 1], log[|log| - 1];
      if c.key == key && c.DoLock? && (r.LockFailed? || (r.Granted? && r.library)) then c.reply.config
      else ConfigWritten(config, calls[..|calls| - 1], log[..|log| - 1], key)
  }

  /** In every run, what is stored for a package is what the library wrote last. */
  lemma {:induction false} StoredIsWritten(ps: Packages, calls: seq<Call>, key: Key)
    requires key in ps
    ensures var (ps', log) := Run(ps, calls);
      && |log| == |calls| && key in ps'
      && ps'[key].unpackedPath == PathWritten(ps[key].unpackedPath, calls, log, key)
      && ps'[key].config == ConfigWritten(ps[key].config, calls, log, key)
  {
    RunKeepsKeys(ps, calls);
    if calls != [] {
      var front := calls[..|calls| - 1];
      StoredIsWritten(ps, front, key);
      RunKeepsKeys(ps, front);
      var (ps', log) := Run(ps, calls);
      assert log[..|log| - 1] == Run(ps, front).1;
    }
  }

  /** Lock `i` was granted by the library with this path and configuration, which has not been
      given the package back by any later call. */
  ghost predicate LockedWith(
    calls: seq<Call>, log: seq<Record>, i: nat, key: Key, path: string, config: RuntimeConfig)
  {
    && i < |log| == |calls|
    && calls[i].DoLock? && calls[i].key == key && calls[i].reply.success
    && log[i].Granted? && log[i].library
    && calls[i].reply.path == path && calls[i].reply.config == config
    && forall m :: i < m < |log| && log[m].Released? && log[m].key == key ==> !log[m].library
  }

  ghost predicate Locked(calls: seq<Call>, log: seq<Record>, key: Key, path: string, config: RuntimeConfig) {
    exists i :: LockedWith(calls, log, i, key, path, config)
  }

  lemma LockedLonger(
    calls: seq<Call>, log: seq<Record>, key: Key, path: string, config: RuntimeConfig, c: Call, r: Record)
    requires Locked(calls, log, key, path, config) && !(r.Released? && r.key == key && r.library)
    ensures Locked(calls + [c], log + [r], key, path, config)
  {
    var i :| LockedWith(calls, log, i, key, path, config);
    assert LockedWith(calls + [c], log + [r], i, key, path, config);
  }

  /** Of a package that is held, the stored path and configuration are those of the lock that
      the library holds it by. */
  ghost predicate HeldAsLocked(calls: seq<Call>, log: seq<Record>, key: Key, p: Package) {
    p.lockCount > 0 ==> Locked(calls, log, key, p.unpackedPath, p.config)
  }

  lemma CallKeepsHeld(ps: Packages, calls: seq<Call>, log: seq<Record>, c: Call, key: Key)
    requires key in ps && |log| == |calls| && HeldAsLocked(calls, log, key, ps[key])
    requires c.key == key ==> !Overflow(ps, c)
    ensures var (ps', r) := Do(ps, c);
      && key in ps' && HeldAsLocked(calls + [c], log + [r], key, ps'[key])
      && (IsGrant(r, key) ==> Locked(calls + [c], log + [r], key, r.path, r.config))
  {
    var (ps', r) := Do(ps, c);
    var p := ps[key];
    if c.key == key && c.DoLock? && p.lockCount == 0 {
      if c.reply.success {
        assert LockedWith(calls + [c], log + [r], |log|, key, r.path, r.config);
      }
    } else if p.lockCount > 0 && !(r.Released? && r.key == key && r.library) {
      LockedLonger(calls, log, key, p.unpackedPath, p.config, c, r);
    }
  }

  lemma {:induction false} RunKeepsHeld(ps: Packages, calls: seq<Call>, key: Key)
    requires key in ps && ps[key].lockCount == 0 && !Overflows(ps, calls, key)
    ensures var (ps', log) := Run(ps, calls);
      |log| == |calls| && key in ps' && HeldAsLocked(calls, log, key, ps'[key])
  {
    RunKeepsKeys(ps, calls);
    if calls != [] {
      var front, c := calls[..|calls| - 1], calls[|calls| - 1];
      RunKeepsHeld(ps, front, key);
      var (before, log) := Run(ps, front);
      CallKeepsHeld(before, front, log, c, key);
      hide HeldAsLocked, Do;
      assert front + [c] == calls;
    }
  }

  lemma OwnGrant(ps: Packages, c: Call, key: Key)
    ensures Do(ps, c).1.key == c.key
  {
  }

  /** Every lock granted, in every run, is answered with the path and configuration that the
      library gave when it last locked the package, at that call or before it, and from which
      it has not been given the package back. */
  lemma GrantIsLibrarys(ps: Packages, calls: seq<Call>, j: nat, key: Key)
    requires key in ps && ps[key].lockCount == 0 && !Overflows(ps, calls, key) && j < |calls|
    requires |Run(ps, calls).1| == |calls| && IsGrant(Run(ps, calls).1[j], key)
    ensures var log := Run(ps, calls).1; Locked(calls[..j + 1], log[..j + 1], key, log[j].path, log[j].config)
  {
    RunPrefix(ps, calls, j);
    OverflowsLater(ps, calls, j, key);
    var front, log := calls[..j], Run(ps, calls).1;
    RunKeepsHeld(ps, front, key);
    RunKeepsKeys(ps, front);
    var before := Run(ps, front).0;
    OwnGrant(before, calls[j], key);
    CallKeepsHeld(before, front, log[..j], calls[j], key);
    assert calls[..j + 1] == front + [calls[j]] && log[..j + 1] == log[..j] + [log[j]];
  }

  // ------------------------------------------------- the object

  class PackageHandler {
    var packages: Packages

    constructor (ps: Packages)
      ensures packages == ps
    {
      packages := ps;
    }

    method LockPackage(key: Key, reply: LibraryLock) returns (record: Record)
      modifies this`packages
      ensures (packages, record) == Lock(old(packages), key, reply)
    {
      if key in packages {
        var state := packages[key];
        var locked := state.lockCount > 0;
        if locked {
          state := state.(lockCount := (state.lockCount + 1) % WORD);
          packages := packages[key := state];
          return Granted(key, state.lockCount, state.unpackedPath, state.config, false);
        }
        state := state.(unpackedPath := reply.path);
        state := state.(config := reply.config);
        if reply.success {
          state := state.(lockCount := state.lockCount + 1);
          record := Granted(key, state.lockCount, state.unpackedPath, state.config, true);
        } else {
          record := LockFailed(key);
        }
        packages := packages[key := state];
      } else {
        record := Unknown(key);
      }
    }

    method UnlockPackage(key: Key, libraryOk: bool) returns (record: Record)
      modifies this`packages
      ensures (packages, record) == Unlock(old(packages), key, libraryOk)
    {
      if key in packages {
        var state := packages[key];
        if state.lockCount > 0 {
          state := state.(lockCount := state.lockCount - 1);
          if state.lockCount == 0 {
            state := state.(unpackedPath := "");
            record := Released(key, true, libraryOk);
          } else {
            record := Released(key, false, true);
          }
          packages := packages[key := state];
        } else {
          record := NeverLocked(key);
        }
      } else {
        record := Unknown(key);
      }
    }
  }
}
