/**
  Database migrations over upgrade runs that may die anywhere.  The history of a database is a list
  of events; the settings table that records versions is itself made by one of the migrations.
*/
module Upgrade {
  datatype Version = Version(major: nat, minor: nat, patch: nat)

  const NONE := Version(0, 0, 0)

  /** Precedence of release versions (item 11 of Semantic Versioning 2.0.0). */
  predicate Less(a: Version, b: Version) {
    a.major < b.major
    || (a.major == b.major && (a.minor < b.minor || (a.minor == b.minor && a.patch < b.patch)))
  }

  const MIGRATIONS := [
    Version(0, 4, 0), Version(0, 7, 0), Version(0, 8, 0), Version(0, 9, 0), Version(1, 0, 0), Version(2, 0, 0),
    Version(2, 1, 0), Version(2, 2, 0), Version(2, 3, 0), Version(2, 4, 0), Version(2, 5, 0), Version(3, 0, 0),
    Version(4, 0, 0), Version(4, 1, 0), Version(5, 0, 0), Version(5, 1, 0), Version(6, 0, 0), Version(6, 1, 0),
    Version(6, 2, 0)]

  /** The migration that makes the settings table. */
  const MAKES_SETTINGS := Version(0, 7, 0)

  datatype Event = Began(v: Version) | Succeeded(v: Version) | Recorded(v: Version)

  /** A database: the version it started out with, whether it has a settings table, and what was done to it. */
  datatype Db = Db(base: Version, table: bool, events: seq<Event>)

  datatype Fault = NoFault | MigrationFails | RecordFails

  /** One run of the program; each fault may as well be the death of the process at that point. */
  datatype Run = Run(record: bool, readFails: bool, fault: Version -> Fault)

  function LastRecorded(base: Version, events: seq<Event>): Version {
    if events == [] then base
    else if events[|events| - 1].Recorded? then events[|events| - 1].v
    else LastRecorded(base, events[..|events| - 1])
  }

  function Last(db: Db): Version { LastRecorded(db.base, db.events) }

  predicate Rising(migs: seq<Version>) {
    forall i, j | 0 <= i < j < |migs| :: Less(migs[i], migs[j])
  }

  lemma MigrationsRise()
    ensures Rising(MIGRATIONS) && MAKES_SETTINGS in MIGRATIONS
    ensures forall i | 0 <= i < |MIGRATIONS| :: Less(NONE, MIGRATIONS[i])
  {
    assert MIGRATIONS[1] == MAKES_SETTINGS;
    NeighboursRise(MIGRATIONS);
  }

  lemma {:induction false} NeighboursRise(migs: seq<Version>)
    requires forall i | 0 < i < |migs| :: Less(migs[i - 1], migs[i])
    ensures Rising(migs)
    decreases |migs|
  {
    if |migs| > 1 {
      var front := migs[..|migs| - 1];
      NeighboursRise(front);
      forall i | 0 <= i < |front| ensures Less(migs[i], migs[|migs| - 1]) {
        assert i == |front| - 1 || Less(front[i], front[|front| - 1]);
      }
    }
  }

  /** All migrations above a version, found without relying on their order. */
  function Pending(migs: seq<Version>, last: Version): seq<Version> {
    if migs == [] then [] else (if Less(last, migs[0]) then [migs[0]] else []) + Pending(migs[1..], last)
  }

  // ---------------------------------------------------------------- one run

  function Migrated(db: Db, v: Version): Db {
    db.(table := db.table || v == MAKES_SETTINGS, events := db.events + [Began(v), Succeeded(v)])
  }

  function Executed(db: Db, todo: seq<Version>, r: Run): (Db, bool)
    decreases |todo|
  {
    if todo == [] then (db, true)
    else
      var v := todo[0];
      if r.fault(v).MigrationFails? then (db.(events := db.events + [Began(v)]), false)
      else
        var after := Migrated(db, v);
        if !r.record then Executed(after, todo[1..], r)
        else if r.fault(v).RecordFails? then (after, false)
        else if !after.table then Executed(after, todo[1..], r)
        else Executed(after.(events := after.events + [Recorded(v)]), todo[1..], r)
  }

  /** The database after a run, and whether the run got to its end. */
  function Upgraded(db: Db, migs: seq<Version>, r: Run): (Db, bool) {
    if r.readFails then (db, false) else Executed(db, Pending(migs, Last(db)), r)
  }

  function AfterRuns(db: Db, migs: seq<Version>, runs: seq<Run>): Db {
    if runs == [] then db else Upgraded(AfterRuns(db, migs, runs[..|runs| - 1]), migs, runs[|runs| - 1]).0
  }

  class Database {
    var db: Db

    constructor (start: Db)
      ensures db == start
    {
      db := start;
    }

    /** The suffix that starts at the first migration above the last recorded one. */
    method GetPendingMigrations(migs: seq<Version>) returns (toRun: seq<Version>)
      requires Rising(migs)
      ensures toRun == Pending(migs, Last(db))
    {
      var lastVer := Last(db);
      toRun := [];
      var i := 0;
      assert migs[0..] == migs;
      while i < |migs|
        invariant 0 <= i <= |migs| && toRun == []
        invariant Pending(migs, lastVer) == Pending(migs[i..], lastVer)
      {
        if Less(lastVer, migs[i]) {
          toRun := migs[i..];
          AllPending(migs[i..], lastVer);
          return;
        }
        assert migs[i..][1..] == migs[i + 1..];
        i := i + 1;
      }
    }

    method Upgrade(migs: seq<Version>, r: Run) returns (completed: bool)
      requires Rising(migs)
      modifies this
      ensures (db, completed) == Upgraded(old(db), migs, r)
      ensures r.readFails ==> !completed && db == old(db)
    {
      if r.readFails {
        return false;
      }
      var toRun := GetPendingMigrations(migs);
      var n := 0;
      assert toRun[0..] == toRun;
      while n < |toRun|
        invariant 0 <= n <= |toRun|
        invariant Executed(db, toRun[n..], r) == Executed(old(db), toRun, r)
      {
        var v := toRun[n];
        assert toRun[n..][0] == v && toRun[n..][1..] == toRun[n + 1..];
        n := n + 1;
        if r.fault(v).MigrationFails? {
          db := db.(events := db.events + [Began(v)]);
          return false;
        }
        db := Migrated(db, v);
        if r.record {
          if r.fault(v).RecordFails? {
            return false;
          }
          if !db.table {
            continue;
          }
          db := db.(events := db.events + [Recorded(v)]);
        }
      }
      return true;
    }
  }

  lemma {:induction false} AllPending(migs: seq<Version>, last: Version)
    requires Rising(migs) && (migs != [] ==> Less(last, migs[0]))
    ensures Pending(migs, last) == migs
  {
    if migs != [] {
      AllPending(migs[1..], last);
    }
  }

  // ---------------------------------------------------------------- safety over all runs

  /** Every migration above the starting version had succeeded before a later one began. */
  ghost predicate InOrder(base: Version, events: seq<Event>, migs: seq<Version>) {
    forall k, u | 0 <= k < |events| && events[k].Began? && u in migs && Less(base, u) && Less(u, events[k].v) ::
      Succeeded(u) in events[..k]
  }

  ghost predicate RecordsRise(base: Version, events: seq<Event>) {
    && (forall k | 0 <= k < |events| && events[k].Recorded? :: Less(base, events[k].v))
    && (forall k, l | 0 <= k < l < |events| && events[k].Recorded? && events[l].Recorded? ::
          Less(events[k].v, events[l].v))
  }

  /** The migrations above the base and up to a version have succeeded. */
  ghost predicate DoneUpTo(base: Version, events: seq<Event>, migs: seq<Version>, v: Version) {
    forall u | u in migs && Less(base, u) && !Less(v, u) :: Succeeded(u) in events
  }

  /** What every reachable database satisfies. */
  ghost predicate Safe(db: Db, migs: seq<Version>) {
    && InOrder(db.base, db.events, migs)
    && RecordsRise(db.base, db.events)
    && (forall e | e in db.events && e.Recorded? :: !Less(Last(db), e.v))
    && !Less(Last(db), db.base)
    && DoneUpTo(db.base, db.events, migs, Last(db))
  }

  /** Safe, with the first `i` migrations behind and the rest above the last recorded version. */
  ghost predicate Reached(db: Db, migs: seq<Version>, i: nat)
    requires i <= |migs|
  {
    && Safe(db, migs)
    && (forall j | 0 <= j < i && Less(db.base, migs[j]) :: Succeeded(migs[j]) in db.events)
    && (i < |migs| ==> Less(Last(db), migs[i]))
  }

  lemma BeginIsSafe(db: Db, migs: seq<Version>, i: nat, after: Db)
    requires Rising(migs) && i < |migs| && Reached(db, migs, i)
    requires after == db.(events := db.events + [Began(migs[i])])
    ensures Reached(after, migs, i)
  {}

  lemma InOrderExtended(base: Version, events: seq<Event>, migs: seq<Version>, e: Event)
    requires InOrder(base, events, migs) && !e.Began?
    ensures InOrder(base, events + [e], migs)
  {
    forall k, u | 0 <= k < |events + [e]| && (events + [e])[k].Began? && u in migs && Less(base, u)
                  && Less(u, (events + [e])[k].v)
      ensures Succeeded(u) in (events + [e])[..k]
    {
      assert (events + [e])[..k] == events[..k];
    }
  }

  lemma SuccessIsSafe(db: Db, migs: seq<Version>, i: nat, after: Db)
    requires Rising(migs) && i < |migs| && Reached(db, migs, i)
    requires after.base == db.base && after.events == db.events + [Succeeded(migs[i])]
    ensures Safe(after, migs) && Less(Last(after), migs[i])
    ensures forall j | 0 <= j <= i && Less(db.base, migs[j]) :: Succeeded(migs[j]) in after.events
  {
    assert after.events[..|db.events|] == db.events;
    InOrderExtended(db.base, db.events, migs, Succeeded(migs[i]));
  }

  lemma RecordIsSafe(db: Db, migs: seq<Version>, i: nat, after: Db)
    requires Rising(migs) && i < |migs| && Safe(db, migs) && Less(Last(db), migs[i])
    requires forall j | 0 <= j <= i && Less(db.base, migs[j]) :: Succeeded(migs[j]) in db.events
    requires after == db.(events := db.events + [Recorded(migs[i])])
    ensures Reached(after, migs, i + 1)
  {
    assert after.events[..|db.events|] == db.events;
    assert Last(after) == migs[i];
    InOrderExtended(db.base, db.events, migs, Recorded(migs[i]));
    forall u | u in migs && Less(db.base, u) && !Less(migs[i], u) ensures Succeeded(u) in after.events {
      var j :| 0 <= j < |migs| && migs[j] == u;
      assert j <= i;
    }
    assert forall k | 0 <= k < |db.events| :: db.events[k] in db.events;
  }

  lemma {:induction false} ExecutedIsSafe(db: Db, migs: seq<Version>, i: nat, r: Run)
    requires Rising(migs) && i <= |migs| && Reached(db, migs, i)
    ensures Safe(Executed(db, migs[i..], r).0, migs)
    ensures Executed(db, migs[i..], r).0.base == db.base
    decreases |migs| - i
  {
    if i < |migs| {
      var v := migs[i];
      var begun := db.(events := db.events + [Began(v)]);
      BeginIsSafe(db, migs, i, begun);
      if !r.fault(v).MigrationFails? {
        var after := Migrated(db, v);
        assert after.events == begun.events + [Succeeded(v)];
        SuccessIsSafe(begun, migs, i, after);
        assert migs[i..][1..] == migs[i + 1..];
        if !r.record || (!r.fault(v).RecordFails? && !after.table) {
          LessTransitive(Last(after), migs, i);
          ExecutedIsSafe(after, migs, i + 1, r);
        } else if !r.fault(v).RecordFails? {
          var done := after.(events := after.events + [Recorded(v)]);
          RecordIsSafe(after, migs, i, done);
          ExecutedIsSafe(done, migs, i + 1, r);
        }
      }
    }
  }

  lemma LessTransitive(v: Version, migs: seq<Version>, i: nat)
    requires Rising(migs) && i < |migs| && Less(v, migs[i])
    ensures i + 1 < |migs| ==> Less(v, migs[i + 1])
  {
  }

  /** The pending migrations are a suffix of the list. */
  lemma {:induction false} PendingIsSuffix(migs: seq<Version>, last: Version) returns (i: nat)
    requires Rising(migs)
    ensures i <= |migs| && Pending(migs, last) == migs[i..]
    ensures i < |migs| ==> Less(last, migs[i])
    ensures forall j | 0 <= j < i :: !Less(last, migs[j])
  {
    i := 0;
    if migs != [] {
      if Less(last, migs[0]) {
        AllPending(migs, last);
      } else {
        i := PendingIsSuffix(migs[1..], last);
        i := i + 1;
      }
    }
  }

  lemma UpgradeIsSafe(db: Db, migs: seq<Version>, r: Run)
    requires Rising(migs) && Safe(db, migs)
    ensures Safe(Upgraded(db, migs, r).0, migs) && Upgraded(db, migs, r).0.base == db.base
  {
    var i := PendingIsSuffix(migs, Last(db));
    forall j | 0 <= j < i && Less(db.base, migs[j]) ensures Succeeded(migs[j]) in db.events {
      assert migs[j] in migs;
    }
    ExecutedIsSafe(db, migs, i, r);
  }

  /**
    Over any runs that die anywhere: no migration begins before every earlier one has succeeded, and
    the recorded versions rise strictly.
  */
  lemma {:induction false} RunsAreSafe(base: Version, table: bool, migs: seq<Version>, runs: seq<Run>)
    requires Rising(migs)
    ensures var db := AfterRuns(Db(base, table, []), migs, runs);
      db.base == base && Safe(db, migs) && InOrder(base, db.events, migs) && RecordsRise(base, db.events)
    decreases |runs|
  {
    if runs != [] {
      RunsAreSafe(base, table, migs, runs[..|runs| - 1]);
      UpgradeIsSafe(AfterRuns(Db(base, table, []), migs, runs[..|runs| - 1]), migs, runs[|runs| - 1]);
    }
  }

  // ---------------------------------------------------------------- what a completed run achieves

  function Successes(events: seq<Event>): seq<Version> {
    if events == [] then []
    else
      var e := events[|events| - 1];
      var before := Successes(events[..|events| - 1]);
      if e.Succeeded? then before + [e.v] else before
  }

  lemma EventAppended(base: Version, events: seq<Event>, e: Event)
    ensures Successes(events + [e]) == if e.Succeeded? then Successes(events) + [e.v] else Successes(events)
    ensures LastRecorded(base, events + [e]) == if e.Recorded? then e.v else LastRecorded(base, events)
  {}

  lemma MigratedEvents(db: Db, v: Version)
    ensures var after := Migrated(db, v);
      && Successes(after.events) == Successes(db.events) + [v]
      && Successes(after.events + [Recorded(v)]) == Successes(db.events) + [v]
      && Last(after) == Last(db)
      && LastRecorded(db.base, after.events + [Recorded(v)]) == v
  {
    var after := Migrated(db, v);
    assert after.events == db.events + [Began(v)] + [Succeeded(v)];
    EventAppended(db.base, db.events, Began(v));
    EventAppended(db.base, db.events + [Began(v)], Succeeded(v));
    EventAppended(db.base, after.events, Recorded(v));
  }

  /** A run applies a prefix of what was pending, in order; one that gets to its end applies all of it. */
  lemma {:induction false} RunApplies(db: Db, todo: seq<Version>, r: Run) returns (n: nat)
    ensures n <= |todo| && Successes(Executed(db, todo, r).0.events) == Successes(db.events) + todo[..n]
    ensures Executed(db, todo, r).1 ==> n == |todo|
    decreases |todo|
  {
    n := 0;
    if todo != [] {
      var v := todo[0];
      EventAppended(db.base, db.events, Began(v));
      if !r.fault(v).MigrationFails? {
        var after := Migrated(db, v);
        var done := after.(events := after.events + [Recorded(v)]);
        MigratedEvents(db, v);
        var end := after;
        if !r.record || (!r.fault(v).RecordFails? && !after.table) {
          end := Executed(after, todo[1..], r).0;
          n := RunApplies(after, todo[1..], r);
        } else if !r.fault(v).RecordFails? {
          end := Executed(done, todo[1..], r).0;
          n := RunApplies(done, todo[1..], r);
        }
        assert Successes(end.events) == Successes(db.events) + [v] + todo[1..][..n];
        assert [v] + todo[1..][..n] == todo[..n + 1];
        n := n + 1;
      }
    }
  }

  lemma {:induction false} RunRecords(db: Db, todo: seq<Version>, r: Run)
    requires Executed(db, todo, r).1
    ensures var after := Executed(db, todo, r).0;
      Last(after) == if r.record && after.table && todo != [] then todo[|todo| - 1] else Last(db)
    ensures db.table ==> Executed(db, todo, r).0.table
    decreases |todo|
  {
    if todo != [] {
      var v := todo[0];
      var after := Migrated(db, v);
      MigratedEvents(db, v);
      if r.record && after.table {
        RunRecords(after.(events := after.events + [Recorded(v)]), todo[1..], r);
      } else {
        RunRecords(after, todo[1..], r);
      }
    }
  }

  /**
    After a run that got to its end nothing is pending exactly when there was nothing to do, or the
    run records versions and the settings table exists by then; otherwise all of it is pending again.
  */
  lemma NothingPendingIffRecorded(db: Db, migs: seq<Version>, r: Run)
    requires Rising(migs) && Upgraded(db, migs, r).1
    ensures var (after, _) := Upgraded(db, migs, r);
      && (Pending(migs, Last(after)) == [] <==> Pending(migs, Last(db)) == [] || (r.record && after.table))
      && (Pending(migs, Last(after)) == [] || Pending(migs, Last(after)) == Pending(migs, Last(db)))
  {
    var todo := Pending(migs, Last(db));
    var after := Upgraded(db, migs, r).0;
    RunRecords(db, todo, r);
    if r.record && after.table && todo != [] {
      var i := PendingIsSuffix(migs, Last(db));
      assert Last(after) == migs[|migs| - 1];
      var j := PendingIsSuffix(migs, Last(after));
      assert j == |migs|;
    }
  }

  /** Versions are totally ordered, and a larger major version, or of the same the larger minor one, is larger. */
  lemma OrderOfVersions(a: Version, b: Version)
    ensures a != b <==> Less(a, b) || Less(b, a)
    ensures !(Less(a, b) && Less(b, a))
    ensures a.major < b.major ==> Less(a, b)
    ensures a.major == b.major && a.minor < b.minor ==> Less(a, b)
  {}
}
