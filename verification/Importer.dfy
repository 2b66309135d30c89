/**
  The session that commits queued subscribers in batches.  A record is known by its place in the
  queue; beginning a transaction, inserting and committing may each fail at any record.
*/
module Importer {
  import opened Wrappers

  const COMMIT_BATCH_SIZE := 10000

  datatype Status = Importing | Finished | Failed

  /** What the database does at each record; `lastCommits` is the commit after the queue is closed. */
  datatype Faults = Faults(begins: nat -> bool, inserts: nat -> bool, commits: nat -> bool, lastCommits: bool)

  /** The database: the committed transactions, and the open one if there is one. */
  datatype Db = Db(committed: seq<seq<nat>>, open: Option<seq<nat>>)

  function Flat(batches: seq<seq<nat>>): seq<nat> {
    if batches == [] then [] else Flat(batches[..|batches| - 1]) + batches[|batches| - 1]
  }

  // ---------------------------------------------------------------- specification

  /** The loop after some records, with an account of the ones that were lost. */
  datatype Job = Job(cur: nat, db: Db, imported: nat, halted: bool, skipped: nat, rolledBack: nat, unread: nat)

  function Start(): Job { Job(0, Db([], None), 0, false, 0, 0, 0) }

  function Process(j: Job, i: nat, f: Faults): Job
    requires !j.halted && j.cur > 0 ==> j.db.open.Some?
  {
    if j.halted then j.(unread := j.unread + 1)
    else if j.cur == 0 && !f.begins(i) then j.(db := Db(j.db.committed, None), skipped := j.skipped + 1)
    else
      var held := if j.cur == 0 then [] else j.db.open.value;
      if !f.inserts(i) then
        j.(db := Db(j.db.committed, None), halted := true, rolledBack := j.rolledBack + j.cur, unread := j.unread + 1)
      else if (j.cur + 1) % COMMIT_BATCH_SIZE != 0 then
        j.(cur := j.cur + 1, db := Db(j.db.committed, Some(held + [i])))
      else if f.commits(i) then
        j.(cur := 0, db := Db(j.db.committed + [held + [i]], None), imported := j.imported + j.cur + 1)
      else
        j.(cur := 0, db := Db(j.db.committed, None), rolledBack := j.rolledBack + j.cur + 1)
  }

  /** The state after the first `n` records. */
  function Processed(n: nat, f: Faults): (j: Job)
    ensures !j.halted && j.cur > 0 ==> j.db.open.Some?
  {
    if n == 0 then Start() else Process(Processed(n - 1, f), n - 1, f)
  }

  function Lost(j: Job): nat { j.skipped + j.rolledBack + j.unread }

  datatype Outcome = Outcome(committed: seq<seq<nat>>, imported: nat, status: Status, lost: nat)

  /** A rolled back transaction cannot be committed any more. */
  function Close(j: Job, f: Faults): Outcome
    requires !j.halted && j.cur > 0 ==> j.db.open.Some?
  {
    if j.cur == 0 then Outcome(j.db.committed, j.imported, Finished, Lost(j))
    else if j.halted then Outcome(j.db.committed, j.imported, Status.Failed, Lost(j))
    else if !f.lastCommits then Outcome(j.db.committed, j.imported, Status.Failed, Lost(j) + j.cur)
    else Outcome(j.db.committed + [j.db.open.value], j.imported + j.cur, Finished, Lost(j))
  }

  function Imported(n: nat, f: Faults): Outcome { Close(Processed(n, f), f) }

  // ---------------------------------------------------------------- the session

  class Session {
    var imported: nat
    var status: Status
    var db: Db

    constructor ()
      ensures imported == 0 && status == Importing && db == Db([], None)
    {
      imported, status, db := 0, Importing, Db([], None);
    }

    method IncrementImportCount(n: nat)
      modifies this`imported
      ensures imported == old(imported) + n
    {
      imported := imported + n;
    }

    ghost predicate Matches(j: Job, cur: nat, halted: bool)
      reads this
    {
      cur == j.cur && halted == j.halted && db == j.db && imported == j.imported
    }

    method Run(n: nat, f: Faults)
      requires imported == 0 && db == Db([], None)
      modifies this
      ensures db.committed == Imported(n, f).committed
      ensures imported == Imported(n, f).imported && status == Imported(n, f).status
    {
      var cur: nat := 0;
      var i: nat := 0;
      var halted := false;
      while i < n && !halted
        invariant i <= n
        invariant Matches(Processed(i, f), cur, halted)
        decreases n - i
      {
        ghost var j := Processed(i, f);
        assert Processed(i + 1, f) == Process(j, i, f);
        i := i + 1;
        if cur == 0 {
          if !f.begins(i - 1) {
            db := Db(db.committed, None);
            continue;
          }
          db := Db(db.committed, Some([]));
        }
        if !f.inserts(i - 1) {
          db := Db(db.committed, None);
          halted := true;
          continue;
        }
        db := Db(db.committed, Some(db.open.value + [i - 1]));
        cur := cur + 1;
        if cur % COMMIT_BATCH_SIZE == 0 {
          if !f.commits(i - 1) {
            db := Db(db.committed, None);
          } else {
            db := Db(db.committed + [db.open.value], None);
            IncrementImportCount(cur);
          }
          cur := 0;
        }
      }
      if halted {
        HaltedStays(i, n, f);
        AccountedUpTo(i, f);
      }
      if cur == 0 {
        status := Finished;
        return;
      }
      if db.open.None? || !f.lastCommits {
        db := Db(db.committed, None);
        status := Status.Failed;
        return;
      }
      db := Db(db.committed + [db.open.value], None);
      IncrementImportCount(cur);
      status := Finished;
    }
  }

  lemma {:induction false} HaltedStays(i: nat, n: nat, f: Faults)
    requires i <= n && Processed(i, f).halted
    ensures Processed(n, f) == Processed(i, f).(unread := Processed(i, f).unread + n - i)
    decreases n
  {
    if i < n {
      HaltedStays(i, n - 1, f);
    }
  }

  // ---------------------------------------------------------------- conservation

  predicate Rising(xs: seq<nat>, low: nat, high: nat) {
    && (forall k | 0 <= k < |xs| :: low <= xs[k] < high)
    && (forall k, l | 0 <= k < l < |xs| :: xs[k] < xs[l])
  }

  lemma FlatAppended(batches: seq<seq<nat>>, b: seq<nat>)
    ensures Flat(batches + [b]) == Flat(batches) + b
  {}

  function Pending(j: Job): seq<nat>
    requires !j.halted && j.cur > 0 ==> j.db.open.Some?
  {
    if j.halted || j.cur == 0 then [] else j.db.open.value
  }

  /** Every record read so far is committed, pending or accounted as lost. */
  ghost predicate Accounted(j: Job, n: nat) {
    && (!j.halted && j.cur > 0 ==> j.db.open.Some?)
    && j.imported == |Flat(j.db.committed)|
    && (!j.halted ==> |Pending(j)| == j.cur && j.cur < COMMIT_BATCH_SIZE)
    && |Flat(j.db.committed)| + |Pending(j)| + Lost(j) == n
    && (j.halted ==> j.db.open == None && j.unread > 0)
  }

  lemma ProcessAccounts(j: Job, i: nat, f: Faults)
    requires Accounted(j, i)
    ensures Accounted(Process(j, i, f), i + 1)
  {}

  lemma {:induction false} AccountedUpTo(n: nat, f: Faults)
    ensures Accounted(Processed(n, f), n)
    decreases n
  {
    if n > 0 {
      AccountedUpTo(n - 1, f);
      ProcessAccounts(Processed(n - 1, f), n - 1, f);
    }
  }

  function Kept(j: Job): seq<nat>
    requires !j.halted && j.cur > 0 ==> j.db.open.Some?
  {
    Flat(j.db.committed) + Pending(j)
  }

  lemma ProcessKeeps(j: Job, i: nat, f: Faults)
    requires !j.halted && j.cur > 0 ==> j.db.open.Some?
    ensures var kept := Kept(Process(j, i, f));
      kept == Kept(j) || kept == Kept(j) + [i] || kept == Flat(j.db.committed)
  {
    var next, base := Process(j, i, f), Flat(j.db.committed);
    if next.db.committed != j.db.committed {
      FlatAppended(j.db.committed, Pending(j) + [i]);
      assert Kept(next) == base + (Pending(j) + [i]) + [] == Kept(j) + [i];
    } else if Pending(next) == [] {
      assert Kept(next) == base;
    } else {
      assert Pending(next) == Pending(j) + [i];
      assert Kept(next) == Kept(j) + [i];
    }
  }

  lemma RisingExtends(xs: seq<nat>, i: nat)
    requires Rising(xs, 0, i)
    ensures Rising(xs + [i], 0, i + 1) && Rising(xs, 0, i + 1)
  {
  }

  lemma RisingPrefix(xs: seq<nat>, ys: seq<nat>, n: nat)
    requires Rising(xs + ys, 0, n)
    ensures Rising(xs, 0, n)
  {
    assert forall k | 0 <= k < |xs| :: xs[k] == (xs + ys)[k];
  }

  lemma StepInOrder(j: Job, i: nat, f: Faults)
    requires (!j.halted && j.cur > 0 ==> j.db.open.Some?) && Rising(Kept(j), 0, i)
    ensures Rising(Kept(Process(j, i, f)), 0, i + 1)
  {
    var kept := Kept(Process(j, i, f));
    ProcessKeeps(j, i, f);
    RisingExtends(Kept(j), i);
    if kept == Flat(j.db.committed) {
      RisingPrefix(Flat(j.db.committed), Pending(j), i);
      RisingExtends(Flat(j.db.committed), i);
    }
  }

  lemma {:induction false} KeptInOrder(n: nat, f: Faults)
    ensures Rising(Kept(Processed(n, f)), 0, n)
    decreases n
  {
    if n > 0 {
      KeptInOrder(n - 1, f);
      StepInOrder(Processed(n - 1, f), n - 1, f);
    }
  }

  /**
    Whatever fails: the import count is the number of records in committed transactions, those are
    in queue order without repeats, and every other record of the queue is one accounted loss.
  */
  lemma ImportConserves(n: nat, f: Faults)
    ensures var o := Imported(n, f);
      && o.imported == |Flat(o.committed)|
      && Rising(Flat(o.committed), 0, n)
      && o.imported + o.lost == n
  {
    AccountedUpTo(n, f);
    KeptInOrder(n, f);
    var j := Processed(n, f);
    RisingPrefix(Flat(j.db.committed), Pending(j), n);
    if j.cur > 0 && !j.halted && f.lastCommits {
      FlatAppended(j.db.committed, j.db.open.value);
    }
  }

  // ---------------------------------------------------------------- when nothing is lost

  /** No call that the session makes for an unbroken queue fails. */
  ghost predicate SmoothUpTo(i: nat, f: Faults) {
    forall k: nat {:trigger f.inserts(k)} | k < i ::
      && f.inserts(k)
      && (k % COMMIT_BATCH_SIZE == 0 ==> f.begins(k))
      && ((k + 1) % COMMIT_BATCH_SIZE == 0 ==> f.commits(k))
  }

  ghost predicate Smooth(n: nat, f: Faults) {
    SmoothUpTo(n, f) && (n % COMMIT_BATCH_SIZE != 0 ==> f.lastCommits)
  }

  /** Nothing is lost so far exactly when nothing failed so far; then the batches are aligned. */
  ghost predicate SmoothSoFar(j: Job, i: nat, f: Faults) {
    && (Lost(j) == 0 <==> SmoothUpTo(i, f))
    && (Lost(j) == 0 ==>
          !j.halted && j.cur == i % COMMIT_BATCH_SIZE && |j.db.committed| == i / COMMIT_BATCH_SIZE)
  }

  lemma SmoothNext(i: nat, f: Faults)
    ensures SmoothUpTo(i + 1, f) <==>
      && SmoothUpTo(i, f)
      && f.inserts(i)
      && (i % COMMIT_BATCH_SIZE == 0 ==> f.begins(i))
      && ((i + 1) % COMMIT_BATCH_SIZE == 0 ==> f.commits(i))
  {}

  lemma SmoothStep(j: Job, i: nat, f: Faults)
    requires Accounted(j, i) && SmoothSoFar(j, i, f)
    ensures SmoothSoFar(Process(j, i, f), i + 1, f)
  {
    if Lost(j) > 0 {
      assert Lost(Process(j, i, f)) > 0;
    } else {
      SmoothNext(i, f);
      assert i == COMMIT_BATCH_SIZE * (i / COMMIT_BATCH_SIZE) + j.cur;
    }
  }

  lemma {:induction false} SmoothRun(i: nat, f: Faults)
    ensures SmoothSoFar(Processed(i, f), i, f)
    decreases i
  {
    if i > 0 {
      SmoothRun(i - 1, f);
      AccountedUpTo(i - 1, f);
      SmoothStep(Processed(i - 1, f), i - 1, f);
    }
  }

  /**
    The whole queue is committed exactly when no call fails; it is then in queue order, in as few
    transactions as the batch size allows, and the session ends finished.
  */
  lemma CompleteIffSmooth(n: nat, f: Faults)
    ensures Imported(n, f).lost == 0 <==> Smooth(n, f)
    ensures Smooth(n, f) ==>
      var o := Imported(n, f);
      && o.status == Finished
      && |o.committed| == (n + COMMIT_BATCH_SIZE - 1) / COMMIT_BATCH_SIZE
      && Flat(o.committed) == seq(n, i => i)
  {
    SmoothRun(n, f);
    ImportConserves(n, f);
    if Smooth(n, f) {
      RisingAll(Flat(Imported(n, f).committed), n);
    }
  }

  lemma {:induction false} RisingAll(xs: seq<nat>, n: nat)
    requires Rising(xs, 0, n) && |xs| == n
    ensures xs == seq(n, i => i)
    decreases n
  {
    if n > 0 {
      assert xs[n - 1] == n - 1 by { RisingBound(xs, n, n - 1); }
      RisingAll(xs[..n - 1], n - 1);
      assert xs == xs[..n - 1] + [n - 1];
    }
  }

  lemma {:induction false} RisingBound(xs: seq<nat>, n: nat, k: nat)
    requires Rising(xs, 0, n) && k < |xs|
    ensures xs[k] >= k
  {
    if k > 0 {
      RisingBound(xs, n, k - 1);
    }
  }

  // ---------------------------------------------------------------- what the status tells

  /** Record `b` opens a transaction. */
  ghost predicate Opens(b: nat, f: Faults) { !Processed(b, f).halted && Processed(b, f).cur == 0 && f.begins(b) }

  /** The records from `b` to `m` are all inserted into a transaction that `b` opened, and do not fill it. */
  ghost predicate OpenBatch(b: nat, m: nat, f: Faults) {
    && b < m && m - b < COMMIT_BATCH_SIZE && Opens(b, f)
    && forall k: nat {:trigger f.inserts(k)} | b <= k < m :: f.inserts(k)
  }

  /** A transaction with some records and room for more is the last: the next insert fails, or the queue ends and
      its commit fails. */
  ghost predicate EndsOpen(n: nat, f: Faults) {
    exists b: nat, m: nat :: m <= n && OpenBatch(b, m, f) && if m == n then !f.lastCommits else !f.inserts(m)
  }

  lemma {:induction false} BatchStaysOpen(b: nat, m: nat, f: Faults)
    requires OpenBatch(b, m, f)
    ensures !Processed(m, f).halted && Processed(m, f).cur == m - b
    decreases m
  {
    var j := Processed(m - 1, f);
    assert f.inserts(m - 1) && Processed(m, f) == Process(j, m - 1, f);
    if b < m - 1 {
      BatchStaysOpen(b, m - 1, f);
    }
  }

  /** The transaction that is or was open last ends before `m`, the record whose insert failed or the next one. */
  ghost predicate Since(j: Job, i: nat, m: nat, f: Faults) {
    && 0 < j.cur <= m <= i && OpenBatch(m - j.cur, m, f)
    && if j.halted then m < i && !f.inserts(m) else m == i
  }

  /** What one record does to an open transaction. */
  predicate Continues(j: Job, t: Job, i: nat, f: Faults) {
    && (j.halted ==> t.halted && t.cur == j.cur)
    && (!j.halted && t.halted ==> !f.inserts(i) && t.cur == j.cur)
    && (!t.halted ==> !j.halted && f.inserts(i) && t.cur == j.cur + 1 < COMMIT_BATCH_SIZE)
  }

  lemma CurAfter(j: Job, i: nat, f: Faults)
    requires Accounted(j, i) && Process(j, i, f).cur > 0
    ensures var t := Process(j, i, f);
      && (j.cur == 0 ==> !j.halted && !t.halted && t.cur == 1 && f.begins(i) && f.inserts(i))
      && (j.cur > 0 ==> Continues(j, t, i, f))
  {}

  lemma SinceStep(j: Job, t: Job, i: nat, m: nat, f: Faults) returns (m': nat)
    requires Since(j, i, m, f) && Continues(j, t, i, f)
    ensures Since(t, i + 1, m', f)
  {
    m' := m;
    if !t.halted {
      GrownBatch(m - j.cur, m, f);
      m' := i + 1;
    }
  }

  lemma SinceFirst(t: Job, i: nat, f: Faults)
    requires Opens(i, f) && f.inserts(i) && t.cur == 1 && !t.halted
    ensures Since(t, i + 1, i + 1, f)
  {}

  lemma SinceNext(j: Job, i: nat, f: Faults)
    requires j == Processed(i, f) && j.cur == 0 && Process(j, i, f).cur > 0
    ensures Since(Process(j, i, f), i + 1, i + 1, f)
  {
    AccountedUpTo(i, f);
    CurAfter(j, i, f);
    SinceFirst(Process(j, i, f), i, f);
  }

  lemma GoesOn(j: Job, i: nat, m: nat, f: Faults) returns (m': nat)
    requires Since(j, i, m, f) && Accounted(j, i) && Process(j, i, f).cur > 0
    ensures Since(Process(j, i, f), i + 1, m', f)
  {
    CurAfter(j, i, f);
    m' := SinceStep(j, Process(j, i, f), i, m, f);
  }

  lemma {:induction false} OpenSince(i: nat, j: Job, f: Faults) returns (m: nat)
    requires j == Processed(i, f) && j.cur > 0
    ensures Since(j, i, m, f)
    decreases i
  {
    var before := Processed(i - 1, f);
    assert j == Process(before, i - 1, f);
    if before.cur > 0 {
      AccountedUpTo(i - 1, f);
      m := OpenSince(i - 1, before, f);
      m := GoesOn(before, i - 1, m, f);
    } else {
      SinceNext(before, i - 1, f);
      m := i;
    }
  }

  lemma GrownBatch(b: nat, m: nat, f: Faults)
    requires OpenBatch(b, m, f) && f.inserts(m) && m + 1 - b < COMMIT_BATCH_SIZE
    ensures OpenBatch(b, m + 1, f)
  {}

  lemma FailedEndsOpen(n: nat, f: Faults)
    requires Imported(n, f).status.Failed?
    ensures EndsOpen(n, f)
  {
    var m := OpenSince(n, Processed(n, f), f);
    assert OpenBatch(m - Processed(n, f).cur, m, f);
  }

  lemma OpenEndFails(n: nat, b: nat, m: nat, f: Faults)
    requires m <= n && OpenBatch(b, m, f) && if m == n then !f.lastCommits else !f.inserts(m)
    ensures Imported(n, f).status.Failed?
  {
    BatchStaysOpen(b, m, f);
    if m < n {
      assert Processed(m + 1, f) == Process(Processed(m, f), m, f);
      HaltedStays(m + 1, n, f);
    }
  }

  /** A session ends failed exactly when its last transaction holds records and cannot be committed; in every other
      case it ends finished, whatever was lost. */
  lemma FailedExactly(n: nat, f: Faults)
    ensures Imported(n, f).status == if EndsOpen(n, f) then Status.Failed else Finished
  {
    if Imported(n, f).status.Failed? {
      FailedEndsOpen(n, f);
    }
    if EndsOpen(n, f) {
      var b: nat, m: nat :| m <= n && OpenBatch(b, m, f) && if m == n then !f.lastCommits else !f.inserts(m);
      OpenEndFails(n, b, m, f);
    }
  }

  /** The status tells less: when the first insert fails, nothing is imported and the session ends finished. */
  lemma FinishedWithLosses(n: nat, f: Faults)
    requires n > 0 && f.begins(0) && !f.inserts(0)
    ensures Imported(n, f).status == Finished && Imported(n, f).committed == [] && Imported(n, f).lost == n
  {
    assert Processed(1, f) == Process(Start(), 0, f);
    HaltedStays(1, n, f);
  }

  // ---------------------------------------------------------------- what one failure costs

  /** What record `i` does to the records kept and to those lost, for each way in which it may fail: a transaction that
      cannot be begun loses exactly the record; an insert that fails loses the open transaction and stops the session; a
      commit that fails loses exactly its transaction. */
  lemma EachFailureCosts(j: Job, i: nat, f: Faults)
    requires Accounted(j, i) && !j.halted
    ensures var t := Process(j, i, f); var lost := Lost(t) - Lost(j);
      if j.cur == 0 && !f.begins(i) then Kept(t) == Kept(j) && lost == 1 && !t.halted
      else if !f.inserts(i) then Kept(t) == Flat(j.db.committed) && lost == |Pending(j)| + 1 && t.halted
      else if (j.cur + 1) % 10_000 == 0 && !f.commits(i) then
        Kept(t) == Flat(j.db.committed) && lost == |Pending(j)| + 1 && !t.halted
      else Kept(t) == Kept(j) + [i] && lost == 0 && !t.halted
  {
    var t := Process(j, i, f);
    if t.db.committed != j.db.committed {
      FlatAppended(j.db.committed, Pending(j) + [i]);
    }
    assert Flat(j.db.committed) + [] == Flat(j.db.committed);
    assert Flat(j.db.committed) + (Pending(j) + [i]) == Kept(j) + [i];
    assert Flat(t.db.committed) + Pending(t) == Kept(t);
  }

  /** Once stopped the session reads no further record. */
  lemma StoppedReadsNothing(j: Job, i: nat, f: Faults)
    requires Accounted(j, i) && j.halted
    ensures var t := Process(j, i, f); t.halted && t.db == j.db && t.imported == j.imported && Lost(t) == Lost(j) + 1
  {}
}
