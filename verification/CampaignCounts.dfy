/**
  Sent counts.  The database adds the counts it is given, so a success must be
  given to it once.  The ledger below accounts for every success of a campaign
  at every moment, including the ones that get lost or are given twice.
*/
module CampaignCounts {
  import opened Counting
  import opened CampaignModel
  import opened CampaignWaitGroup

  predicate UncountedFor(w: Worker, c: int) {
    (w.Pushed? || w.Tallying?) && w.ok && w.msg.pipe.Some? && w.msg.camp == c
  }

  /** Successful pushes of the campaign that no worker has counted yet. */
  function Uncounted(s: State, c: int): nat { Count(s.workers, w => UncountedFor(w, c)) }

  /** Counts in the registered pipe that have not been given to the store. */
  function InMemory(s: State, c: int): nat {
    if c in s.registry && HasPipe(s, s.registry[c]) then Unflushed(s.pipes[s.registry[c]]) else 0
  }

  /** Counts that a snapshot took and NextCampaigns has not received. */
  function InFlight(s: State, c: int): nat {
    if s.scanner.Snapped? && c in s.scanner.counts then s.scanner.counts[c] else 0
  }

  predicate Balanced(s: State, c: int)
    requires c in s.rows && c in s.books
  {
    s.books[c].base + |s.books[c].wins| + s.books[c].doubled
    == s.rows[c].sent + InMemory(s, c) + InFlight(s, c) + Uncounted(s, c) + s.books[c].lost
  }

  predicate HoldsMsg(w: Worker, p: nat) { !w.Free? && !w.Raising? && Of(w.msg, p) }

  /** A pipe's counters are sane, and a pipe that is not yet registered has none. */
  predicate Counters(s: State, p: nat)
    requires HasPipe(s, p)
  {
    var x := s.pipes[p];
    && x.log.flushed <= x.sent
    && (x.stage == Waiting ==> x.log.flushed == 0)
    && (InScanner(s.scanner, p) ==>
          && x.sent == 0
          && (forall i | 0 <= i < |s.queue| :: !Of(s.queue[i], p))
          && (forall w | 0 <= w < |s.workers| :: !HoldsMsg(s.workers[w], p)))
  }

  lemma CountersByScanner(cfg: Config, s: State, a: ScanAct, p: nat)
    requires Shape(cfg, s) && Registry(s) && ScanEnabled(cfg, s, a) && HasPipe(ScanApply(cfg, s, a), p)
    requires HasPipe(s, p) ==> Counters(s, p)
    ensures Counters(ScanApply(cfg, s, a), p)
  {}

  lemma CountersByRunner(cfg: Config, s: State, a: RunAct, p: nat)
    requires RunEnabled(cfg, s, a) && HasPipe(s, p) && WgOk(s, p) && Counters(s, p)
    ensures Counters(RunApply(cfg, s, a), p)
  {}

  lemma CountersByWorker(cfg: Config, s: State, w: nat, a: WorkAct, p: nat)
    requires WorkEnabled(cfg, s, w, a) && HasPipe(s, p) && Counters(s, p)
    ensures Counters(WorkApply(cfg, s, w, a), p)
  {}

  lemma CountersByCleanup(cfg: Config, s: State, q: nat, a: CleanAct, p: nat)
    requires CleanEnabled(cfg, s, q, a) && HasPipe(s, p) && WgOk(s, p) && Counters(s, p)
    ensures Counters(CleanApply(cfg, s, q, a), p)
  {}

  lemma CountersByApi(cfg: Config, s: State, a: ApiAct, p: nat)
    requires ApiEnabled(cfg, s, a) && HasPipe(s, p) && Counters(s, p)
    ensures Counters(ApiApply(cfg, s, a), p)
  {}

  lemma CountersStep(cfg: Config, s: State, l: Label, p: nat)
    requires Inv(cfg, s) && Enabled(cfg, s, l) && HasPipe(Apply(cfg, s, l), p)
    requires HasPipe(s, p) ==> Counters(s, p)
    ensures Counters(Apply(cfg, s, l), p)
  {
    match l
    case ByScanner(a) => CountersByScanner(cfg, s, a, p);
    case ByRunner(a) => CountersByRunner(cfg, s, a, p);
    case ByWorker(w, a) => CountersByWorker(cfg, s, w, a, p);
    case ByCleanup(q, a) => CountersByCleanup(cfg, s, q, a, p);
    case ByApi(a) => CountersByApi(cfg, s, a, p);
  }

  // ---------------------------------------------------------------- the balance

  lemma BalancedByScan(cfg: Config, s: State, a: ScanAct, c: int)
    requires Shape(cfg, s) && ScanEnabled(cfg, s, a) && (a.Scan? || a.ScanError?) && c in s.rows && Balanced(s, c)
    ensures c in ScanApply(cfg, s, a).rows && c in ScanApply(cfg, s, a).books
    ensures Balanced(ScanApply(cfg, s, a), c)
  {}

  lemma BalancedByScanner(cfg: Config, s: State, a: ScanAct, c: int)
    requires Shape(cfg, s) && Registry(s) && ScanEnabled(cfg, s, a) && c in s.rows && Balanced(s, c)
    requires forall p | 0 <= p < |s.pipes| :: Counters(s, p)
    ensures c in ScanApply(cfg, s, a).rows && c in ScanApply(cfg, s, a).books
    ensures Balanced(ScanApply(cfg, s, a), c)
  {
    if a.Scan? || a.ScanError? {
      BalancedByScan(cfg, s, a, c);
    } else {
      ScannerFrame(cfg, s, a);
      if c in s.registry { assert Counters(s, s.registry[c]); }
      if a.RegisterPipe? { assert Counters(s, s.scanner.pipe); }
    }
  }

  lemma BalancedByRunner(cfg: Config, s: State, a: RunAct, c: int)
    requires Shape(cfg, s) && RunEnabled(cfg, s, a) && c in s.rows && Balanced(s, c)
    ensures Balanced(RunApply(cfg, s, a), c)
  {}

  lemma BalancedByTally(cfg: Config, s: State, w: nat, c: int)
    requires Shape(cfg, s) && Registry(s) && WorkEnabled(cfg, s, w, Tally) && c in s.rows && Balanced(s, c)
    requires forall p | 0 <= p < |s.pipes| :: Counters(s, p)
    ensures Balanced(WorkApply(cfg, s, w, Tally), c)
  {
    CountReplaced(s.workers, w, WorkApply(cfg, s, w, Tally).workers[w], w => UncountedFor(w, c));
    if c in s.registry { assert Counters(s, s.registry[c]); }
    assert Counters(s, s.workers[w].msg.pipe.value);
  }

  lemma BalancedByWorker(cfg: Config, s: State, w: nat, a: WorkAct, c: int)
    requires Shape(cfg, s) && Registry(s) && WorkEnabled(cfg, s, w, a) && c in s.rows && Balanced(s, c)
    requires forall p | 0 <= p < |s.pipes| :: Counters(s, p)
    ensures Balanced(WorkApply(cfg, s, w, a), c)
  {
    if a.Tally? {
      BalancedByTally(cfg, s, w, c);
    } else {
      CountReplaced(s.workers, w, WorkApply(cfg, s, w, a).workers[w], w => UncountedFor(w, c));
    }
  }

  lemma BalancedByFlush(cfg: Config, s: State, p: nat, ok: bool, c: int)
    requires Shape(cfg, s) && Registry(s) && CleanEnabled(cfg, s, p, Flush(ok)) && c in s.rows && Balanced(s, c)
    requires Counters(s, p) && Registered(s, p)
    ensures Balanced(CleanApply(cfg, s, p, Flush(ok)), c)
  {}

  lemma BalancedByCleanup(cfg: Config, s: State, p: nat, a: CleanAct, c: int)
    requires Shape(cfg, s) && Registry(s) && CleanEnabled(cfg, s, p, a) && c in s.rows && Balanced(s, c)
    requires WgOk(s, p) && Counters(s, p)
    ensures Balanced(CleanApply(cfg, s, p, a), c)
  {
    assert Live(s, p);
    assert s.pipes[p].wg == 0;
    assert Registered(s, p);
    if a.Flush? { BalancedByFlush(cfg, s, p, a.ok, c); }
  }

  lemma BalancedByApi(cfg: Config, s: State, a: ApiAct, c: int)
    requires Shape(cfg, s) && ApiEnabled(cfg, s, a) && c in s.rows && Balanced(s, c)
    ensures Balanced(ApiApply(cfg, s, a), c)
  {}

  // ---------------------------------------------------------------- every run

  predicate CountsInv(cfg: Config, s: State) {
    && Inv(cfg, s)
    && (forall p | 0 <= p < |s.pipes| :: Counters(s, p))
    && (forall c | c in s.rows :: c in s.books && Balanced(s, c))
  }

  lemma CountsInit(cfg: Config, s: State)
    requires Init(cfg, s)
    ensures CountsInv(cfg, s)
  {
    InvInit(cfg, s);
    forall c | c in s.rows ensures c in s.books && Balanced(s, c) {
      CountPositive(s.workers, w => UncountedFor(w, c));
    }
  }

  lemma CountsStep(cfg: Config, s: State, l: Label)
    requires CountsInv(cfg, s) && Enabled(cfg, s, l)
    ensures CountsInv(cfg, Apply(cfg, s, l))
  {
    var t := Apply(cfg, s, l);
    InvStep(cfg, s, l);
    forall p | 0 <= p < |t.pipes| ensures Counters(t, p) { CountersStep(cfg, s, l, p); }
    RowsKept(cfg, s, l);
    forall c | c in t.rows ensures c in t.books && Balanced(t, c) { BalancedStep(cfg, s, l, c); }
  }

  lemma BalancedStep(cfg: Config, s: State, l: Label, c: int)
    requires CountsInv(cfg, s) && Enabled(cfg, s, l) && c in s.rows
    ensures c in Apply(cfg, s, l).rows && c in Apply(cfg, s, l).books && Balanced(Apply(cfg, s, l), c)
  {
    RowsKept(cfg, s, l);
    match l
    case ByScanner(a) => BalancedByScanner(cfg, s, a, c);
    case ByRunner(a) => BalancedByRunner(cfg, s, a, c);
    case ByWorker(w, a) => BalancedByWorker(cfg, s, w, a, c);
    case ByCleanup(q, a) => assert WgOk(s, q) && Counters(s, q); BalancedByCleanup(cfg, s, q, a, c);
    case ByApi(a) => BalancedByApi(cfg, s, a, c);
  }

  /** Step `l` hands a message of campaign `c` to the messenger without an error. */
  predicate Succeeds(s: State, l: Label, c: int) {
    && l.ByWorker? && l.work == Push(true) && l.worker < |s.workers|
    && s.workers[l.worker].Cleared? && s.workers[l.worker].msg.pipe.Some? && s.workers[l.worker].msg.camp == c
  }

  function Successes(cfg: Config, s: State, ls: seq<Label>, c: int): nat
    requires IsRun(cfg, s, ls)
    decreases |ls|
  {
    if ls == [] then 0
    else (if Succeeds(s, ls[0], c) then 1 else 0) + Successes(cfg, Apply(cfg, s, ls[0]), ls[1..], c)
  }

  lemma WinsStep(cfg: Config, s: State, l: Label, c: int)
    requires Inv(cfg, s) && Enabled(cfg, s, l) && c in s.books
    ensures var t := Apply(cfg, s, l);
      && c in t.books && t.books[c].base == s.books[c].base
      && |t.books[c].wins| == |s.books[c].wins| + if Succeeds(s, l, c) then 1 else 0
  {}

  lemma {:induction false} CountsRun(cfg: Config, s: State, ls: seq<Label>, c: int)
    requires CountsInv(cfg, s) && IsRun(cfg, s, ls) && c in s.rows
    ensures var t := After(cfg, s, ls);
      && CountsInv(cfg, t) && c in t.rows && c in t.books && t.books[c].base == s.books[c].base
      && |t.books[c].wins| == |s.books[c].wins| + Successes(cfg, s, ls, c)
    decreases |ls|
  {
    if ls != [] {
      CountsStep(cfg, s, ls[0]);
      RowsKept(cfg, s, ls[0]);
      WinsStep(cfg, s, ls[0], c);
      CountsRun(cfg, Apply(cfg, s, ls[0]), ls[1..], c);
    }
  }

  /** Conservation at the finest grain: at every moment the stored count, the counts on their way to
      the store and the counts lost make up the successes of the run and the counts stored twice. */
  lemma EveryCountAccounted(cfg: Config, s0: State, ls: seq<Label>, c: int)
    requires Reachable(cfg, s0, ls) && c in s0.rows
    ensures var s := After(cfg, s0, ls);
      && c in s.rows && c in s.books
      && s.rows[c].sent + InMemory(s, c) + InFlight(s, c) + Uncounted(s, c) + s.books[c].lost
         == s0.rows[c].sent + Successes(cfg, s0, ls, c) + s.books[c].doubled
  {
    CountsInit(cfg, s0);
    CountsRun(cfg, s0, ls, c);
  }

  // ---------------------------------------------------------------- what loses or doubles a count

  /** Of the counts of `c` that step `l` reads, those that a cleanup has stored already. */
  function StepDoubles(s: State, l: Label, c: int): nat {
    if l == ByScanner(Snapshot) && c in s.registry && HasPipe(s, s.registry[c])
    then s.pipes[s.registry[c]].log.flushed else 0
  }

  /** The counts of `c` that no store call will receive after step `l`. */
  function StepLoses(s: State, l: Label, c: int): nat {
    match l
    case ByScanner(a) =>
      if (a.Scan? || a.ScanError?) && s.scanner.Snapped? && c in s.scanner.counts && c !in a.stored
      then s.scanner.counts[c] else 0
    case ByWorker(w, Tally) =>
      if w < |s.workers| && s.workers[w].Tallying? && s.workers[w].ok && s.workers[w].msg.pipe.Some?
         && s.workers[w].msg.camp == c && !Registered(s, s.workers[w].msg.pipe.value)
      then 1 else 0
    case ByCleanup(p, Unregister) => if HasPipe(s, p) && s.pipes[p].camp == c then Unflushed(s.pipes[p]) else 0
    case _ => 0
  }

  function Doubled(cfg: Config, s: State, ls: seq<Label>, c: int): nat
    requires IsRun(cfg, s, ls)
    decreases |ls|
  {
    if ls == [] then 0 else StepDoubles(s, ls[0], c) + Doubled(cfg, Apply(cfg, s, ls[0]), ls[1..], c)
  }

  function Lost(cfg: Config, s: State, ls: seq<Label>, c: int): nat
    requires IsRun(cfg, s, ls)
    decreases |ls|
  {
    if ls == [] then 0 else StepLoses(s, ls[0], c) + Lost(cfg, Apply(cfg, s, ls[0]), ls[1..], c)
  }

  lemma DoubledByStep(cfg: Config, s: State, l: Label, c: int)
    requires Inv(cfg, s) && Enabled(cfg, s, l) && c in s.books
    ensures c in Apply(cfg, s, l).books
    ensures Apply(cfg, s, l).books[c].doubled == s.books[c].doubled + StepDoubles(s, l, c)
  {}

  lemma LostByStep(cfg: Config, s: State, l: Label, c: int)
    requires Inv(cfg, s) && Enabled(cfg, s, l) && c in s.books
    ensures c in Apply(cfg, s, l).books
    ensures Apply(cfg, s, l).books[c].lost == s.books[c].lost + StepLoses(s, l, c)
  {}

  /** The history keeps exactly the counts that the steps of the run doubled and lost. */
  lemma {:induction false} HistoryIsSum(cfg: Config, s: State, ls: seq<Label>, c: int)
    requires Inv(cfg, s) && IsRun(cfg, s, ls) && c in s.books
    ensures var t := After(cfg, s, ls);
      && c in t.books
      && t.books[c].doubled == s.books[c].doubled + Doubled(cfg, s, ls, c)
      && t.books[c].lost == s.books[c].lost + Lost(cfg, s, ls, c)
    decreases |ls|
  {
    if ls != [] {
      InvStep(cfg, s, ls[0]);
      DoubledByStep(cfg, s, ls[0], c);
      LostByStep(cfg, s, ls[0], c);
      HistoryIsSum(cfg, Apply(cfg, s, ls[0]), ls[1..], c);
    }
  }

  /** Conservation in terms of the run alone, and exactly when the counts exceed the successes. */
  lemma CountsExceedExactly(cfg: Config, s0: State, ls: seq<Label>, c: int)
    requires Reachable(cfg, s0, ls) && c in s0.rows
    ensures var s := After(cfg, s0, ls);
      && c in s.rows
      && s.rows[c].sent + InMemory(s, c) + InFlight(s, c) + Uncounted(s, c) + Lost(cfg, s0, ls, c)
         == s0.rows[c].sent + Successes(cfg, s0, ls, c) + Doubled(cfg, s0, ls, c)
      && (s.rows[c].sent + InMemory(s, c) + InFlight(s, c) > s0.rows[c].sent + Successes(cfg, s0, ls, c)
          <==> Doubled(cfg, s0, ls, c) > Lost(cfg, s0, ls, c) + Uncounted(s, c))
  {
    InvInit(cfg, s0);
    EveryCountAccounted(cfg, s0, ls, c);
    HistoryIsSum(cfg, s0, ls, c);
  }

  // ---------------------------------------------------------------- the steps to blame

  /** A store call that gets counts of campaign `c` does not take them. */
  predicate StoreFails(s: State, l: Label, c: int) {
    || (l.ByScanner? && (l.scan.Scan? || l.scan.ScanError?) && s.scanner.Snapped? && c in s.scanner.counts
        && c !in l.scan.stored)
    || (l.ByCleanup? && l.clean == Flush(false) && HasPipe(s, l.pipe) && s.pipes[l.pipe].camp == c)
  }

  /** A worker counts a success of campaign `c` after the cleanup of its pipe has read the counters. */
  predicate CountsLate(s: State, l: Label, c: int) {
    && l.ByWorker? && l.work.Tally? && l.worker < |s.workers|
    && s.workers[l.worker].Tallying? && s.workers[l.worker].ok && s.workers[l.worker].msg.pipe.Some?
    && s.workers[l.worker].msg.camp == c && HasPipe(s, s.workers[l.worker].msg.pipe.value)
    && s.pipes[s.workers[l.worker].msg.pipe.value].stage != Waiting
  }

  /** The scanner reads a counter of campaign `c` that a cleanup has stored and not yet removed. */
  predicate ReadsTwice(s: State, l: Label, c: int) {
    l == ByScanner(Snapshot) && c in s.registry && HasPipe(s, s.registry[c]) && s.pipes[s.registry[c]].log.flushed > 0
  }

  /** Past its flush no pipe of the campaign holds a count, and the run has lost none. */
  predicate NothingLost(s: State, c: int) {
    && (forall p | 0 <= p < |s.pipes| && s.pipes[p].camp == c && s.pipes[p].stage != Waiting ::
          Unflushed(s.pipes[p]) == 0)
    && c in s.books && s.books[c].lost == 0
  }

  lemma NothingLostByScanner(cfg: Config, s: State, a: ScanAct, c: int)
    requires NothingLost(s, c) && ScanEnabled(cfg, s, a) && !StoreFails(s, ByScanner(a), c)
    ensures NothingLost(ScanApply(cfg, s, a), c)
  {}

  lemma NothingLostByRunner(cfg: Config, s: State, a: RunAct, c: int)
    requires NothingLost(s, c) && RunEnabled(cfg, s, a)
    ensures NothingLost(RunApply(cfg, s, a), c)
  {}

  lemma NothingLostByTally(cfg: Config, s: State, w: nat, c: int)
    requires CountsInv(cfg, s) && NothingLost(s, c) && WorkEnabled(cfg, s, w, Tally)
    requires !CountsLate(s, ByWorker(w, Tally), c)
    ensures NothingLost(WorkApply(cfg, s, w, Tally), c)
  {
    var p := s.workers[w].msg.pipe.value;
    if s.workers[w].ok && s.workers[w].msg.camp == c {
      assert Live(s, p) && Counters(s, p);
      assert HoldsMsg(s.workers[w], p);
      assert Registered(s, p);
    }
  }

  lemma NothingLostByWorker(cfg: Config, s: State, w: nat, a: WorkAct, c: int)
    requires NothingLost(s, c) && WorkEnabled(cfg, s, w, a) && !a.Tally?
    ensures NothingLost(WorkApply(cfg, s, w, a), c)
  {}

  lemma NothingLostByCleanup(cfg: Config, s: State, p: nat, a: CleanAct, c: int)
    requires NothingLost(s, c) && CleanEnabled(cfg, s, p, a) && !StoreFails(s, ByCleanup(p, a), c)
    ensures NothingLost(CleanApply(cfg, s, p, a), c)
  {}

  lemma NothingLostByApi(cfg: Config, s: State, a: ApiAct, c: int)
    requires NothingLost(s, c) && ApiEnabled(cfg, s, a)
    ensures NothingLost(ApiApply(cfg, s, a), c)
  {}

  lemma NothingLostStep(cfg: Config, s: State, l: Label, c: int)
    requires CountsInv(cfg, s) && NothingLost(s, c) && Enabled(cfg, s, l)
    requires !StoreFails(s, l, c) && !CountsLate(s, l, c)
    ensures NothingLost(Apply(cfg, s, l), c)
  {
    match l
    case ByScanner(a) => NothingLostByScanner(cfg, s, a, c);
    case ByRunner(a) => NothingLostByRunner(cfg, s, a, c);
    case ByWorker(w, a) =>
      if a.Tally? { NothingLostByTally(cfg, s, w, c); } else { NothingLostByWorker(cfg, s, w, a, c); }
    case ByCleanup(p, a) => NothingLostByCleanup(cfg, s, p, a, c);
    case ByApi(a) => NothingLostByApi(cfg, s, a, c);
  }

  /** A run doubles nothing of a campaign exactly when it never reads one of its counters twice. */
  lemma {:induction false} NothingDoubledExactly(cfg: Config, s: State, ls: seq<Label>, c: int)
    requires IsRun(cfg, s, ls)
    ensures Doubled(cfg, s, ls, c) == 0 <==> Along(cfg, s, ls, (s, l) => !ReadsTwice(s, l, c))
    decreases |ls|
  {
    if ls != [] {
      NothingDoubledExactly(cfg, Apply(cfg, s, ls[0]), ls[1..], c);
    }
  }

  /** After step `l` some count of campaign `c` is in no memory and in no store call: a store call did not take
      it, a success was counted for a pipe that is gone, or a pipe is removed with more than it has flushed. */
  predicate LosesCount(s: State, l: Label, c: int) {
    || (l.ByScanner? && (l.scan.Scan? || l.scan.ScanError?) && s.scanner.Snapped? && c in s.scanner.counts
        && c !in l.scan.stored && s.scanner.counts[c] > 0)
    || (l.ByWorker? && l.work.Tally? && l.worker < |s.workers| && s.workers[l.worker].Tallying?
        && s.workers[l.worker].ok && s.workers[l.worker].msg.pipe.Some? && s.workers[l.worker].msg.camp == c
        && !Registered(s, s.workers[l.worker].msg.pipe.value))
    || (l.ByCleanup? && l.clean.Unregister? && HasPipe(s, l.pipe) && s.pipes[l.pipe].camp == c
        && s.pipes[l.pipe].sent > s.pipes[l.pipe].log.flushed)
  }

  /** A run loses nothing of a campaign exactly when none of its steps does. */
  lemma {:induction false} NothingLostExactly(cfg: Config, s: State, ls: seq<Label>, c: int)
    requires IsRun(cfg, s, ls)
    ensures Lost(cfg, s, ls, c) == 0 <==> Along(cfg, s, ls, (s, l) => !LosesCount(s, l, c))
    decreases |ls|
  {
    if ls != [] {
      NothingLostExactly(cfg, Apply(cfg, s, ls[0]), ls[1..], c);
    }
  }

  lemma {:induction false} NothingLostRun(cfg: Config, s: State, ls: seq<Label>, c: int)
    requires CountsInv(cfg, s) && IsRun(cfg, s, ls) && NothingLost(s, c)
    requires Along(cfg, s, ls, (s, l) => !StoreFails(s, l, c) && !CountsLate(s, l, c))
    ensures NothingLost(After(cfg, s, ls), c)
    decreases |ls|
  {
    if ls != [] {
      CountsStep(cfg, s, ls[0]);
      NothingLostStep(cfg, s, ls[0], c);
      NothingLostRun(cfg, Apply(cfg, s, ls[0]), ls[1..], c);
    }
  }

  /** Unless a snapshot falls between a flush of the campaign and the removal of the pipe, its stored count
      and the counts still in memory never exceed its successes, whatever else fails. */
  lemma CountsNeverExceed(cfg: Config, s0: State, ls: seq<Label>, c: int)
    requires Reachable(cfg, s0, ls) && c in s0.rows
    requires Along(cfg, s0, ls, (s, l) => !ReadsTwice(s, l, c))
    ensures var s := After(cfg, s0, ls);
      c in s.rows && s.rows[c].sent + InMemory(s, c) + InFlight(s, c) <= s0.rows[c].sent + Successes(cfg, s0, ls, c)
  {
    CountsExceedExactly(cfg, s0, ls, c);
    NothingDoubledExactly(cfg, s0, ls, c);
  }

  /** The counts of a campaign, with the pushes not counted yet, equal its successes exactly when the run doubled as
      much as it lost. */
  lemma CountsExactExactly(cfg: Config, s0: State, ls: seq<Label>, c: int)
    requires Reachable(cfg, s0, ls) && c in s0.rows
    ensures var s := After(cfg, s0, ls);
      && c in s.rows
      && (s.rows[c].sent + InMemory(s, c) + InFlight(s, c) + Uncounted(s, c)
          == s0.rows[c].sent + Successes(cfg, s0, ls, c)
          <==> Doubled(cfg, s0, ls, c) == Lost(cfg, s0, ls, c))
  {
    CountsExceedExactly(cfg, s0, ls, c);
  }

  /** If moreover every store call takes the counts of the campaign and none of its successes is counted after its pipe
      was flushed, the counts are exact at every moment. */
  lemma CountsAreExact(cfg: Config, s0: State, ls: seq<Label>, c: int)
    requires Reachable(cfg, s0, ls) && c in s0.rows
    requires Along(cfg, s0, ls, (s, l) => !ReadsTwice(s, l, c))
    requires Along(cfg, s0, ls, (s, l) => !StoreFails(s, l, c) && !CountsLate(s, l, c))
    ensures var s := After(cfg, s0, ls);
      && c in s.rows
      && s.rows[c].sent + InMemory(s, c) + InFlight(s, c) + Uncounted(s, c)
         == s0.rows[c].sent + Successes(cfg, s0, ls, c)
  {
    CountsInit(cfg, s0);
    CountsExceedExactly(cfg, s0, ls, c);
    HistoryIsSum(cfg, s0, ls, c);
    NothingDoubledExactly(cfg, s0, ls, c);
    NothingLostRun(cfg, s0, ls, c);
  }

  // ---------------------------------------------------------------- atomic blocks

  /** The block of a worker after `Done`, and the body of a cleanup, run without interruption. */
  predicate Undisturbed(s: State, l: Label) {
    && (forall w | 0 <= w < |s.workers| && s.workers[w].Tallying? :: l == ByWorker(w, Tally))
    && (forall p | 0 <= p < |s.pipes| && s.pipes[p].stage != Waiting && !s.pipes[p].stage.Gone? ::
          l.ByCleanup? && l.pipe == p)
  }

  predicate TalliesWait(s: State) {
    forall w | 0 <= w < |s.workers| && s.workers[w].Tallying? && s.workers[w].msg.pipe.Some? ::
      HasPipe(s, s.workers[w].msg.pipe.value) && s.pipes[s.workers[w].msg.pipe.value].stage == Waiting
  }

  lemma TalliesWaitStep(cfg: Config, s: State, l: Label, c: int)
    requires CountsInv(cfg, s) && TalliesWait(s) && Enabled(cfg, s, l) && Undisturbed(s, l)
    ensures TalliesWait(Apply(cfg, s, l)) && !CountsLate(s, l, c) && !ReadsTwice(s, l, c)
  {
    match l
    case ByScanner(a) =>
      if c in s.registry {
        assert Counters(s, s.registry[c]) && Live(s, s.registry[c]);
      }
    case ByWorker(w, a) =>
      if a.MarkDone? && s.workers[w].msg.pipe.Some? {
        var p := s.workers[w].msg.pipe.value;
        assert WgOk(s, p);
        CountPositive(s.workers, w => Owes(w, p));
      }
    case _ =>
  }

  /** With those blocks atomic nothing is counted late or read twice. */
  lemma {:induction false} NoRaceInAtomicRun(cfg: Config, s: State, ls: seq<Label>, c: int, storeOk: bool)
    requires CountsInv(cfg, s) && TalliesWait(s) && IsRun(cfg, s, ls)
    requires Along(cfg, s, ls, (s, l) => Undisturbed(s, l) && (storeOk ==> !StoreFails(s, l, c)))
    ensures Along(cfg, s, ls, (s, l) => !ReadsTwice(s, l, c))
    ensures storeOk ==> Along(cfg, s, ls, (s, l) => !StoreFails(s, l, c) && !CountsLate(s, l, c))
    decreases |ls|
  {
    if ls != [] {
      CountsStep(cfg, s, ls[0]);
      TalliesWaitStep(cfg, s, ls[0], c);
      NoRaceInAtomicRun(cfg, Apply(cfg, s, ls[0]), ls[1..], c, storeOk);
    }
  }

  /** With those blocks atomic, the stored count and the counts in memory never exceed the successes,
      and are equal to them, up to pushes not counted yet, when no store call of the campaign has failed. */
  lemma AtomicBlocksKeepCounts(cfg: Config, s0: State, ls: seq<Label>, c: int, storeOk: bool)
    requires Reachable(cfg, s0, ls) && c in s0.rows
    requires Along(cfg, s0, ls, (s, l) => Undisturbed(s, l) && (storeOk ==> !StoreFails(s, l, c)))
    ensures var s := After(cfg, s0, ls);
      && c in s.rows
      && s.rows[c].sent + InMemory(s, c) + InFlight(s, c) <= s0.rows[c].sent + Successes(cfg, s0, ls, c)
      && (storeOk ==> s.rows[c].sent + InMemory(s, c) + InFlight(s, c) + Uncounted(s, c)
                      == s0.rows[c].sent + Successes(cfg, s0, ls, c))
  {
    CountsInit(cfg, s0);
    NoRaceInAtomicRun(cfg, s0, ls, c, storeOk);
    CountsNeverExceed(cfg, s0, ls, c);
    if storeOk { CountsAreExact(cfg, s0, ls, c); }
  }
}
