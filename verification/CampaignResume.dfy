/**
  Resuming a campaign.  The cleanup of a pipe moves the campaign's checkpoint to
  the largest id the pipe counted as sent, and the next pipe of the campaign
  starts from there.
*/
module CampaignResume {
  import opened Counting
  import opened CampaignModel
  import opened CampaignWaitGroup
  import opened CampaignDelivery
  import CampaignCounts

  /** The worker has pushed id `x` of pipe `p` successfully and has not counted it. */
  predicate IsUncounted(w: Worker, p: nat, x: nat) {
    (w.Pushed? || w.Tallying?) && w.ok && IsMsg(w.msg, p, x)
  }

  predicate UncountedBy(s: State, p: nat, x: nat) {
    exists w :: 0 <= w < |s.workers| && IsUncounted(s.workers[w], p, x)
  }

  /** `lastID` is the largest id counted so far. */
  predicate Tracked(s: State, p: nat)
    requires HasPipe(s, p)
  {
    var x := s.pipes[p];
    && (x.lastID == 0 || x.lastID in x.log.succeeded)
    && (forall i | 0 <= i < |x.log.succeeded| ::
          x.log.succeeded[i] <= x.lastID || UncountedBy(s, p, x.log.succeeded[i]))
    && (forall w | 0 <= w < |s.workers| && (s.workers[w].Pushed? || s.workers[w].Tallying?) && s.workers[w].ok
                   && Of(s.workers[w].msg, p) :: s.workers[w].msg.id in x.log.succeeded)
  }

  lemma TrackedKept(s: State, t: State, p: nat)
    requires HasPipe(s, p) && HasPipe(t, p) && Tracked(s, p) && t.workers == s.workers
    requires t.pipes[p].lastID == s.pipes[p].lastID && t.pipes[p].log.succeeded == s.pipes[p].log.succeeded
    ensures Tracked(t, p)
  {}

  lemma TrackedByWorker(cfg: Config, s: State, w: nat, a: WorkAct, p: nat)
    requires WorkEnabled(cfg, s, w, a) && HasPipe(s, p) && Tracked(s, p)
    ensures Tracked(WorkApply(cfg, s, w, a), p)
  {
    var t := WorkApply(cfg, s, w, a);
    var before, after := s.pipes[p].log.succeeded, t.pipes[p].log.succeeded;
    forall i | 0 <= i < |after| ensures after[i] <= t.pipes[p].lastID || UncountedBy(t, p, after[i]) {
      if i < |before| {
        if before[i] > s.pipes[p].lastID {
          var v :| 0 <= v < |s.workers| && IsUncounted(s.workers[v], p, before[i]);
          if v != w || a.MarkDone? { assert IsUncounted(t.workers[v], p, after[i]); }
        }
      } else {
        assert IsUncounted(t.workers[w], p, after[i]);
      }
    }
  }

  lemma TrackedByScanner(cfg: Config, s: State, a: ScanAct, p: nat)
    requires Shape(cfg, s) && Registry(s) && ScanEnabled(cfg, s, a) && HasPipe(ScanApply(cfg, s, a), p)
    requires HasPipe(s, p) ==> Tracked(s, p)
    ensures Tracked(ScanApply(cfg, s, a), p)
  {
    ScannerFrame(cfg, s, a);
    if HasPipe(s, p) {
      TrackedKept(s, ScanApply(cfg, s, a), p);
    }
  }

  lemma TrackedByRunner(cfg: Config, s: State, a: RunAct, p: nat)
    requires RunEnabled(cfg, s, a) && HasPipe(s, p) && Tracked(s, p)
    ensures Tracked(RunApply(cfg, s, a), p)
  {
    TrackedKept(s, RunApply(cfg, s, a), p);
  }

  lemma TrackedByCleanup(cfg: Config, s: State, q: nat, a: CleanAct, p: nat)
    requires CleanEnabled(cfg, s, q, a) && HasPipe(s, p) && Tracked(s, p)
    ensures Tracked(CleanApply(cfg, s, q, a), p)
  {
    TrackedKept(s, CleanApply(cfg, s, q, a), p);
  }

  lemma TrackedByApi(cfg: Config, s: State, a: ApiAct, p: nat)
    requires ApiEnabled(cfg, s, a) && HasPipe(s, p) && Tracked(s, p)
    ensures Tracked(ApiApply(cfg, s, a), p)
  {
    TrackedKept(s, ApiApply(cfg, s, a), p);
  }

  lemma TrackedStep(cfg: Config, s: State, l: Label, p: nat)
    requires Shape(cfg, s) && Registry(s) && Enabled(cfg, s, l) && HasPipe(Apply(cfg, s, l), p)
    requires HasPipe(s, p) ==> Tracked(s, p)
    ensures Tracked(Apply(cfg, s, l), p)
  {
    match l
    case ByWorker(w, a) => TrackedByWorker(cfg, s, w, a, p);
    case ByScanner(a) => TrackedByScanner(cfg, s, a, p);
    case ByRunner(a) => TrackedByRunner(cfg, s, a, p);
    case ByCleanup(q, a) => TrackedByCleanup(cfg, s, q, a, p);
    case ByApi(a) => TrackedByApi(cfg, s, a, p);
  }

  // ---------------------------------------------------------------- nobody twice

  predicate WaitsFor(s: State, p: nat, c: int) {
    HasPipe(s, p) && s.pipes[p].camp == c && s.pipes[p].stage == Waiting
  }

  predicate BehindPipe(wins: seq<nat>, log: Log) {
    forall i | 0 <= i < |wins| :: wins[i] <= log.start || wins[i] in log.succeeded
  }

  /** Every success of the campaign is behind the point from which its next fetch goes on. */
  ghost predicate Behind(s: State, c: int)
    requires c in s.rows && c in s.books
  {
    && (forall p: nat | WaitsFor(s, p, c) :: BehindPipe(s.books[c].wins, s.pipes[p].log))
    && ((forall p: nat :: !WaitsFor(s, p, c)) ==>
          forall i | 0 <= i < |s.books[c].wins| :: s.books[c].wins[i] <= s.rows[c].checkpoint)
  }

  ghost predicate NoRepeat(s: State, c: int)
    requires c in s.rows && c in s.books
  {
    !s.books[c].early ==> Behind(s, c) && forall x: nat :: Times(s.books[c].wins, x) <= 1
  }

  /** The steps that touch neither the successes nor the checkpoint of `c` nor which pipes wait. */
  lemma NoRepeatKept(s: State, t: State, c: int)
    requires c in s.rows && c in s.books && c in t.rows && c in t.books && NoRepeat(s, c)
    requires t.books[c].wins == s.books[c].wins && t.books[c].early == s.books[c].early
    requires t.rows[c].checkpoint == s.rows[c].checkpoint || exists p: nat :: WaitsFor(t, p, c)
    requires forall p: nat :: WaitsFor(t, p, c) <==> WaitsFor(s, p, c)
    requires forall p: nat | WaitsFor(s, p, c) ::
               && HasPipe(t, p) && t.pipes[p].log.start == s.pipes[p].log.start
               && t.pipes[p].log.succeeded == s.pipes[p].log.succeeded
    ensures NoRepeat(t, c)
  {}

  lemma NoRepeatByCreation(cfg: Config, s: State, c: int)
    requires Shape(cfg, s) && Registry(s) && ScanEnabled(cfg, s, CreatePipe) && s.scanner.todo[0] == c
    requires c in s.rows && NoRepeat(s, c)
    ensures NoRepeat(ScanApply(cfg, s, CreatePipe), c)
  {
    var t := ScanApply(cfg, s, CreatePipe);
    forall p: nat ensures !WaitsFor(s, p, c) {
      if WaitsFor(s, p, c) { assert Live(s, p); }
    }
    assert WaitsFor(t, |s.pipes|, c);
    forall p: nat | WaitsFor(t, p, c) ensures p == |s.pipes| {
      assert p < |s.pipes| ==> WaitsFor(s, p, c);
    }
  }

  lemma NoRepeatByScanner(cfg: Config, s: State, a: ScanAct, c: int)
    requires Shape(cfg, s) && Registry(s) && ScanEnabled(cfg, s, a) && c in s.rows && NoRepeat(s, c)
    ensures c in ScanApply(cfg, s, a).rows && c in ScanApply(cfg, s, a).books
    ensures NoRepeat(ScanApply(cfg, s, a), c)
  {
    var t := ScanApply(cfg, s, a);
    ScannerFrame(cfg, s, a);
    if a.CreatePipe? && s.scanner.todo[0] == c {
      NoRepeatByCreation(cfg, s, c);
    } else {
      forall p: nat ensures WaitsFor(t, p, c) <==> WaitsFor(s, p, c) {}
      NoRepeatKept(s, t, c);
    }
  }

  lemma NoRepeatByRunner(cfg: Config, s: State, a: RunAct, c: int)
    requires Shape(cfg, s) && RunEnabled(cfg, s, a) && c in s.rows && NoRepeat(s, c)
    requires !s.runner.Ready? ==> WgOk(s, s.runner.pipe)
    ensures c in RunApply(cfg, s, a).rows && NoRepeat(RunApply(cfg, s, a), c)
  {
    var t := RunApply(cfg, s, a);
    forall p: nat ensures WaitsFor(t, p, c) <==> WaitsFor(s, p, c) {}
    if a.Fetch? && s.pipes[s.runner.pipe].camp == c {
      assert WaitsFor(t, s.runner.pipe, c);
    }
    NoRepeatKept(s, t, c);
  }

  /** An id about to be pushed lies above the pipe's start and has not been pushed by it before. */
  lemma PushIsNew(s: State, w: nat, p: nat)
    requires HasPipe(s, p) && WgOk(s, p) && PipeOk(s, p)
    requires w < |s.workers| && s.workers[w].Cleared? && Of(s.workers[w].msg, p)
    ensures s.pipes[p].stage == Waiting
    ensures s.workers[w].msg.id > s.pipes[p].log.start
    ensures s.workers[w].msg.id !in s.pipes[p].log.succeeded
  {
    var x := s.workers[w].msg.id;
    CountPositive(s.workers, w => Owes(w, p));
    assert Owes(s.workers[w], p);
    CountPositive(s.workers, w => IsOpen(w, p, x));
    assert IsOpen(s.workers[w], p, x);
    assert Conserved(s, p, x);
    TimesPositive(s.pipes[p].log.fetched, x);
    AscendingOnce(s.pipes[p].log.fetched, x);
    TimesPositive(s.pipes[p].log.succeeded, x);
  }

  lemma NoRepeatByPush(cfg: Config, s: State, w: nat, c: int)
    requires DeliveryInv(cfg, s) && WorkEnabled(cfg, s, w, Push(true)) && c in s.rows && NoRepeat(s, c)
    requires s.workers[w].msg.pipe.Some? && s.workers[w].msg.camp == c
    ensures NoRepeat(WorkApply(cfg, s, w, Push(true)), c)
  {
    var t := WorkApply(cfg, s, w, Push(true));
    var p, x := s.workers[w].msg.pipe.value, s.workers[w].msg.id;
    assert PipeOk(s, p) && WgOk(s, p);
    PushIsNew(s, w, p);
    if !s.books[c].early {
      assert WaitsFor(s, p, c) && WaitsFor(t, p, c);
      assert BehindPipe(s.books[c].wins, s.pipes[p].log);
      forall q: nat | WaitsFor(t, q, c) ensures BehindPipe(t.books[c].wins, t.pipes[q].log) {
        assert Live(s, q) && Live(s, p);
        SameCampaignSamePipe(s, p, q);
      }
      forall y: nat ensures Times(t.books[c].wins, y) <= 1 {
        TimesAppended(s.books[c].wins, x, y);
        TimesPositive(s.books[c].wins, x);
      }
    }
  }

  lemma NoRepeatByWorker(cfg: Config, s: State, w: nat, a: WorkAct, c: int)
    requires DeliveryInv(cfg, s) && WorkEnabled(cfg, s, w, a) && c in s.rows && NoRepeat(s, c)
    ensures NoRepeat(WorkApply(cfg, s, w, a), c)
  {
    var t := WorkApply(cfg, s, w, a);
    WorkerFrame(cfg, s, w, a);
    if a == Push(true) && s.workers[w].msg.pipe.Some? && s.workers[w].msg.camp == c {
      NoRepeatByPush(cfg, s, w, c);
    } else {
      forall p: nat ensures WaitsFor(t, p, c) <==> WaitsFor(s, p, c) {}
      forall p: nat | WaitsFor(s, p, c) ensures t.pipes[p].log.succeeded == s.pipes[p].log.succeeded {}
      NoRepeatKept(s, t, c);
    }
  }

  /** Only an uncounted success can lie above `lastID`. */
  lemma EarlyFlush(s: State, p: nat, x: nat)
    requires HasPipe(s, p) && Tracked(s, p) && x in s.pipes[p].log.succeeded
    ensures x > s.pipes[p].lastID > 0 ==> FlushesEarly(s, p)
  {}

  /** What a flush that is not early leaves behind: every success of the pipe is at or below the new checkpoint. */
  lemma FlushCovers(cfg: Config, s: State, p: nat, ok: bool)
    requires CleanEnabled(cfg, s, p, Flush(ok)) && PipeOk(s, p) && Tracked(s, p)
    requires ok ==> !FlushesEarly(s, p)
    ensures var x := s.pipes[p];
      var target := if ok then CountsStored(s.rows[x.camp], x.sent, x.lastID).checkpoint
                        else s.rows[s.pipes[p].camp].checkpoint;
      && s.pipes[p].log.start <= target
      && (forall i | 0 <= i < |s.pipes[p].log.succeeded| :: s.pipes[p].log.succeeded[i] <= target)
  {
    var x := s.pipes[p];
    forall i | 0 <= i < |x.log.succeeded|
      ensures x.log.start < x.log.succeeded[i] <= Last(x.log.fetched, x.log.start)
      ensures ok && x.lastID > 0 ==> x.log.succeeded[i] <= x.lastID
    {
      SucceededWasFetched(s, p, x.log.succeeded[i]);
      EarlyFlush(s, p, x.log.succeeded[i]);
    }
  }

  lemma SucceededWasFetched(s: State, p: nat, x: nat)
    requires HasPipe(s, p) && PipeOk(s, p) && x in s.pipes[p].log.succeeded
    ensures x in s.pipes[p].log.fetched
    ensures s.pipes[p].log.start < x <= Last(s.pipes[p].log.fetched, s.pipes[p].log.start)
  {
    assert Conserved(s, p, x);
    TimesPositive(s.pipes[p].log.fetched, x);
    TimesPositive(s.pipes[p].log.succeeded, x);
  }

  lemma NoRepeatByCleanup(cfg: Config, s: State, p: nat, a: CleanAct, c: int)
    requires DeliveryInv(cfg, s) && CleanEnabled(cfg, s, p, a) && c in s.rows && NoRepeat(s, c)
    requires Tracked(s, p)
    ensures c in CleanApply(cfg, s, p, a).rows && NoRepeat(CleanApply(cfg, s, p, a), c)
  {
    var t := CleanApply(cfg, s, p, a);
    CleanupFrame(cfg, s, p, a);
    if a.Flush? && s.pipes[p].camp == c {
      if !t.books[c].early {
        assert WaitsFor(s, p, c) && PipeOk(s, p);
        assert BehindPipe(s.books[c].wins, s.pipes[p].log);
        FlushCovers(cfg, s, p, a.ok);
        forall q: nat ensures !WaitsFor(t, q, c) {
          if WaitsFor(t, q, c) { SameCampaignSamePipe(s, p, q); }
        }
      }
    } else {
      forall q: nat ensures WaitsFor(t, q, c) <==> WaitsFor(s, q, c) {}
      NoRepeatKept(s, t, c);
    }
  }

  lemma NoRepeatByApi(cfg: Config, s: State, a: ApiAct, c: int)
    requires Shape(cfg, s) && ApiEnabled(cfg, s, a) && c in s.rows && NoRepeat(s, c)
    ensures c in ApiApply(cfg, s, a).rows && NoRepeat(ApiApply(cfg, s, a), c)
  {
    var t := ApiApply(cfg, s, a);
    forall q: nat ensures WaitsFor(t, q, c) <==> WaitsFor(s, q, c) {}
    NoRepeatKept(s, t, c);
  }

  // ---------------------------------------------------------------- every run

  ghost predicate ResumeInv(cfg: Config, s: State) {
    && DeliveryInv(cfg, s)
    && (forall p | 0 <= p < |s.pipes| :: Tracked(s, p))
    && (forall c | c in s.rows :: c in s.books && NoRepeat(s, c))
  }

  lemma NoRepeatStep(cfg: Config, s: State, l: Label, c: int)
    requires ResumeInv(cfg, s) && Enabled(cfg, s, l) && c in s.rows
    ensures c in Apply(cfg, s, l).rows && c in Apply(cfg, s, l).books && NoRepeat(Apply(cfg, s, l), c)
  {
    match l
    case ByScanner(a) => NoRepeatByScanner(cfg, s, a, c);
    case ByRunner(a) => NoRepeatByRunner(cfg, s, a, c);
    case ByWorker(w, a) => NoRepeatByWorker(cfg, s, w, a, c);
    case ByCleanup(p, a) => assert Tracked(s, p); NoRepeatByCleanup(cfg, s, p, a, c);
    case ByApi(a) => NoRepeatByApi(cfg, s, a, c);
  }

  lemma ResumeStep(cfg: Config, s: State, l: Label)
    requires ValidConfig(cfg) && ResumeInv(cfg, s) && Enabled(cfg, s, l)
    ensures ResumeInv(cfg, Apply(cfg, s, l))
  {
    var t := Apply(cfg, s, l);
    DeliveryStep(cfg, s, l);
    forall p | 0 <= p < |t.pipes| ensures Tracked(t, p) { TrackedStep(cfg, s, l, p); }
    RowsKept(cfg, s, l);
    forall c | c in t.rows ensures c in t.books && NoRepeat(t, c) { NoRepeatStep(cfg, s, l, c); }
  }

  lemma {:induction false} ResumeRun(cfg: Config, s: State, ls: seq<Label>)
    requires ValidConfig(cfg) && ResumeInv(cfg, s) && IsRun(cfg, s, ls)
    ensures ResumeInv(cfg, After(cfg, s, ls))
    decreases |ls|
  {
    if ls != [] {
      ResumeStep(cfg, s, ls[0]);
      ResumeRun(cfg, Apply(cfg, s, ls[0]), ls[1..]);
    }
  }

  lemma ResumeReachable(cfg: Config, s0: State, ls: seq<Label>)
    requires ValidConfig(cfg) && Reachable(cfg, s0, ls)
    ensures ResumeInv(cfg, After(cfg, s0, ls))
  {
    InvInit(cfg, s0);
    ResumeRun(cfg, s0, ls);
  }

  // ---------------------------------------------------------------- main results

  /** The checkpoint after a flush, whatever the store answers: the flush passes the largest id counted or none,
      and every success of the pipe lies at or below the row's checkpoint exactly unless the store took an id
      while a worker had yet to count a larger one. */
  lemma CheckpointIsLargestSent(cfg: Config, s0: State, ls: seq<Label>, p: nat, ok: bool)
    requires ValidConfig(cfg) && Reachable(cfg, s0, ls)
    requires Enabled(cfg, After(cfg, s0, ls), ByCleanup(p, Flush(ok)))
    ensures var s := After(cfg, s0, ls); var x := s.pipes[p]; var t := Apply(cfg, s, ByCleanup(p, Flush(ok)));
      && (x.lastID == 0 || x.lastID in x.log.succeeded)
      && x.camp in t.rows
      && ((forall i | 0 <= i < |x.log.succeeded| :: x.log.succeeded[i] <= t.rows[x.camp].checkpoint)
          <==> !(ok && FlushesEarly(s, p)))
  {
    ResumeReachable(cfg, s0, ls);
    var s := After(cfg, s0, ls);
    assert Tracked(s, p) && PipeOk(s, p);
    if ok && FlushesEarly(s, p) {
      var w :| 0 <= w < |s.workers| && HoldsUncounted(s.workers[w], p, s.pipes[p].lastID);
      assert s.workers[w].msg.id in s.pipes[p].log.succeeded;
    } else {
      FlushCovers(cfg, s, p, ok);
    }
  }

  /** Step `l` hands campaign `c`'s message for subscriber `x` to the messenger without an error. */
  predicate Delivers(s: State, l: Label, c: int, x: nat) {
    && l.ByWorker? && l.work == Push(true) && l.worker < |s.workers| && s.workers[l.worker].Cleared?
    && var m := s.workers[l.worker].msg; m.pipe.Some? && m.camp == c && m.id == x
  }

  function Deliveries(cfg: Config, s: State, ls: seq<Label>, c: int, x: nat): nat
    requires IsRun(cfg, s, ls)
    decreases |ls|
  {
    if ls == [] then 0
    else (if Delivers(s, ls[0], c, x) then 1 else 0) + Deliveries(cfg, Apply(cfg, s, ls[0]), ls[1..], c, x)
  }

  /** A flush of campaign `c` precedes the counting of a larger success. */
  predicate StoresEarly(s: State, l: Label, c: int) {
    && l.ByCleanup? && l.clean == Flush(true) && HasPipe(s, l.pipe) && s.pipes[l.pipe].camp == c
    && FlushesEarly(s, l.pipe)
  }

  lemma DeliveryCounted(cfg: Config, s: State, l: Label, c: int, x: nat)
    requires Inv(cfg, s) && Enabled(cfg, s, l) && c in s.books
    ensures var t := Apply(cfg, s, l);
      && c in t.books
      && Times(t.books[c].wins, x) == Times(s.books[c].wins, x) + (if Delivers(s, l, c, x) then 1 else 0)
      && (t.books[c].early ==> s.books[c].early || StoresEarly(s, l, c))
  {
    RowsKept(cfg, s, l);
    if l.ByWorker? && l.work == Push(true) {
      TimesAppended(s.books[c].wins, s.workers[l.worker].msg.id, x);
    }
  }

  lemma {:induction false} DeliveriesCounted(cfg: Config, s: State, ls: seq<Label>, c: int, x: nat)
    requires Inv(cfg, s) && IsRun(cfg, s, ls) && c in s.rows && c in s.books
    ensures var t := After(cfg, s, ls);
      && c in t.rows && c in t.books
      && Times(t.books[c].wins, x) == Times(s.books[c].wins, x) + Deliveries(cfg, s, ls, c, x)
      && (Along(cfg, s, ls, (s, l) => !StoresEarly(s, l, c)) && !s.books[c].early ==> !t.books[c].early)
    decreases |ls|
  {
    if ls != [] {
      InvStep(cfg, s, ls[0]);
      RowsKept(cfg, s, ls[0]);
      DeliveryCounted(cfg, s, ls[0], c, x);
      DeliveriesCounted(cfg, Apply(cfg, s, ls[0]), ls[1..], c, x);
    }
  }

  /** Over any number of pauses, resumptions, store failures and pipes, no subscriber gets a campaign
      twice, provided no flush of this campaign stores a checkpoint while a worker is between `Done` and the
      counters with a larger id. */
  lemma NobodyTwice(cfg: Config, s0: State, ls: seq<Label>, c: int, x: nat)
    requires ValidConfig(cfg) && Reachable(cfg, s0, ls) && c in s0.rows
    requires Along(cfg, s0, ls, (s, l) => !StoresEarly(s, l, c))
    ensures Deliveries(cfg, s0, ls, c, x) <= 1
  {
    ResumeReachable(cfg, s0, ls);
    InvInit(cfg, s0);
    DeliveriesCounted(cfg, s0, ls, c, x);
    assert NoRepeat(After(cfg, s0, ls), c);
  }

  // ---------------------------------------------------------------- atomic blocks

  lemma FlushOnTime(cfg: Config, s: State, l: Label, c: int)
    requires Inv(cfg, s) && Enabled(cfg, s, l) && CampaignCounts.Undisturbed(s, l)
    ensures !StoresEarly(s, l, c)
  {
    if l.ByCleanup? && l.clean == Flush(true) {
      assert WgOk(s, l.pipe);
      Quiet(s, l.pipe);
    }
  }

  lemma {:induction false} FlushesOnTime(cfg: Config, s: State, ls: seq<Label>, c: int)
    requires Inv(cfg, s) && IsRun(cfg, s, ls) && Along(cfg, s, ls, (s, l) => CampaignCounts.Undisturbed(s, l))
    ensures Along(cfg, s, ls, (s, l) => !StoresEarly(s, l, c))
    decreases |ls|
  {
    if ls != [] {
      FlushOnTime(cfg, s, ls[0], c);
      InvStep(cfg, s, ls[0]);
      FlushesOnTime(cfg, Apply(cfg, s, ls[0]), ls[1..], c);
    }
  }

  /** With the worker's completion block and the cleanup atomic, nobody gets a campaign twice. */
  lemma AtomicBlocksRepeatNothing(cfg: Config, s0: State, ls: seq<Label>, c: int, x: nat)
    requires ValidConfig(cfg) && Reachable(cfg, s0, ls) && c in s0.rows
    requires Along(cfg, s0, ls, (s, l) => CampaignCounts.Undisturbed(s, l))
    ensures Deliveries(cfg, s0, ls, c, x) <= 1
  {
    InvInit(cfg, s0);
    FlushesOnTime(cfg, s0, ls, c);
    NobodyTwice(cfg, s0, ls, c, x);
  }
}
