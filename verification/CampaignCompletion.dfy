/**
  Nobody skipped and nobody twice, together: what a finished campaign has done for each subscriber.
*/
module CampaignCompletion {
  import opened Counting
  import opened CampaignModel
  import opened CampaignWaitGroup
  import opened CampaignResume
  import opened CampaignCoverage

  /** Every success of a pipe is in the history of its campaign. */
  predicate Booked(s: State) {
    forall p | 0 <= p < |s.pipes| ::
      s.pipes[p].camp in s.books && WonAll(s.pipes[p].log.succeeded, s.books[s.pipes[p].camp].wins)
  }

  predicate WonAll(succeeded: seq<nat>, wins: seq<nat>) { forall i | 0 <= i < |succeeded| :: succeeded[i] in wins }

  lemma BookedKept(s: State, t: State)
    requires Booked(s) && |s.pipes| <= |t.pipes| && t.books.Keys == s.books.Keys
    requires forall c | c in s.books :: t.books[c].wins == s.books[c].wins
    requires forall p | 0 <= p < |t.pipes| ::
      if p < |s.pipes| then t.pipes[p].camp == s.pipes[p].camp && t.pipes[p].log.succeeded == s.pipes[p].log.succeeded
      else t.pipes[p].camp in s.books && t.pipes[p].log.succeeded == []
    ensures Booked(t)
  {}

  lemma BookedByWorker(cfg: Config, s: State, w: nat, a: WorkAct)
    requires WorkEnabled(cfg, s, w, a) && Booked(s)
    ensures Booked(WorkApply(cfg, s, w, a))
  {
    var t := WorkApply(cfg, s, w, a);
    forall p | 0 <= p < |t.pipes|
      ensures t.pipes[p].camp in t.books && WonAll(t.pipes[p].log.succeeded, t.books[t.pipes[p].camp].wins)
    {
      assert WonAll(s.pipes[p].log.succeeded, s.books[s.pipes[p].camp].wins);
    }
  }

  lemma BookedByScanner(cfg: Config, s: State, a: ScanAct)
    requires Shape(cfg, s) && Registry(s) && ScanEnabled(cfg, s, a) && Booked(s)
    ensures Booked(ScanApply(cfg, s, a))
  {
    ScannerFrame(cfg, s, a);
    BookedKept(s, ScanApply(cfg, s, a));
  }

  lemma BookedByRunner(cfg: Config, s: State, a: RunAct)
    requires RunEnabled(cfg, s, a) && Booked(s)
    ensures Booked(RunApply(cfg, s, a))
  {
    BookedKept(s, RunApply(cfg, s, a));
  }

  lemma BookedByCleanup(cfg: Config, s: State, p: nat, a: CleanAct)
    requires CleanEnabled(cfg, s, p, a) && Booked(s)
    ensures Booked(CleanApply(cfg, s, p, a))
  {
    BookedKept(s, CleanApply(cfg, s, p, a));
  }

  lemma BookedByApi(cfg: Config, s: State, a: ApiAct)
    requires ApiEnabled(cfg, s, a) && Booked(s)
    ensures Booked(ApiApply(cfg, s, a))
  {
    BookedKept(s, ApiApply(cfg, s, a));
  }

  lemma BookedStep(cfg: Config, s: State, l: Label)
    requires Shape(cfg, s) && Registry(s) && Enabled(cfg, s, l) && Booked(s)
    ensures Booked(Apply(cfg, s, l))
  {
    match l
    case ByScanner(a) => BookedByScanner(cfg, s, a);
    case ByRunner(a) => BookedByRunner(cfg, s, a);
    case ByWorker(w, a) => BookedByWorker(cfg, s, w, a);
    case ByCleanup(p, a) => BookedByCleanup(cfg, s, p, a);
    case ByApi(a) => BookedByApi(cfg, s, a);
  }

  lemma {:induction false} BookedRun(cfg: Config, s: State, ls: seq<Label>)
    requires Inv(cfg, s) && IsRun(cfg, s, ls) && Booked(s)
    ensures Booked(After(cfg, s, ls))
    decreases |ls|
  {
    if ls != [] {
      InvStep(cfg, s, ls[0]);
      BookedStep(cfg, s, ls[0]);
      BookedRun(cfg, Apply(cfg, s, ls[0]), ls[1..]);
    }
  }

  /** Whoever a pipe of the campaign delivered to was delivered to in the run. */
  lemma SucceededIsDelivered(cfg: Config, s0: State, ls: seq<Label>, p: nat, a: nat)
    requires Reachable(cfg, s0, ls) && HasPipe(After(cfg, s0, ls), p) && After(cfg, s0, ls).pipes[p].camp in s0.rows
    requires a in After(cfg, s0, ls).pipes[p].log.succeeded
    ensures Deliveries(cfg, s0, ls, After(cfg, s0, ls).pipes[p].camp, a) > 0
  {
    var s, c := After(cfg, s0, ls), After(cfg, s0, ls).pipes[p].camp;
    InvInit(cfg, s0);
    BookedRun(cfg, s0, ls);
    DeliveriesCounted(cfg, s0, ls, c, a);
    assert WonAll(s.pipes[p].log.succeeded, s.books[c].wins);
    TimesPositive(s.books[c].wins, a);
  }

  /** A push of `a` by some pipe of the campaign failed, or its message did not render. */
  predicate Failed(s: State, c: int, a: nat) {
    exists p :: 0 <= p < |s.pipes| && s.pipes[p].camp == c
      && (a in s.pipes[p].log.failed || a in s.pipes[p].log.unrendered)
  }

  /** What "finished" is for, over all pauses and resumptions: without a flush that leaves a dropped message behind
      or stores a checkpoint below an uncounted success, everybody who matched throughout got the campaign exactly
      once, unless a push to them or the rendering of their message failed; then at most once. */
  lemma FinishedReachesOnce(cfg: Config, s0: State, ls: seq<Label>, p: nat, a: nat)
    requires ValidConfig(cfg) && Reachable(cfg, s0, ls) && FinishedFor(s0, After(cfg, s0, ls), p, a)
    requires var c := After(cfg, s0, ls).pipes[p].camp;
      Along(cfg, s0, ls, (s, l) => !LeavesBehind(s, l, c)) && Along(cfg, s0, ls, (s, l) => !StoresEarly(s, l, c))
    ensures var s := After(cfg, s0, ls); var c := s.pipes[p].camp;
      && Deliveries(cfg, s0, ls, c, a) <= 1
      && (Deliveries(cfg, s0, ls, c, a) == 1 || Failed(s, c, a))
  {
    var s, c := After(cfg, s0, ls), After(cfg, s0, ls).pipes[p].camp;
    FinishedReachesEverybody(cfg, s0, ls, p, a);
    NobodyTwice(cfg, s0, ls, c, a);
    var q :| 0 <= q < |s.pipes| && s.pipes[q].camp == c && Settled(s.pipes[q].log, a);
    if a in s.pipes[q].log.succeeded {
      SucceededIsDelivered(cfg, s0, ls, q, a);
    }
  }

  /** In particular with the worker's completion block and the cleanup uninterrupted. */
  lemma AtomicBlocksReachOnce(cfg: Config, s0: State, ls: seq<Label>, p: nat, a: nat)
    requires ValidConfig(cfg) && Reachable(cfg, s0, ls) && FinishedFor(s0, After(cfg, s0, ls), p, a)
    requires var c := After(cfg, s0, ls).pipes[p].camp; Along(cfg, s0, ls, (s, l) => !LeavesBehind(s, l, c))
    requires Along(cfg, s0, ls, (s, l) => CampaignCounts.Undisturbed(s, l))
    ensures var s := After(cfg, s0, ls); var c := s.pipes[p].camp;
      && Deliveries(cfg, s0, ls, c, a) <= 1
      && (Deliveries(cfg, s0, ls, c, a) == 1 || Failed(s, c, a))
  {
    InvInit(cfg, s0);
    FlushesOnTime(cfg, s0, ls, After(cfg, s0, ls).pipes[p].camp);
    FinishedReachesOnce(cfg, s0, ls, p, a);
  }
}
