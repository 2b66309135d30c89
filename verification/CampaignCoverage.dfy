/**
  Nobody is skipped.  Over any pauses, resumptions and pipes, the checkpoint of a campaign never passes a
  subscriber who matched at every fetch and whom no pipe attempted, unless a flush leaves dropped messages
  behind it.
*/
module CampaignCoverage {
  import opened Counting
  import opened CampaignModel
  import opened CampaignWaitGroup
  import opened CampaignDelivery
  import opened CampaignResume
  import opened CampaignOrder

  predicate Settled(log: Log, a: nat) { Attempted(log, a) || a in log.unrendered }

  /** The pipe has fetched past `a` without fetching it. */
  predicate PassedOver(log: Log, a: nat) { log.start < a <= Last(log.fetched, log.start) && a !in log.fetched }

  /** A pipe passes over only those who did not match at one of its fetches. */
  lemma PassedOverUnmatched(log: Log, a: nat)
    requires LogOrdered(log) && PassedOver(log, a)
    ensures !InAll(log.audiences, a)
  {}

  predicate CoveredBy(log: Log, a: nat) { Settled(log, a) || PassedOver(log, a) }

  /** Some pipe of the campaign attempted `a` or failed to render its message, or passed over it. */
  predicate Covered(s: State, c: int, a: nat) {
    exists p :: 0 <= p < |s.pipes| && s.pipes[p].camp == c && CoveredBy(s.pipes[p].log, a)
  }

  ghost predicate NoneWaits(s: State, c: int) { forall p: nat :: !WaitsFor(s, p, c) }

  /** Ids above `base` are covered up to the start of every pipe, and between pipes up to the checkpoint. */
  ghost predicate CoverInv(s: State, c: int, a: nat, base: nat)
    requires c in s.rows
  {
    && (forall p | 0 <= p < |s.pipes| && s.pipes[p].camp == c && base < a <= s.pipes[p].log.start :: Covered(s, c, a))
    && (NoneWaits(s, c) && base < a <= s.rows[c].checkpoint ==> Covered(s, c, a))
  }

  // ---------------------------------------------------------------- logs only grow

  predicate LogGrown(a: Log, b: Log) {
    && b.start == a.start && a.fetched <= b.fetched
    && a.unrendered <= b.unrendered && a.succeeded <= b.succeeded && a.failed <= b.failed
  }

  predicate Grown(s: State, t: State) {
    && |s.pipes| <= |t.pipes|
    && (forall p | 0 <= p < |s.pipes| :: t.pipes[p].camp == s.pipes[p].camp && LogGrown(s.pipes[p].log, t.pipes[p].log))
  }

  lemma GrownByScanner(cfg: Config, s: State, a: ScanAct)
    requires ScanEnabled(cfg, s, a)
    ensures Grown(s, ScanApply(cfg, s, a))
  {}

  lemma GrownByRunner(cfg: Config, s: State, a: RunAct)
    requires RunEnabled(cfg, s, a)
    ensures Grown(s, RunApply(cfg, s, a))
  {}

  lemma GrownByWorker(cfg: Config, s: State, w: nat, a: WorkAct)
    requires WorkEnabled(cfg, s, w, a)
    ensures Grown(s, WorkApply(cfg, s, w, a))
  {}

  lemma GrownByCleanup(cfg: Config, s: State, p: nat, a: CleanAct)
    requires CleanEnabled(cfg, s, p, a)
    ensures Grown(s, CleanApply(cfg, s, p, a))
  {}

  lemma GrownByApi(cfg: Config, s: State, a: ApiAct)
    requires ApiEnabled(cfg, s, a)
    ensures Grown(s, ApiApply(cfg, s, a))
  {}

  predicate Sorted(s: State) { forall p | 0 <= p < |s.pipes| :: Ascending(s.pipes[p].log.fetched) }

  lemma StaysPassed(log: Log, now: Log, a: nat)
    requires LogGrown(log, now) && Ascending(now.fetched) && PassedOver(log, a)
    ensures PassedOver(now, a)
  {
    var n := |log.fetched|;
    assert now.fetched[n - 1] == log.fetched[n - 1] >= a;
    forall i | 0 <= i < |now.fetched| ensures now.fetched[i] != a {
      if i < n {
        assert now.fetched[i] == log.fetched[i];
      }
    }
  }

  lemma CoveredStays(s: State, t: State, c: int, a: nat)
    requires Grown(s, t) && Sorted(t) && Covered(s, c, a)
    ensures Covered(t, c, a)
  {
    var p :| 0 <= p < |s.pipes| && s.pipes[p].camp == c && CoveredBy(s.pipes[p].log, a);
    var log, now := s.pipes[p].log, t.pipes[p].log;
    if PassedOver(log, a) {
      StaysPassed(log, now, a);
    }
    assert CoveredBy(now, a);
  }

  // ---------------------------------------------------------------- steps

  /** The steps that leave the checkpoint and the waiting pipes of `c` alone, or start a pipe at the checkpoint. */
  lemma CoverKept(s: State, t: State, c: int, a: nat, base: nat)
    requires c in s.rows && c in t.rows && CoverInv(s, c, a, base) && Grown(s, t) && Sorted(t)
    requires forall p | |s.pipes| <= p < |t.pipes| && t.pipes[p].camp == c ::
      NoneWaits(s, c) && t.pipes[p].log.start == s.rows[c].checkpoint
    requires NoneWaits(t, c) ==> NoneWaits(s, c) && t.rows[c].checkpoint == s.rows[c].checkpoint
    ensures CoverInv(t, c, a, base)
  {
    if Covered(s, c, a) {
      CoveredStays(s, t, c, a);
    }
  }

  lemma CoverByScanner(cfg: Config, s: State, act: ScanAct, c: int, a: nat, base: nat)
    requires Shape(cfg, s) && Registry(s) && ScanEnabled(cfg, s, act) && c in s.rows && CoverInv(s, c, a, base)
    requires Sorted(ScanApply(cfg, s, act))
    ensures c in ScanApply(cfg, s, act).rows && CoverInv(ScanApply(cfg, s, act), c, a, base)
  {
    var t := ScanApply(cfg, s, act);
    GrownByScanner(cfg, s, act);
    ScannerFrame(cfg, s, act);
    if act.CreatePipe? && s.scanner.todo[0] == c {
      forall p: nat ensures !WaitsFor(s, p, c) {
        if WaitsFor(s, p, c) { assert Live(s, p); }
      }
      assert WaitsFor(t, |s.pipes|, c);
    } else {
      forall p: nat ensures WaitsFor(t, p, c) <==> WaitsFor(s, p, c) {}
    }
    CoverKept(s, t, c, a, base);
  }

  lemma CoverByRunner(cfg: Config, s: State, act: RunAct, c: int, a: nat, base: nat)
    requires Shape(cfg, s) && RunEnabled(cfg, s, act) && c in s.rows && CoverInv(s, c, a, base)
    requires Sorted(RunApply(cfg, s, act))
    requires !s.runner.Ready? ==> WgOk(s, s.runner.pipe)
    ensures c in RunApply(cfg, s, act).rows && CoverInv(RunApply(cfg, s, act), c, a, base)
  {
    var t := RunApply(cfg, s, act);
    GrownByRunner(cfg, s, act);
    forall p: nat ensures WaitsFor(t, p, c) <==> WaitsFor(s, p, c) {}
    if act.Fetch? && s.pipes[s.runner.pipe].camp == c {
      assert WaitsFor(t, s.runner.pipe, c);
    }
    CoverKept(s, t, c, a, base);
  }

  lemma CoverByWorker(cfg: Config, s: State, w: nat, act: WorkAct, c: int, a: nat, base: nat)
    requires Shape(cfg, s) && WorkEnabled(cfg, s, w, act) && c in s.rows && CoverInv(s, c, a, base)
    requires Sorted(WorkApply(cfg, s, w, act))
    ensures c in WorkApply(cfg, s, w, act).rows && CoverInv(WorkApply(cfg, s, w, act), c, a, base)
  {
    var t := WorkApply(cfg, s, w, act);
    GrownByWorker(cfg, s, w, act);
    forall p: nat ensures WaitsFor(t, p, c) <==> WaitsFor(s, p, c) {}
    CoverKept(s, t, c, a, base);
  }

  lemma CoverByApi(cfg: Config, s: State, act: ApiAct, c: int, a: nat, base: nat)
    requires ApiEnabled(cfg, s, act) && c in s.rows && CoverInv(s, c, a, base) && Sorted(ApiApply(cfg, s, act))
    ensures c in ApiApply(cfg, s, act).rows && CoverInv(ApiApply(cfg, s, act), c, a, base)
  {
    var t := ApiApply(cfg, s, act);
    GrownByApi(cfg, s, act);
    forall p: nat ensures WaitsFor(t, p, c) <==> WaitsFor(s, p, c) {}
    CoverKept(s, t, c, a, base);
  }

  /** The row's checkpoint after a flush of `p`. */
  function CheckpointAfter(s: State, p: nat, ok: bool): nat
    requires HasPipe(s, p) && s.pipes[p].camp in s.rows
  {
    if ok && s.pipes[p].lastID > 0 then s.pipes[p].lastID else s.rows[s.pipes[p].camp].checkpoint
  }

  /** A flush of campaign `c` that leaves a message dropped by its pipe at or below the checkpoint. */
  predicate LeavesBehind(s: State, l: Label, c: int) {
    && l.ByCleanup? && l.clean.Flush? && HasPipe(s, l.pipe) && s.pipes[l.pipe].camp == c && c in s.rows
    && var log := s.pipes[l.pipe].log;
       exists i | 0 <= i < |log.dropped| :: log.dropped[i] <= CheckpointAfter(s, l.pipe, l.clean.ok)
  }

  /** A flush moves the checkpoint to an id that the pipe has fetched, or leaves it at the last one. */
  lemma CheckpointWithin(cfg: Config, s: State, p: nat, ok: bool)
    requires ResumeInv(cfg, s) && CleanEnabled(cfg, s, p, Flush(ok))
    ensures CheckpointAfter(s, p, ok) <= Last(s.pipes[p].log.fetched, s.pipes[p].log.start)
  {
    assert Tracked(s, p) && PipeOk(s, p);
    if s.pipes[p].lastID > 0 {
      BelowNextBatch(s, p, s.pipes[p].lastID);
    }
  }

  /** What a flush leaves at or below the checkpoint was settled by the pipe, passed over, or lies before its start. */
  lemma SettledByFlush(cfg: Config, s: State, p: nat, ok: bool, a: nat)
    requires ResumeInv(cfg, s) && CleanEnabled(cfg, s, p, Flush(ok))
    requires !LeavesBehind(s, ByCleanup(p, Flush(ok)), s.pipes[p].camp)
    requires s.pipes[p].log.start < a <= CheckpointAfter(s, p, ok)
    ensures CoveredBy(s.pipes[p].log, a)
  {
    CheckpointWithin(cfg, s, p, ok);
    if a in s.pipes[p].log.fetched {
      assert PipeOk(s, p) && WgOk(s, p);
      FateAt(s, p, a);
    }
  }

  lemma CoveredBeforeFlush(cfg: Config, s: State, p: nat, ok: bool, a: nat, base: nat)
    requires ResumeInv(cfg, s) && CleanEnabled(cfg, s, p, Flush(ok)) && CoverInv(s, s.pipes[p].camp, a, base)
    requires !LeavesBehind(s, ByCleanup(p, Flush(ok)), s.pipes[p].camp)
    requires base < a <= CheckpointAfter(s, p, ok)
    ensures Covered(s, s.pipes[p].camp, a)
  {
    if s.pipes[p].log.start < a {
      SettledByFlush(cfg, s, p, ok, a);
    }
  }

  lemma CoverByFlush(cfg: Config, s: State, p: nat, ok: bool, a: nat, base: nat)
    requires ResumeInv(cfg, s) && CleanEnabled(cfg, s, p, Flush(ok)) && CoverInv(s, s.pipes[p].camp, a, base)
    requires !LeavesBehind(s, ByCleanup(p, Flush(ok)), s.pipes[p].camp) && Sorted(CleanApply(cfg, s, p, Flush(ok)))
    ensures CoverInv(CleanApply(cfg, s, p, Flush(ok)), s.pipes[p].camp, a, base)
  {
    var c, t := s.pipes[p].camp, CleanApply(cfg, s, p, Flush(ok));
    GrownByCleanup(cfg, s, p, Flush(ok));
    if base < a <= t.rows[c].checkpoint {
      CoveredBeforeFlush(cfg, s, p, ok, a, base);
    }
    if Covered(s, c, a) {
      CoveredStays(s, t, c, a);
    }
  }

  lemma CoverByCleanup(cfg: Config, s: State, p: nat, act: CleanAct, c: int, a: nat, base: nat)
    requires ResumeInv(cfg, s) && CleanEnabled(cfg, s, p, act) && c in s.rows && CoverInv(s, c, a, base)
    requires !LeavesBehind(s, ByCleanup(p, act), c) && Sorted(CleanApply(cfg, s, p, act))
    ensures c in CleanApply(cfg, s, p, act).rows && CoverInv(CleanApply(cfg, s, p, act), c, a, base)
  {
    if act.Flush? && s.pipes[p].camp == c {
      CoverByFlush(cfg, s, p, act.ok, a, base);
    } else {
      var t := CleanApply(cfg, s, p, act);
      GrownByCleanup(cfg, s, p, act);
      forall q: nat ensures WaitsFor(t, q, c) <==> WaitsFor(s, q, c) {}
      CoverKept(s, t, c, a, base);
    }
  }

  lemma CoverStep(cfg: Config, s: State, l: Label, c: int, a: nat, base: nat)
    requires ResumeInv(cfg, s) && Enabled(cfg, s, l) && c in s.rows && CoverInv(s, c, a, base)
    requires !LeavesBehind(s, l, c) && Sorted(Apply(cfg, s, l))
    ensures c in Apply(cfg, s, l).rows && CoverInv(Apply(cfg, s, l), c, a, base)
  {
    match l
    case ByScanner(act) => CoverByScanner(cfg, s, act, c, a, base);
    case ByRunner(act) => CoverByRunner(cfg, s, act, c, a, base);
    case ByWorker(w, act) => CoverByWorker(cfg, s, w, act, c, a, base);
    case ByCleanup(p, act) => CoverByCleanup(cfg, s, p, act, c, a, base);
    case ByApi(act) => CoverByApi(cfg, s, act, c, a, base);
  }

  lemma FetchedSorted(cfg: Config, s: State)
    requires ResumeInv(cfg, s)
    ensures Sorted(s)
  {
    forall p | 0 <= p < |s.pipes| ensures Ascending(s.pipes[p].log.fetched) {
      assert PipeOk(s, p);
    }
  }

  lemma {:induction false} CoverRun(cfg: Config, s: State, ls: seq<Label>, c: int, a: nat, base: nat)
    requires ValidConfig(cfg) && ResumeInv(cfg, s) && IsRun(cfg, s, ls) && c in s.rows && CoverInv(s, c, a, base)
    requires Along(cfg, s, ls, (s, l) => !LeavesBehind(s, l, c))
    ensures var t := After(cfg, s, ls); ResumeInv(cfg, t) && c in t.rows && CoverInv(t, c, a, base)
    decreases |ls|
  {
    if ls != [] {
      ResumeStep(cfg, s, ls[0]);
      FetchedSorted(cfg, Apply(cfg, s, ls[0]));
      CoverStep(cfg, s, ls[0], c, a, base);
      CoverRun(cfg, Apply(cfg, s, ls[0]), ls[1..], c, a, base);
    }
  }

  // ---------------------------------------------------------------- main results

  /** `a` matched at every fetch that any pipe of the campaign made while it was running. */
  predicate MatchedThroughout(s: State, c: int, a: nat) {
    forall p | 0 <= p < |s.pipes| && s.pipes[p].camp == c :: InAll(s.pipes[p].log.audiences, a)
  }

  /** Some pipe of the campaign attempted `a` or failed to render its message. */
  predicate Reached(s: State, c: int, a: nat) {
    exists p :: 0 <= p < |s.pipes| && s.pipes[p].camp == c && Settled(s.pipes[p].log, a)
  }

  /** What becomes of `a`, above the first checkpoint `base`: once the checkpoint or the start of a pipe has passed
      it, it is covered; only who did not match at some fetch is passed over; so whoever matched throughout is
      reached. */
  ghost predicate NotSkipped(s: State, c: int, a: nat, base: nat)
    requires c in s.rows
  {
    && (NoneWaits(s, c) && base < a <= s.rows[c].checkpoint ==> Covered(s, c, a))
    && (forall p | 0 <= p < |s.pipes| && s.pipes[p].camp == c && base < a <= s.pipes[p].log.start :: Covered(s, c, a))
    && (forall p | 0 <= p < |s.pipes| && PassedOver(s.pipes[p].log, a) :: !InAll(s.pipes[p].log.audiences, a))
    && (Covered(s, c, a) && MatchedThroughout(s, c, a) ==> Reached(s, c, a))
  }

  /** Without a flush that leaves a dropped message behind, over any pauses, resumptions, pipes, workers and
      failures: whenever no pipe of the campaign is at work, every id from the first checkpoint of the run up
      to the present one was attempted by some pipe or failed to render, or some pipe fetched past it and did not
      get it, because it did not match.  The same holds at any time up to the start of every pipe.  Whoever matched
      throughout is therefore not skipped. */
  lemma NobodySkipped(cfg: Config, s0: State, ls: seq<Label>, c: int, a: nat)
    requires ValidConfig(cfg) && Reachable(cfg, s0, ls) && c in s0.rows
    requires Along(cfg, s0, ls, (s, l) => !LeavesBehind(s, l, c))
    ensures c in After(cfg, s0, ls).rows && NotSkipped(After(cfg, s0, ls), c, a, s0.rows[c].checkpoint)
  {
    InvInit(cfg, s0);
    ResumeReachable(cfg, s0, []);
    CoverRun(cfg, s0, ls, c, a, s0.rows[c].checkpoint);
    var s := After(cfg, s0, ls);
    forall p | 0 <= p < |s.pipes| && PassedOver(s.pipes[p].log, a) ensures !InAll(s.pipes[p].log.audiences, a) {
      assert PipeOk(s, p);
      PassedOverUnmatched(s.pipes[p].log, a);
    }
  }

  /** Pipe `p` has finished its campaign, and `a`, who matched throughout, lies between the first checkpoint of the
      run and the maximum id, or the last id fetched if the last fetch found the campaign not running. */
  predicate FinishedFor(s0: State, s: State, p: nat, a: nat) {
    && HasPipe(s, p)
    && var x := s.pipes[p];
       && (x.stage.Deleting? || x.stage.Gone?) && x.stage.outcome == MarkedFinished
       && MatchedThroughout(s, x.camp, a)
       && x.camp in s0.rows && s0.rows[x.camp].checkpoint < a <= x.log.cap
       && (x.log.release == Exhausted || a <= Last(x.log.fetched, x.log.start))
  }

  /** A finished campaign, over all its pauses and resumptions: whoever matched throughout, from the first
      checkpoint of the run up to the maximum id, was attempted by some pipe or failed to render; if the last fetch
      of the pipe that finished it found the campaign not running, that holds up to the last id fetched. */
  lemma FinishedReachesEverybody(cfg: Config, s0: State, ls: seq<Label>, p: nat, a: nat)
    requires ValidConfig(cfg) && Reachable(cfg, s0, ls) && FinishedFor(s0, After(cfg, s0, ls), p, a)
    requires Along(cfg, s0, ls, (s, l) => !LeavesBehind(s, l, After(cfg, s0, ls).pipes[p].camp))
    ensures Reached(After(cfg, s0, ls), After(cfg, s0, ls).pipes[p].camp, a)
  {
    var s := After(cfg, s0, ls);
    var x := s.pipes[p];
    if a <= x.log.start {
      NobodySkipped(cfg, s0, ls, x.camp, a);
    } else {
      FinishedMeansComplete(cfg, s0, ls, p, a);
      TimesPositive(x.log.succeeded, a);
      TimesPositive(x.log.failed, a);
      TimesPositive(x.log.unrendered, a);
      assert Settled(x.log, a);
    }
  }

  // ---------------------------------------------------------------- one worker

  lemma StrandsIsLeaves(cfg: Config, s: State, l: Label, c: int)
    requires OrderInv(cfg, s) && Enabled(cfg, s, l)
    ensures StrandsDropped(s, l, c) <==> LeavesBehind(s, l, c)
  {
    if l.ByCleanup? && l.clean.Flush? {
      FlushCutsAt(cfg, s, l.pipe, l.clean.ok);
      assert CheckpointAfter(s, l.pipe, l.clean.ok) == CleanRow(cfg, s, l.pipe, l.clean).checkpoint;
    }
  }

  /** With one worker the flushes that leave a dropped message behind are those with nothing counted and those
      whose store call fails. */
  lemma {:induction false} OneWorkerLeaves(cfg: Config, s: State, ls: seq<Label>, c: int)
    requires ValidConfig(cfg) && OrderInv(cfg, s) && IsRun(cfg, s, ls)
    ensures Along(cfg, s, ls, (s, l) => !LeavesBehind(s, l, c))
      <==> Along(cfg, s, ls, (s, l) => !StrandsDropped(s, l, c))
    decreases |ls|
  {
    if ls != [] {
      StrandsIsLeaves(cfg, s, ls[0], c);
      OrderStep(cfg, s, ls[0]);
      OneWorkerLeaves(cfg, Apply(cfg, s, ls[0]), ls[1..], c);
    }
  }

  /** With one worker it is enough that every flush of a pipe that dropped something counts something and reaches
      the store. */
  lemma OneWorkerSkipsNobody(cfg: Config, s0: State, ls: seq<Label>, c: int, a: nat)
    requires ValidConfig(cfg) && cfg.workers == 1 && Reachable(cfg, s0, ls) && c in s0.rows
    requires Along(cfg, s0, ls, (s, l) => !StrandsDropped(s, l, c))
    ensures c in After(cfg, s0, ls).rows && NotSkipped(After(cfg, s0, ls), c, a, s0.rows[c].checkpoint)
  {
    InvInit(cfg, s0);
    OrderRun(cfg, s0, []);
    OneWorkerLeaves(cfg, s0, ls, c);
    NobodySkipped(cfg, s0, ls, c, a);
  }
}
