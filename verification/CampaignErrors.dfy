/**
  The limit on errors: what the error counter of a pipe counts, and when it stops the pipe.
*/
module CampaignErrors {
  import opened Counting
  import opened CampaignModel
  import opened CampaignWaitGroup

  /** The worker has failed to push a message of `p` and has not counted the failure. */
  predicate HoldsFailed(w: Worker, p: nat) { (w.Pushed? || w.Tallying?) && !w.ok && Of(w.msg, p) }

  function FailuresHeld(s: State, p: nat): nat { Count(s.workers, w => HoldsFailed(w, p)) }

  /** The worker is about to stop `p` because of its errors. */
  predicate StopsFor(w: Worker, p: nat) { w.Raising? && w.pipe == p }

  /** The counter counts the failed pushes; from the limit on the pipe is stopped or about to be; only a pipe that
      has met the limit counts as stopped by errors; without a limit nothing of this happens. */
  predicate ErrorsOk(cfg: Config, s: State, p: nat)
    requires HasPipe(s, p)
  {
    var x := s.pipes[p];
    && (cfg.maxErrors >= 1 ==> x.errors + FailuresHeld(s, p) == |x.log.failed|)
    && (cfg.maxErrors >= 1 && x.errors >= cfg.maxErrors ==>
          x.stopped || exists w :: 0 <= w < |s.workers| && StopsFor(s.workers[w], p))
    && (x.withErrors ==> cfg.maxErrors >= 1 && x.errors >= cfg.maxErrors)
    && (forall w | 0 <= w < |s.workers| && StopsFor(s.workers[w], p) :: x.withErrors)
  }

  lemma ErrorsKept(cfg: Config, s: State, t: State, p: nat)
    requires HasPipe(s, p) && HasPipe(t, p) && ErrorsOk(cfg, s, p) && t.workers == s.workers
    requires t.pipes[p].errors == s.pipes[p].errors && t.pipes[p].withErrors == s.pipes[p].withErrors
    requires t.pipes[p].log.failed == s.pipes[p].log.failed && (s.pipes[p].stopped ==> t.pipes[p].stopped)
    ensures ErrorsOk(cfg, t, p)
  {}

  lemma ErrorsOfNewPipe(cfg: Config, s: State)
    requires Shape(cfg, s) && ScanEnabled(cfg, s, CreatePipe)
    ensures ErrorsOk(cfg, ScanApply(cfg, s, CreatePipe), |s.pipes|)
  {
    var t, p := ScanApply(cfg, s, CreatePipe), |s.pipes|;
    forall w | 0 <= w < |t.workers| ensures !HoldsFailed(t.workers[w], p) && !StopsFor(t.workers[w], p) {}
    CountPositive(t.workers, w => HoldsFailed(w, p));
  }

  lemma ErrorsByScanner(cfg: Config, s: State, a: ScanAct, p: nat)
    requires Shape(cfg, s) && Registry(s) && ScanEnabled(cfg, s, a) && HasPipe(ScanApply(cfg, s, a), p)
    requires HasPipe(s, p) ==> ErrorsOk(cfg, s, p)
    ensures ErrorsOk(cfg, ScanApply(cfg, s, a), p)
  {
    if HasPipe(s, p) {
      ScannerFrame(cfg, s, a);
      ErrorsKept(cfg, s, ScanApply(cfg, s, a), p);
    } else {
      ErrorsOfNewPipe(cfg, s);
    }
  }

  lemma ErrorsByRunner(cfg: Config, s: State, a: RunAct, p: nat)
    requires RunEnabled(cfg, s, a) && HasPipe(s, p) && ErrorsOk(cfg, s, p)
    ensures ErrorsOk(cfg, RunApply(cfg, s, a), p)
  {
    ErrorsKept(cfg, s, RunApply(cfg, s, a), p);
  }

  lemma ErrorsByCleanup(cfg: Config, s: State, q: nat, a: CleanAct, p: nat)
    requires CleanEnabled(cfg, s, q, a) && HasPipe(s, p) && ErrorsOk(cfg, s, p)
    ensures ErrorsOk(cfg, CleanApply(cfg, s, q, a), p)
  {
    ErrorsKept(cfg, s, CleanApply(cfg, s, q, a), p);
  }

  lemma ErrorsByApi(cfg: Config, s: State, a: ApiAct, p: nat)
    requires ApiEnabled(cfg, s, a) && HasPipe(s, p) && ErrorsOk(cfg, s, p)
    ensures ErrorsOk(cfg, ApiApply(cfg, s, a), p)
  {
    ErrorsKept(cfg, s, ApiApply(cfg, s, a), p);
  }

  /** A worker's step moves failures from its hand to the counter. */
  lemma FailuresMove(cfg: Config, s: State, w: nat, a: WorkAct, p: nat)
    requires WorkEnabled(cfg, s, w, a) && HasPipe(s, p)
    ensures var t := WorkApply(cfg, s, w, a);
      FailuresHeld(t, p) + (if HoldsFailed(s.workers[w], p) then 1 else 0)
      == FailuresHeld(s, p) + if HoldsFailed(t.workers[w], p) then 1 else 0
  {
    CountReplaced(s.workers, w, WorkApply(cfg, s, w, a).workers[w], w => HoldsFailed(w, p));
  }

  /** Whoever else was about to stop the pipe still is, or has. */
  lemma StopsKept(cfg: Config, s: State, w: nat, a: WorkAct, p: nat, v: nat)
    requires WorkEnabled(cfg, s, w, a) && HasPipe(s, p) && v < |s.workers| && StopsFor(s.workers[v], p)
    ensures var t := WorkApply(cfg, s, w, a); t.pipes[p].stopped || StopsFor(t.workers[v], p)
  {}

  lemma ErrorsByTally(cfg: Config, s: State, w: nat, p: nat)
    requires WorkEnabled(cfg, s, w, Tally) && HasPipe(s, p) && ErrorsOk(cfg, s, p)
    ensures ErrorsOk(cfg, WorkApply(cfg, s, w, Tally), p)
  {
    var t := WorkApply(cfg, s, w, Tally);
    FailuresMove(cfg, s, w, Tally, p);
    CountPositive(s.workers, w => HoldsFailed(w, p));
    if cfg.maxErrors >= 1 && s.pipes[p].errors >= cfg.maxErrors && !s.pipes[p].stopped {
      var v :| 0 <= v < |s.workers| && StopsFor(s.workers[v], p);
      StopsKept(cfg, s, w, Tally, p, v);
    }
    if t.workers[w].Raising? {
      assert t.workers[w].pipe == p ==> StopsFor(t.workers[w], p);
    }
  }

  lemma ErrorsByWorker(cfg: Config, s: State, w: nat, a: WorkAct, p: nat)
    requires WorkEnabled(cfg, s, w, a) && HasPipe(s, p) && ErrorsOk(cfg, s, p)
    ensures ErrorsOk(cfg, WorkApply(cfg, s, w, a), p)
  {
    if a.Tally? {
      ErrorsByTally(cfg, s, w, p);
    } else {
      FailuresMove(cfg, s, w, a, p);
      if cfg.maxErrors >= 1 && s.pipes[p].errors >= cfg.maxErrors && !s.pipes[p].stopped {
        var v :| 0 <= v < |s.workers| && StopsFor(s.workers[v], p);
        StopsKept(cfg, s, w, a, p, v);
      }
    }
  }

  lemma ErrorsStep(cfg: Config, s: State, l: Label, p: nat)
    requires Shape(cfg, s) && Registry(s) && Enabled(cfg, s, l) && HasPipe(Apply(cfg, s, l), p)
    requires HasPipe(s, p) ==> ErrorsOk(cfg, s, p)
    ensures ErrorsOk(cfg, Apply(cfg, s, l), p)
  {
    match l
    case ByScanner(a) => ErrorsByScanner(cfg, s, a, p);
    case ByRunner(a) => ErrorsByRunner(cfg, s, a, p);
    case ByWorker(w, a) => ErrorsByWorker(cfg, s, w, a, p);
    case ByCleanup(q, a) => ErrorsByCleanup(cfg, s, q, a, p);
    case ByApi(a) => ErrorsByApi(cfg, s, a, p);
  }

  predicate ErrorsInv(cfg: Config, s: State) {
    Inv(cfg, s) && forall p | 0 <= p < |s.pipes| :: ErrorsOk(cfg, s, p)
  }

  lemma {:induction false} ErrorsRun(cfg: Config, s: State, ls: seq<Label>)
    requires ErrorsInv(cfg, s) && IsRun(cfg, s, ls)
    ensures ErrorsInv(cfg, After(cfg, s, ls))
    decreases |ls|
  {
    if ls != [] {
      var t := Apply(cfg, s, ls[0]);
      InvStep(cfg, s, ls[0]);
      forall p | 0 <= p < |t.pipes| ensures ErrorsOk(cfg, t, p) { ErrorsStep(cfg, s, ls[0], p); }
      ErrorsRun(cfg, t, ls[1..]);
    }
  }

  // ---------------------------------------------------------------- main results

  /** At every moment of every run: with a limit, the counter is the number of failed pushes less those not counted
      yet; from the limit on the pipe is stopped, or a worker is about to stop it; and a pipe is stopped by errors only
      from the limit on.  Without a limit no pipe is ever stopped by errors. */
  lemma LimitIsKept(cfg: Config, s0: State, ls: seq<Label>, p: nat)
    requires Reachable(cfg, s0, ls) && HasPipe(After(cfg, s0, ls), p)
    ensures var s := After(cfg, s0, ls); var x := s.pipes[p];
      if cfg.maxErrors >= 1 then
        && x.errors == |x.log.failed| - FailuresHeld(s, p)
        && (x.errors >= cfg.maxErrors ==>
              x.stopped || exists w :: 0 <= w < |s.workers| && s.workers[w] == Raising(p))
        && (x.withErrors ==> x.errors >= cfg.maxErrors)
      else
        !x.withErrors && forall w | 0 <= w < |s.workers| :: s.workers[w] != Raising(p)
  {
    InvInit(cfg, s0);
    ErrorsRun(cfg, s0, ls);
    var s := After(cfg, s0, ls);
    assert ErrorsOk(cfg, s, p);
    if w :| 0 <= w < |s.workers| && StopsFor(s.workers[w], p) {
      assert s.workers[w] == Raising(p);
    }
    forall w | 0 <= w < |s.workers| && s.workers[w] == Raising(p) ensures s.pipes[p].withErrors {
      assert StopsFor(s.workers[w], p);
    }
  }

  /** The failure that meets the limit, of a pipe not stopped yet, marks the pipe as stopped by errors and makes its
      worker stop it next; no earlier failure does. */
  lemma FailureAtLimit(cfg: Config, s0: State, ls: seq<Label>, w: nat)
    requires Reachable(cfg, s0, ls) && Enabled(cfg, After(cfg, s0, ls), ByWorker(w, Tally))
    requires var s := After(cfg, s0, ls); !s.workers[w].ok && !s.pipes[s.workers[w].msg.pipe.value].stopped
    requires !After(cfg, s0, ls).pipes[After(cfg, s0, ls).workers[w].msg.pipe.value].withErrors
    ensures var s := After(cfg, s0, ls); var p := s.workers[w].msg.pipe.value;
      var t := Apply(cfg, s, ByWorker(w, Tally));
      var counted := |s.pipes[p].log.failed| - FailuresHeld(s, p) + 1;
      && (t.pipes[p].withErrors <==> 1 <= cfg.maxErrors <= counted)
      && (t.workers[w] == Raising(p) <==> 1 <= cfg.maxErrors <= counted)
  {
    LimitIsKept(cfg, s0, ls, After(cfg, s0, ls).workers[w].msg.pipe.value);
  }

  /** The worker that is about to stop a pipe does so in its next step. */
  lemma RaiseStops(cfg: Config, s: State, w: nat, p: nat)
    requires w < |s.workers| && s.workers[w] == Raising(p) && HasPipe(s, p)
    ensures Enabled(cfg, s, ByWorker(w, RaiseStop))
    ensures var t := Apply(cfg, s, ByWorker(w, RaiseStop)); t.pipes[p].stopped && t.workers[w] == Free
  {}
}
