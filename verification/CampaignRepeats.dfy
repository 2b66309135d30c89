/**
  Exactly which flushes repeat somebody.  After a flush that sets the checkpoint below an uncounted success, some
  continuation of the run delivers that success a second time; after any other flush none does, whatever happens.
*/
module CampaignRepeats {
  import opened Counting
  import opened CampaignModel
  import opened CampaignWaitGroup
  import opened CampaignDelivery
  import opened CampaignResume
  import opened CampaignProgress
  import opened CampaignCoverage
  import opened CampaignPhases

  // ---------------------------------------------------------------- what the checkpoint has passed

  /** The pipes of the campaign at work started at or above `x`; when there is none, the checkpoint is there. */
  ghost predicate Past(s: State, c: int, x: nat)
    requires c in s.rows
  {
    && (forall p: nat | WaitsFor(s, p, c) :: x <= s.pipes[p].log.start)
    && (NoneWaits(s, c) ==> x <= s.rows[c].checkpoint)
  }

  /** The steps that leave the checkpoint and the waiting pipes of `c` alone, or start a pipe at the checkpoint. */
  lemma PastKept(s: State, t: State, c: int, x: nat)
    requires c in s.rows && c in t.rows && Past(s, c, x)
    requires forall p: nat | WaitsFor(t, p, c) ::
      if p < |s.pipes| then WaitsFor(s, p, c) && t.pipes[p].log.start == s.pipes[p].log.start
      else NoneWaits(s, c) && t.pipes[p].log.start == s.rows[c].checkpoint
    requires NoneWaits(t, c) ==> NoneWaits(s, c) && t.rows[c].checkpoint == s.rows[c].checkpoint
    ensures Past(t, c, x)
  {}

  lemma PastByCreation(cfg: Config, s: State, c: int, x: nat)
    requires Shape(cfg, s) && Registry(s) && ScanEnabled(cfg, s, CreatePipe) && s.scanner.todo[0] == c
    requires c in s.rows && Past(s, c, x)
    ensures c in ScanApply(cfg, s, CreatePipe).rows && Past(ScanApply(cfg, s, CreatePipe), c, x)
  {
    var t := ScanApply(cfg, s, CreatePipe);
    forall p: nat ensures !WaitsFor(s, p, c) {
      if WaitsFor(s, p, c) { assert Live(s, p); }
    }
    assert WaitsFor(t, |s.pipes|, c);
    PastKept(s, t, c, x);
  }

  lemma WaitersByScanner(cfg: Config, s: State, a: ScanAct, c: int, p: nat)
    requires Shape(cfg, s) && Registry(s) && ScanEnabled(cfg, s, a) && (a.CreatePipe? ==> s.scanner.todo[0] != c)
    ensures var t := ScanApply(cfg, s, a);
      && (WaitsFor(t, p, c) <==> WaitsFor(s, p, c))
      && (WaitsFor(s, p, c) ==> t.pipes[p].log.start == s.pipes[p].log.start)
  {}

  lemma PastByScanner(cfg: Config, s: State, a: ScanAct, c: int, x: nat)
    requires Shape(cfg, s) && Registry(s) && ScanEnabled(cfg, s, a) && c in s.rows && Past(s, c, x)
    ensures c in ScanApply(cfg, s, a).rows && Past(ScanApply(cfg, s, a), c, x)
  {
    if a.CreatePipe? && s.scanner.todo[0] == c {
      PastByCreation(cfg, s, c, x);
    } else {
      var t := ScanApply(cfg, s, a);
      ScannerFrame(cfg, s, a);
      forall p: nat ensures WaitsFor(t, p, c) <==> WaitsFor(s, p, c) { WaitersByScanner(cfg, s, a, c, p); }
      forall p: nat | WaitsFor(t, p, c) ensures t.pipes[p].log.start == s.pipes[p].log.start {
        WaitersByScanner(cfg, s, a, c, p);
      }
      PastKept(s, t, c, x);
    }
  }

  lemma PastByRunner(cfg: Config, s: State, a: RunAct, c: int, x: nat)
    requires Shape(cfg, s) && RunEnabled(cfg, s, a) && c in s.rows && Past(s, c, x)
    requires !s.runner.Ready? ==> WgOk(s, s.runner.pipe)
    ensures c in RunApply(cfg, s, a).rows && Past(RunApply(cfg, s, a), c, x)
  {
    var t := RunApply(cfg, s, a);
    forall p: nat ensures WaitsFor(t, p, c) <==> WaitsFor(s, p, c) {}
    if a.Fetch? && s.pipes[s.runner.pipe].camp == c {
      assert WaitsFor(t, s.runner.pipe, c);
    }
    PastKept(s, t, c, x);
  }

  lemma PastByWorker(cfg: Config, s: State, w: nat, a: WorkAct, c: int, x: nat)
    requires Shape(cfg, s) && WorkEnabled(cfg, s, w, a) && c in s.rows && Past(s, c, x)
    ensures c in WorkApply(cfg, s, w, a).rows && Past(WorkApply(cfg, s, w, a), c, x)
  {
    var t := WorkApply(cfg, s, w, a);
    forall p: nat ensures WaitsFor(t, p, c) <==> WaitsFor(s, p, c) {}
    PastKept(s, t, c, x);
  }

  lemma PastByApi(cfg: Config, s: State, a: ApiAct, c: int, x: nat)
    requires ApiEnabled(cfg, s, a) && c in s.rows && Past(s, c, x)
    ensures c in ApiApply(cfg, s, a).rows && Past(ApiApply(cfg, s, a), c, x)
  {
    var t := ApiApply(cfg, s, a);
    forall p: nat ensures WaitsFor(t, p, c) <==> WaitsFor(s, p, c) {}
    PastKept(s, t, c, x);
  }

  /** A pipe never moves the checkpoint below its start. */
  lemma FlushAboveStart(cfg: Config, s: State, p: nat, ok: bool)
    requires ResumeInv(cfg, s) && CleanEnabled(cfg, s, p, Flush(ok))
    ensures s.pipes[p].log.start <= CheckpointAfter(s, p, ok)
  {
    assert Tracked(s, p) && PipeOk(s, p);
    if s.pipes[p].lastID > 0 {
      SucceededWasFetched(s, p, s.pipes[p].lastID);
    }
  }

  /** No other pipe of its campaign is at work beside the one that is flushed. */
  lemma NoneWaitsAfterFlush(cfg: Config, s: State, p: nat, ok: bool)
    requires Registry(s) && CleanEnabled(cfg, s, p, Flush(ok))
    ensures NoneWaits(CleanApply(cfg, s, p, Flush(ok)), s.pipes[p].camp)
  {
    var c, t := s.pipes[p].camp, CleanApply(cfg, s, p, Flush(ok));
    forall q: nat ensures !WaitsFor(t, q, c) {
      if WaitsFor(t, q, c) { SameCampaignSamePipe(s, p, q); }
    }
  }

  lemma PastByCleanup(cfg: Config, s: State, p: nat, a: CleanAct, c: int, x: nat)
    requires ResumeInv(cfg, s) && CleanEnabled(cfg, s, p, a) && c in s.rows && Past(s, c, x)
    ensures c in CleanApply(cfg, s, p, a).rows && Past(CleanApply(cfg, s, p, a), c, x)
  {
    var t := CleanApply(cfg, s, p, a);
    if a.Flush? && s.pipes[p].camp == c {
      assert WaitsFor(s, p, c);
      FlushAboveStart(cfg, s, p, a.ok);
      NoneWaitsAfterFlush(cfg, s, p, a.ok);
    } else {
      forall q: nat ensures WaitsFor(t, q, c) <==> WaitsFor(s, q, c) {}
      PastKept(s, t, c, x);
    }
  }

  lemma PastStep(cfg: Config, s: State, l: Label, c: int, x: nat)
    requires ResumeInv(cfg, s) && Enabled(cfg, s, l) && c in s.rows && Past(s, c, x)
    ensures c in Apply(cfg, s, l).rows && Past(Apply(cfg, s, l), c, x)
  {
    match l
    case ByScanner(a) => PastByScanner(cfg, s, a, c, x);
    case ByRunner(a) => PastByRunner(cfg, s, a, c, x);
    case ByWorker(w, a) => PastByWorker(cfg, s, w, a, c, x);
    case ByCleanup(p, a) => PastByCleanup(cfg, s, p, a, c, x);
    case ByApi(a) => PastByApi(cfg, s, a, c, x);
  }

  /** Whoever has been passed is not delivered to. */
  lemma PastIsNotDelivered(cfg: Config, s: State, l: Label, c: int, x: nat)
    requires ResumeInv(cfg, s) && Enabled(cfg, s, l) && c in s.rows && Past(s, c, x)
    ensures !Delivers(s, l, c, x)
  {
    if Delivers(s, l, c, x) {
      var p := s.workers[l.worker].msg.pipe.value;
      assert PipeOk(s, p) && WgOk(s, p);
      PushIsNew(s, l.worker, p);
      assert WaitsFor(s, p, c);
    }
  }

  lemma {:induction false} PastForever(cfg: Config, s: State, ls: seq<Label>, c: int, x: nat)
    requires ValidConfig(cfg) && ResumeInv(cfg, s) && IsRun(cfg, s, ls) && c in s.rows && Past(s, c, x)
    ensures Deliveries(cfg, s, ls, c, x) == 0
    decreases |ls|
  {
    if ls != [] {
      PastIsNotDelivered(cfg, s, ls[0], c, x);
      PastStep(cfg, s, ls[0], c, x);
      ResumeStep(cfg, s, ls[0]);
      PastForever(cfg, Apply(cfg, s, ls[0]), ls[1..], c, x);
    }
  }

  // ---------------------------------------------------------------- draining the manager

  /** Every pipe has been cleaned up, and the workers have nothing to do. */
  predicate AtRest(s: State) {
    && (forall p | 0 <= p < |s.pipes| :: s.pipes[p].stage.Gone?)
    && s.queue == []
    && (forall w | 0 <= w < |s.workers| :: s.workers[w].Free?)
  }

  lemma NoTokensAtRest(cfg: Config, s: State, p: nat)
    requires Inv(cfg, s) && AtRest(s) && HasPipe(s, p)
    ensures Tokens(s, p) == 0
  {
    assert WgOk(s, p);
  }

  /** Then runner, channel and registry are empty too. */
  lemma NothingHeldAtRest(cfg: Config, s: State)
    requires Inv(cfg, s) && AtRest(s)
    ensures s.runner == Ready && s.nextPipes == [] && s.registry == map[] && !ScannerHolds(s.scanner)
  {
    if s.nextPipes != [] {
      CountPositive(s.nextPipes, q => q == s.nextPipes[0]);
      NoTokensAtRest(cfg, s, s.nextPipes[0]);
    }
    if !s.runner.Ready? { NoTokensAtRest(cfg, s, s.runner.pipe); }
    if ScannerHolds(s.scanner) { NoTokensAtRest(cfg, s, s.scanner.pipe); }
    assert forall c :: c !in s.registry;
  }

  lemma Busy(cfg: Config, s: State) returns (l: Label)
    requires ValidConfig(cfg) && Inv(cfg, s) && !AtRest(s)
    ensures Working(l) && Enabled(cfg, s, l)
  {
    if s.queue != [] || exists w :: 0 <= w < |s.workers| && !s.workers[w].Free? {
      l := LineMoves(cfg, s);
    } else {
      var p :| 0 <= p < |s.pipes| && !s.pipes[p].stage.Gone?;
      assert Live(s, p);
      l := NeverStuck(cfg, s, p);
    }
  }

  /** No pipe of the campaign is at work, and its checkpoint is `k`. */
  ghost predicate StandsAt(s: State, c: int, k: nat) {
    c in s.rows && c in s.books && NoneWaits(s, c) && s.rows[c].checkpoint == k
  }

  lemma StandsByRunner(cfg: Config, s: State, a: RunAct, c: int, k: nat)
    requires RunEnabled(cfg, s, a) && StandsAt(s, c, k) && (!s.runner.Ready? ==> WgOk(s, s.runner.pipe))
    ensures StandsAt(RunApply(cfg, s, a), c, k)
  {
    var t := RunApply(cfg, s, a);
    forall p: nat ensures !WaitsFor(t, p, c) { assert !WaitsFor(s, p, c); }
    if a.Fetch? { assert !WaitsFor(s, s.runner.pipe, c); }
  }

  lemma StandsByCleanup(cfg: Config, s: State, p: nat, a: CleanAct, c: int, k: nat)
    requires CleanEnabled(cfg, s, p, a) && StandsAt(s, c, k)
    ensures StandsAt(CleanApply(cfg, s, p, a), c, k)
  {
    var t := CleanApply(cfg, s, p, a);
    forall q: nat ensures !WaitsFor(t, q, c) { assert !WaitsFor(s, q, c); }
    assert !WaitsFor(s, p, c);
  }

  lemma StandsByOthers(cfg: Config, s: State, l: Label, c: int, k: nat)
    requires Inv(cfg, s) && Enabled(cfg, s, l) && Working(l) && (l.ByScanner? || l.ByWorker?) && StandsAt(s, c, k)
    ensures StandsAt(Apply(cfg, s, l), c, k)
  {
    var t := Apply(cfg, s, l);
    RowsKept(cfg, s, l);
    forall p: nat ensures !WaitsFor(t, p, c) { assert !WaitsFor(s, p, c); }
  }

  lemma StandsStep(cfg: Config, s: State, l: Label, c: int, k: nat)
    requires Inv(cfg, s) && Enabled(cfg, s, l) && Working(l) && StandsAt(s, c, k)
    ensures StandsAt(Apply(cfg, s, l), c, k)
  {
    match l
    case ByRunner(a) => StandsByRunner(cfg, s, a, c, k);
    case ByCleanup(p, a) => StandsByCleanup(cfg, s, p, a, c, k);
    case _ => StandsByOthers(cfg, s, l, c, k);
  }

  /** The manager's own steps empty it without moving the checkpoint. */
  lemma {:induction false} Drain(cfg: Config, s0: State, ls: seq<Label>, s: State, c: int, k: nat)
    returns (ls': seq<Label>, t: State)
    requires ValidConfig(cfg) && At(cfg, s0, ls, s) && Inv(cfg, s) && StandsAt(s, c, k)
    ensures At(cfg, s0, ls', t) && Inv(cfg, t) && StandsAt(t, c, k) && AtRest(t)
    decreases TotalWeight(s)
  {
    if AtRest(s) {
      ls', t := ls, s;
    } else {
      var l := Busy(cfg, s);
      InvStep(cfg, s, l);
      TotalStep(cfg, s, l);
      StandsStep(cfg, s, l, c, k);
      ls', t := Go(cfg, s0, ls, s, l);
      ls', t := Drain(cfg, s0, ls', t, c, k);
    }
  }

  /** Ready for the next scan. */
  ghost predicate Idle(cfg: Config, s: State, c: int, k: nat) {
    Inv(cfg, s) && StandsAt(s, c, k) && AtRest(s) && s.scanner == Asleep
  }

  /** The scanner gives up what it found and goes back to sleep. */
  lemma {:induction false} ScannerRests(cfg: Config, s0: State, ls: seq<Label>, s: State, c: int, k: nat)
    returns (ls': seq<Label>, t: State)
    requires At(cfg, s0, ls, s) && Inv(cfg, s) && StandsAt(s, c, k) && AtRest(s)
    ensures At(cfg, s0, ls', t) && Idle(cfg, t, c, k)
    decreases if s.scanner.Asleep? then 0 else if s.scanner.Starting? then 1 + |s.scanner.todo| else 2
  {
    NothingHeldAtRest(cfg, s);
    if s.scanner.Asleep? {
      ls', t := ls, s;
    } else {
      var a := if s.scanner.Snapped? then ScanError({}, map[])
               else if s.scanner.todo == [] then ScanDone else RejectCampaign(false);
      RestStep(cfg, s, a, c, k);
      ls', t := Go(cfg, s0, ls, s, ByScanner(a));
      ls', t := ScannerRests(cfg, s0, ls', t, c, k);
    }
  }

  lemma RestStep(cfg: Config, s: State, a: ScanAct, c: int, k: nat)
    requires Inv(cfg, s) && StandsAt(s, c, k) && AtRest(s) && ScanEnabled(cfg, s, a)
    requires a == ScanError({}, map[]) || a == ScanDone || a == RejectCampaign(false)
    ensures var t := ScanApply(cfg, s, a); Inv(cfg, t) && StandsAt(t, c, k) && AtRest(t)
  {
    var t := ScanApply(cfg, s, a);
    NothingHeldAtRest(cfg, s);
    InvStep(cfg, s, ByScanner(a));
    forall p: nat ensures !WaitsFor(t, p, c) { assert !WaitsFor(s, p, c); }
  }

  // ---------------------------------------------------------------- resuming the campaign

  lemma SetToRun(cfg: Config, s0: State, ls: seq<Label>, s: State, c: int, k: nat)
    returns (ls': seq<Label>, t: State)
    requires At(cfg, s0, ls, s) && Idle(cfg, s, c, k) && s.registry == map[]
    ensures At(cfg, s0, ls', t) && t.scanner == Snapped({}, map[]) && t.registry == map[]
    ensures t.nextPipes == s.nextPipes && t.runner == s.runner && t.queue == s.queue && t.workers == s.workers
    ensures t.rows == s.rows[c := s.rows[c].(status := Running)] && t.books == s.books
  {
    ls', t := Go(cfg, s0, ls, s, ByApi(SetStatus(c, Running)));
    ls', t := SnapNothing(cfg, s0, ls', t);
  }

  /** The campaign is set to run and found by the scanner, with a maximum of `x`. */
  lemma FoundAgain(cfg: Config, s0: State, ls: seq<Label>, s: State, c: int, k: nat, x: nat)
    returns (ls': seq<Label>, t: State)
    requires At(cfg, s0, ls, s) && Idle(cfg, s, c, k)
    ensures At(cfg, s0, ls', t) && t.scanner == Starting([c]) && t.registry == map[] && t.nextPipes == []
    ensures t.runner == Ready && t.queue == [] && t.workers == s.workers && c in t.rows && c in t.books
    ensures t.rows[c].status == Running && t.rows[c].checkpoint == k && t.rows[c].max == x
    ensures t.books[c].wins == s.books[c].wins
  {
    NothingHeldAtRest(cfg, s);
    ls', t := SetToRun(cfg, s0, ls, s, c, k);
    ls', t := Go(cfg, s0, ls', t, ByScanner(Scan([c], {}, map[c := x])));
  }

  /** Its next pipe delivers to `x`. */
  lemma DeliveredAgain(cfg: Config, s0: State, ls: seq<Label>, s: State, c: int, x: nat)
    returns (ls': seq<Label>, t: State)
    requires ValidConfig(cfg) && At(cfg, s0, ls, s) && s.scanner == Starting([c]) && s.nextPipes == []
    requires s.runner == Ready && s.queue == [] && |s.workers| >= 1 && s.workers[0] == Free
    requires c in s.rows && c in s.books
    requires s.rows[c].status == Running && s.rows[c].checkpoint < x <= s.rows[c].max
    ensures At(cfg, s0, ls', t) && c in t.books && t.books[c].wins == s.books[c].wins + [x]
  {
    var p := |s.pipes|;
    ls', t := Launch(cfg, s0, ls, s, c);
    ls', t := QueueNext(cfg, s0, ls', t, p, x);
    ls', t := TakeOne(cfg, s0, ls', t, 0);
    ls', t := CheckAndPush(cfg, s0, ls', t, 0, p, x);
  }

  /** From every state in which no pipe of the campaign is at work, a run delivers to any id above its checkpoint. */
  lemma AboveIsDelivered(cfg: Config, s: State, c: int, k: nat, x: nat) returns (ls: seq<Label>)
    requires ValidConfig(cfg) && Inv(cfg, s) && StandsAt(s, c, k) && k < x
    ensures IsRun(cfg, s, ls) && Deliveries(cfg, s, ls, c, x) > 0
  {
    var t: State;
    ls, t := Drain(cfg, s, [], s, c, k);
    ls, t := ScannerRests(cfg, s, ls, t, c, k);
    ls, t := FoundAgain(cfg, s, ls, t, c, k, x);
    var before, mid := ls, t;
    ls, t := DeliveredAgain(cfg, s, ls, t, c, x);
    DeliveriesCounted(cfg, s, before, c, x);
    DeliveriesCounted(cfg, s, ls, c, x);
    TimesAppended(mid.books[c].wins, x, x);
  }

  // ---------------------------------------------------------------- main result

  /** Some continuation of the run delivers one of the pipe's successes again. */
  ghost predicate RepeatsLater(cfg: Config, s: State, p: nat)
    requires HasPipe(s, p)
  {
    exists more: seq<Label>, x: nat ::
      IsRun(cfg, s, more) && x in s.pipes[p].log.succeeded && Deliveries(cfg, s, more, s.pipes[p].camp, x) > 0
  }

  lemma EarlyFlushRepeats(cfg: Config, s: State, p: nat)
    requires ValidConfig(cfg) && ResumeInv(cfg, s) && CleanEnabled(cfg, s, p, Flush(true)) && FlushesEarly(s, p)
    ensures RepeatsLater(cfg, CleanApply(cfg, s, p, Flush(true)), p)
  {
    var t := CleanApply(cfg, s, p, Flush(true));
    assert Tracked(s, p);
    var w :| 0 <= w < |s.workers| && HoldsUncounted(s.workers[w], p, s.pipes[p].lastID);
    var x := s.workers[w].msg.id;
    assert x in t.pipes[p].log.succeeded;
    InvStep(cfg, s, ByCleanup(p, Flush(true)));
    NoneWaitsAfterFlush(cfg, s, p, true);
    var more := AboveIsDelivered(cfg, t, s.pipes[p].camp, s.pipes[p].lastID, x);
    assert Deliveries(cfg, t, more, t.pipes[p].camp, x) > 0;
  }

  lemma OtherFlushRepeatsNothing(cfg: Config, s: State, p: nat, ok: bool)
    requires ValidConfig(cfg) && ResumeInv(cfg, s) && CleanEnabled(cfg, s, p, Flush(ok)) && !(ok && FlushesEarly(s, p))
    ensures !RepeatsLater(cfg, CleanApply(cfg, s, p, Flush(ok)), p)
  {
    var t, c := CleanApply(cfg, s, p, Flush(ok)), s.pipes[p].camp;
    assert PipeOk(s, p) && Tracked(s, p);
    FlushCovers(cfg, s, p, ok);
    NoneWaitsAfterFlush(cfg, s, p, ok);
    ResumeStep(cfg, s, ByCleanup(p, Flush(ok)));
    forall more: seq<Label>, x: nat | IsRun(cfg, t, more) && x in t.pipes[p].log.succeeded
      ensures Deliveries(cfg, t, more, c, x) == 0
    {
      PastForever(cfg, t, more, c, x);
    }
  }

  /** A flush is followed by a run that delivers one of the pipe's successes a second time exactly when the store took
      a checkpoint from it while a worker had yet to count a larger success. */
  lemma RepeatsExactly(cfg: Config, s0: State, ls: seq<Label>, p: nat, ok: bool)
    requires ValidConfig(cfg) && Reachable(cfg, s0, ls)
    requires Enabled(cfg, After(cfg, s0, ls), ByCleanup(p, Flush(ok)))
    ensures var s := After(cfg, s0, ls);
      RepeatsLater(cfg, Apply(cfg, s, ByCleanup(p, Flush(ok))), p) <==> ok && FlushesEarly(s, p)
  {
    ResumeReachable(cfg, s0, ls);
    var s := After(cfg, s0, ls);
    if ok && FlushesEarly(s, p) {
      EarlyFlushRepeats(cfg, s, p);
    } else {
      OtherFlushRepeatsNothing(cfg, s, p, ok);
    }
  }
}
