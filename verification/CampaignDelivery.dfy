/**
  What happens to the subscribers that a pipe fetches: none is lost, none is
  taken twice, and a campaign marked finished dropped nobody.
*/
module CampaignDelivery {
  import opened Wrappers
  import opened Counting
  import opened CampaignModel
  import opened CampaignWaitGroup

  // ---------------------------------------------------------------- conservation

  predicate IsMsg(m: Msg, p: nat, x: nat) { Of(m, p) && m.id == x }

  predicate IsOpen(w: Worker, p: nat, x: nat) { (w.Held? || w.Cleared?) && IsMsg(w.msg, p, x) }

  /** Copies of id `x` that pipe `p` has fetched and that are neither dropped nor pushed nor unrendered. */
  function Pending(s: State, p: nat, x: nat): nat {
    (if (s.runner.Sending? || s.runner.Handing?) && s.runner.pipe == p then Times(s.runner.rest, x) else 0)
    + (if s.runner.Handing? && s.runner.pipe == p && s.runner.id == x then 1 else 0)
    + Count(s.queue, m => IsMsg(m, p, x))
    + Count(s.workers, w => IsOpen(w, p, x))
  }

  function Resolved(log: Log, x: nat): nat {
    Times(log.unrendered, x) + Times(log.dropped, x) + Times(log.succeeded, x) + Times(log.failed, x)
  }

  /** Every fetched id is still on its way or has exactly one fate. */
  predicate Conserved(s: State, p: nat, x: nat)
    requires HasPipe(s, p)
  {
    Times(s.pipes[p].log.fetched, x) == Pending(s, p, x) + Resolved(s.pipes[p].log, x)
  }

  lemma ConservedByScanner(cfg: Config, s: State, a: ScanAct, p: nat, x: nat)
    requires Shape(cfg, s) && ScanEnabled(cfg, s, a) && HasPipe(ScanApply(cfg, s, a), p)
    requires HasPipe(s, p) ==> Conserved(s, p, x)
    ensures Conserved(ScanApply(cfg, s, a), p, x)
  {
    if a.CreatePipe? && p == |s.pipes| {
      forall i | 0 <= i < |s.queue| ensures !IsMsg(s.queue[i], p, x) {
        assert MsgOk(s, s.queue[i]);
      }
      CountPositive(s.queue, m => IsMsg(m, p, x));
      CountPositive(s.workers, w => IsOpen(w, p, x));
    }
  }

  lemma ConservedBySend(cfg: Config, s: State, p: nat, x: nat)
    requires RunEnabled(cfg, s, Send) && HasPipe(s, p) && Conserved(s, p, x)
    ensures Conserved(RunApply(cfg, s, Send), p, x)
  {
    CountAppended(s.queue, Msg(s.pipes[s.runner.pipe].camp, s.runner.id, Some(s.runner.pipe)), m => IsMsg(m, p, x));
  }

  lemma ConservedByRender(cfg: Config, s: State, ok: bool, p: nat, x: nat)
    requires RunEnabled(cfg, s, Render(ok)) && HasPipe(s, p) && Conserved(s, p, x)
    ensures Conserved(RunApply(cfg, s, Render(ok)), p, x)
  {
    TimesAppended(s.pipes[s.runner.pipe].log.unrendered, s.runner.rest[0], x);
  }

  lemma ConservedByFetch(cfg: Config, s: State, audience: set<nat>, batch: seq<nat>, p: nat, x: nat)
    requires RunEnabled(cfg, s, Fetch(audience, batch)) && HasPipe(s, p) && Conserved(s, p, x)
    ensures Conserved(RunApply(cfg, s, Fetch(audience, batch)), p, x)
  {
    TimesConcat(s.pipes[s.runner.pipe].log.fetched, batch, x);
  }

  lemma ConservedOutsideBatch(cfg: Config, s: State, a: RunAct, p: nat, x: nat)
    requires !a.Send? && !a.Render? && !a.Fetch?
    requires RunEnabled(cfg, s, a) && HasPipe(s, p) && Conserved(s, p, x)
    ensures Conserved(RunApply(cfg, s, a), p, x)
  {}

  lemma ConservedByRunner(cfg: Config, s: State, a: RunAct, p: nat, x: nat)
    requires RunEnabled(cfg, s, a) && HasPipe(s, p) && Conserved(s, p, x)
    ensures Conserved(RunApply(cfg, s, a), p, x)
  {
    match a
    case Send => ConservedBySend(cfg, s, p, x);
    case Render(ok) => ConservedByRender(cfg, s, ok, p, x);
    case Fetch(audience, batch) => ConservedByFetch(cfg, s, audience, batch, p, x);
    case _ => ConservedOutsideBatch(cfg, s, a, p, x);
  }

  lemma ConservedByWorker(cfg: Config, s: State, w: nat, a: WorkAct, p: nat, x: nat)
    requires WorkEnabled(cfg, s, w, a) && HasPipe(s, p) && Conserved(s, p, x)
    ensures Conserved(WorkApply(cfg, s, w, a), p, x)
  {
    CountReplaced(s.workers, w, WorkApply(cfg, s, w, a).workers[w], w => IsOpen(w, p, x));
    if (a.CheckStop? || a.Push?) && Of(s.workers[w].msg, p) {
      FateLogged(cfg, s.pipes[p], s.workers[w], a, x);
    } else {
      assert Resolved(WorkApply(cfg, s, w, a).pipes[p].log, x) == Resolved(s.pipes[p].log, x);
    }
  }

  /** Dropping or pushing a message adds one to the fates of its id. */
  lemma FateLogged(cfg: Config, y: Pipe, h: Worker, a: WorkAct, x: nat)
    requires a.CheckStop? || a.Push?
    requires !h.Free? && !h.Raising?
    ensures WorkPipe(cfg, y, h, a).log.fetched == y.log.fetched
    ensures Resolved(WorkPipe(cfg, y, h, a).log, x)
         == Resolved(y.log, x) + if (a.Push? || y.stopped) && h.msg.id == x then 1 else 0
  {
    TimesAppended(y.log.dropped, h.msg.id, x);
    TimesAppended(y.log.succeeded, h.msg.id, x);
    TimesAppended(y.log.failed, h.msg.id, x);
  }

  lemma ConservedByApi(cfg: Config, s: State, a: ApiAct, p: nat, x: nat)
    requires ApiEnabled(cfg, s, a) && HasPipe(s, p) && Conserved(s, p, x)
    ensures Conserved(ApiApply(cfg, s, a), p, x)
  {
    if a.PushTest? { CountAppended(s.queue, Msg(a.camp, a.id, None), m => IsMsg(m, p, x)); }
  }

  lemma ConservedStep(cfg: Config, s: State, l: Label, p: nat, x: nat)
    requires Shape(cfg, s) && Enabled(cfg, s, l) && HasPipe(Apply(cfg, s, l), p)
    requires HasPipe(s, p) ==> Conserved(s, p, x)
    ensures Conserved(Apply(cfg, s, l), p, x)
  {
    match l
    case ByScanner(a) => ConservedByScanner(cfg, s, a, p, x);
    case ByRunner(a) => ConservedByRunner(cfg, s, a, p, x);
    case ByWorker(w, a) => ConservedByWorker(cfg, s, w, a, p, x);
    case ByCleanup(q, a) =>
    case ByApi(a) => ConservedByApi(cfg, s, a, p, x);
  }

  // ---------------------------------------------------------------- the order of fetched ids

  function Last(xs: seq<nat>, d: nat): nat { if xs == [] then d else xs[|xs| - 1] }

  predicate InAll(audiences: seq<set<nat>>, a: nat) {
    forall i | 0 <= i < |audiences| :: a in audiences[i]
  }

  /** A pipe fetches ever larger ids and skips nobody who matched at every fetch. */
  predicate LogOrdered(log: Log) {
    && Ascending(log.fetched)
    && (forall i | 0 <= i < |log.fetched| :: log.start < log.fetched[i])
    && (forall a: nat | InAll(log.audiences, a) && log.start < a <= Last(log.fetched, log.start) :: a in log.fetched)
    && (log.release == Exhausted ==>
          forall a: nat | InAll(log.audiences, a) && log.start < a <= log.cap :: a in log.fetched)
  }

  /** While a pipe waits, the checkpoint of its row is the last id it fetched. */
  predicate Ordered(s: State, p: nat)
    requires HasPipe(s, p)
  {
    var x := s.pipes[p];
    && LogOrdered(x.log)
    && (x.stage == Waiting ==> x.camp in s.rows && s.rows[x.camp].checkpoint == Last(x.log.fetched, x.log.start))
  }

  // ---------------------------------------------------------------- why a pipe ended

  predicate Halting(s: State, p: nat) {
    (s.scanner.ScanHalting? && s.scanner.pipe == p) || (s.runner.RunHalting? && s.runner.pipe == p)
  }

  predicate Releasing(s: State, p: nat) {
    (s.scanner.ScanReleasing? && s.scanner.pipe == p) || (s.runner.RunReleasing? && s.runner.pipe == p)
  }

  /** Cleanup has found the stop flag clear. */
  predicate PastStop(g: Stage) {
    g == Finishing || g == Marking
    || ((g.Deleting? || g.Gone?) && g.outcome != Halted && g.outcome != PausedByErrors)
  }

  predicate Honest(s: State, p: nat)
    requires HasPipe(s, p)
  {
    var x := s.pipes[p];
    // Only a stopped pipe drops messages, and every early release sets the flag first.
    && (x.log.dropped != [] ==> x.stopped)
    && (x.log.release == FetchFailed || x.log.release == Overflow ==> x.stopped || Halting(s, p))
    && (Tokens(s, p) == 0 || Halting(s, p) || Releasing(s, p) <==> x.log.release != NotYet)
    && (PastStop(x.stage) ==> x.log.dropped == [] && (x.log.release == Exhausted || x.log.release == NotRunning))
  }

  // ---------------------------------------------------------------- preservation of the order

  lemma SameCampaignSamePipe(s: State, p: nat, q: nat)
    requires Registry(s) && Live(s, p) && Live(s, q) && s.pipes[p].camp == s.pipes[q].camp
    ensures p == q
  {}

  lemma OrderedByScanner(cfg: Config, s: State, a: ScanAct, p: nat)
    requires Shape(cfg, s) && ScanEnabled(cfg, s, a) && HasPipe(ScanApply(cfg, s, a), p)
    requires HasPipe(s, p) ==> Ordered(s, p)
    ensures Ordered(ScanApply(cfg, s, a), p)
  {}

  /** A page continues the fetched ids without a gap. */
  lemma PageContinues(x: Pipe, r: Row, audience: set<nat>, batch: seq<nat>, limit: nat)
    requires LogOrdered(x.log) && x.log.release == NotYet && limit > 0
    requires r.checkpoint == Last(x.log.fetched, x.log.start)
    requires if r.status == Running then IsPage(batch, audience, r.checkpoint, r.max, limit) else batch == []
    ensures var log := Fetched(x, r, audience, batch).log;
      LogOrdered(log) && Last(log.fetched, log.start) == Last(batch, r.checkpoint)
  {
    var log := x.log;
    if r.status == Running {
      var all := log.audiences + [audience];
      forall a: nat | InAll(all, a) ensures InAll(log.audiences, a) && a in audience {
        assert all[|log.audiences|] == audience;
        forall i | 0 <= i < |log.audiences| ensures a in log.audiences[i] {
          assert all[i] == log.audiences[i];
        }
      }
    } else {
      assert log.fetched + batch == log.fetched;
    }
  }

  lemma OrderedByFetch(cfg: Config, s: State, a: RunAct, p: nat)
    requires ValidConfig(cfg) && Registry(s) && RunEnabled(cfg, s, a) && a.Fetch?
    requires HasPipe(s, p) && Ordered(s, p) && WgOk(s, p) && Honest(s, p) && WgOk(s, s.runner.pipe)
    ensures Ordered(RunApply(cfg, s, a), p)
  {
    var q := s.runner.pipe;
    if p == q {
      FirstCountStillHeld(s, p);
      PageContinues(s.pipes[p], s.rows[s.pipes[p].camp], a.audience, a.batch, cfg.batch);
    } else {
      FirstCountStillHeld(s, q);
      if s.pipes[p].stage == Waiting && s.pipes[p].camp == s.pipes[q].camp {
        SameCampaignSamePipe(s, p, q);
      }
    }
  }

  /** The pipe that the runner is fetching for waits and has not been given up. */
  lemma FirstCountStillHeld(s: State, q: nat)
    requires s.runner == Fetching(q) && HasPipe(s, q) && WgOk(s, q)
    ensures s.pipes[q].stage == Waiting
    ensures Honest(s, q) ==> s.pipes[q].log.release == NotYet
  {}

  lemma OrderedByRunner(cfg: Config, s: State, a: RunAct, p: nat)
    requires ValidConfig(cfg) && Registry(s) && RunEnabled(cfg, s, a)
    requires HasPipe(s, p) && Ordered(s, p) && WgOk(s, p) && Honest(s, p)
    requires !s.runner.Ready? ==> WgOk(s, s.runner.pipe)
    ensures Ordered(RunApply(cfg, s, a), p)
  {
    if a.Fetch? { OrderedByFetch(cfg, s, a, p); }
  }

  lemma OrderedByWorker(cfg: Config, s: State, w: nat, a: WorkAct, p: nat)
    requires WorkEnabled(cfg, s, w, a) && HasPipe(s, p) && Ordered(s, p)
    ensures Ordered(WorkApply(cfg, s, w, a), p)
  {}

  lemma OrderedByCleanup(cfg: Config, s: State, q: nat, a: CleanAct, p: nat)
    requires Registry(s) && CleanEnabled(cfg, s, q, a)
    requires HasPipe(s, p) && Ordered(s, p)
    ensures Ordered(CleanApply(cfg, s, q, a), p)
  {
    if a.Flush? && p != q && s.pipes[p].stage == Waiting && s.pipes[p].camp == s.pipes[q].camp {
      SameCampaignSamePipe(s, p, q);
    }
  }

  lemma OrderedByApi(cfg: Config, s: State, a: ApiAct, p: nat)
    requires ApiEnabled(cfg, s, a) && HasPipe(s, p) && Ordered(s, p)
    ensures Ordered(ApiApply(cfg, s, a), p)
  {}

  // ---------------------------------------------------------------- preservation of honesty

  lemma HonestByFirstOffer(cfg: Config, s: State, p: nat)
    requires Shape(cfg, s) && ScanEnabled(cfg, s, OfferPipe) && HasPipe(s, p) && WgOk(s, p) && Honest(s, p)
    ensures Honest(ScanApply(cfg, s, OfferPipe), p)
  {
    ChannelAppended(s.nextPipes, s.scanner.pipe, p);
  }

  lemma HonestByScanner(cfg: Config, s: State, a: ScanAct, p: nat)
    requires Shape(cfg, s) && ScanEnabled(cfg, s, a) && HasPipe(ScanApply(cfg, s, a), p)
    requires HasPipe(s, p) ==> WgOk(s, p) && Honest(s, p)
    ensures Honest(ScanApply(cfg, s, a), p)
  {
    if a.OfferPipe? {
      HonestByFirstOffer(cfg, s, p);
    } else if a.CreatePipe? && p == |s.pipes| {
      FreshPipe(cfg, s, p);
    }
  }

  lemma HonestByOffer(cfg: Config, s: State, p: nat)
    requires RunEnabled(cfg, s, OfferAgain) && HasPipe(s, p) && WgOk(s, p) && Honest(s, p)
    ensures Honest(RunApply(cfg, s, OfferAgain), p)
  {
    ChannelAppended(s.nextPipes, s.runner.pipe, p);
  }

  lemma HonestByBatch(cfg: Config, s: State, a: RunAct, p: nat)
    requires a.Render? || a.Send? || a.EndBatch?
    requires RunEnabled(cfg, s, a) && HasPipe(s, p) && WgOk(s, p) && Honest(s, p)
    ensures Honest(RunApply(cfg, s, a), p)
  {}

  lemma HonestByRunner(cfg: Config, s: State, a: RunAct, p: nat)
    requires RunEnabled(cfg, s, a) && HasPipe(s, p) && WgOk(s, p) && Honest(s, p)
    ensures Honest(RunApply(cfg, s, a), p)
  {
    if a.OfferAgain? {
      HonestByOffer(cfg, s, p);
    } else if a.Render? || a.Send? || a.EndBatch? {
      HonestByBatch(cfg, s, a, p);
    }
  }

  lemma HonestByWorker(cfg: Config, s: State, w: nat, a: WorkAct, p: nat)
    requires WorkEnabled(cfg, s, w, a) && HasPipe(s, p) && WgOk(s, p) && Honest(s, p)
    ensures Honest(WorkApply(cfg, s, w, a), p)
  {
    CountPositive(s.workers, w => Owes(w, p));
  }

  lemma HonestByCleanup(cfg: Config, s: State, q: nat, a: CleanAct, p: nat)
    requires CleanEnabled(cfg, s, q, a) && HasPipe(s, p) && WgOk(s, p) && Honest(s, p)
    ensures Honest(CleanApply(cfg, s, q, a), p)
  {}

  lemma HonestByApi(cfg: Config, s: State, a: ApiAct, p: nat)
    requires ApiEnabled(cfg, s, a) && HasPipe(s, p) && Honest(s, p)
    ensures Honest(ApiApply(cfg, s, a), p)
  {}

  // ---------------------------------------------------------------- every run

  ghost predicate PipeOk(s: State, p: nat)
    requires HasPipe(s, p)
  {
    Ordered(s, p) && Honest(s, p) && forall x: nat :: Conserved(s, p, x)
  }

  ghost predicate DeliveryInv(cfg: Config, s: State) {
    Inv(cfg, s) && forall p | 0 <= p < |s.pipes| :: PipeOk(s, p)
  }

  lemma OrderedStep(cfg: Config, s: State, l: Label, p: nat)
    requires ValidConfig(cfg) && Inv(cfg, s) && Enabled(cfg, s, l) && HasPipe(Apply(cfg, s, l), p)
    requires HasPipe(s, p) ==> Ordered(s, p) && Honest(s, p)
    ensures Ordered(Apply(cfg, s, l), p)
  {
    match l
    case ByScanner(a) => OrderedByScanner(cfg, s, a, p);
    case ByRunner(a) => OrderedByRunner(cfg, s, a, p);
    case ByWorker(w, a) => OrderedByWorker(cfg, s, w, a, p);
    case ByCleanup(q, a) => OrderedByCleanup(cfg, s, q, a, p);
    case ByApi(a) => OrderedByApi(cfg, s, a, p);
  }

  lemma HonestStep(cfg: Config, s: State, l: Label, p: nat)
    requires Inv(cfg, s) && Enabled(cfg, s, l) && HasPipe(Apply(cfg, s, l), p)
    requires HasPipe(s, p) ==> Honest(s, p)
    ensures Honest(Apply(cfg, s, l), p)
  {
    match l
    case ByScanner(a) => HonestByScanner(cfg, s, a, p);
    case ByRunner(a) => HonestByRunner(cfg, s, a, p);
    case ByWorker(w, a) => HonestByWorker(cfg, s, w, a, p);
    case ByCleanup(q, a) => HonestByCleanup(cfg, s, q, a, p);
    case ByApi(a) => HonestByApi(cfg, s, a, p);
  }

  lemma DeliveryStep(cfg: Config, s: State, l: Label)
    requires ValidConfig(cfg) && DeliveryInv(cfg, s) && Enabled(cfg, s, l)
    ensures DeliveryInv(cfg, Apply(cfg, s, l))
  {
    var t := Apply(cfg, s, l);
    InvStep(cfg, s, l);
    forall p | 0 <= p < |t.pipes| ensures PipeOk(t, p) {
      if HasPipe(s, p) { assert PipeOk(s, p); }
      OrderedStep(cfg, s, l, p);
      HonestStep(cfg, s, l, p);
      forall x: nat ensures Conserved(t, p, x) {
        ConservedStep(cfg, s, l, p, x);
      }
    }
  }

  lemma {:induction false} DeliveryRun(cfg: Config, s: State, ls: seq<Label>)
    requires ValidConfig(cfg) && DeliveryInv(cfg, s) && IsRun(cfg, s, ls)
    ensures DeliveryInv(cfg, After(cfg, s, ls))
    decreases |ls|
  {
    if ls != [] {
      DeliveryStep(cfg, s, ls[0]);
      DeliveryRun(cfg, Apply(cfg, s, ls[0]), ls[1..]);
    }
  }

  // ---------------------------------------------------------------- main results

  /** Every id that a pipe has fetched is still on its way or has exactly one fate, at every moment. */
  lemma OneFateEach(cfg: Config, s0: State, ls: seq<Label>, p: nat, x: nat)
    requires ValidConfig(cfg) && Reachable(cfg, s0, ls) && HasPipe(After(cfg, s0, ls), p)
    ensures var s := After(cfg, s0, ls);
      Pending(s, p, x) + Resolved(s.pipes[p].log, x) == if x in s.pipes[p].log.fetched then 1 else 0
  {
    InvInit(cfg, s0);
    DeliveryRun(cfg, s0, ls);
    var s := After(cfg, s0, ls);
    assert PipeOk(s, p) && Conserved(s, p, x);
    AscendingOnce(s.pipes[p].log.fetched, x);
    TimesPositive(s.pipes[p].log.fetched, x);
  }

  /** The fates when cleanup runs: nothing is left on its way. */
  lemma AllResolvedAtCleanup(cfg: Config, s0: State, ls: seq<Label>, p: nat, x: nat)
    requires ValidConfig(cfg) && Reachable(cfg, s0, ls) && HasPipe(After(cfg, s0, ls), p)
    requires After(cfg, s0, ls).pipes[p].wg == 0
    ensures var log := After(cfg, s0, ls).pipes[p].log;
      Resolved(log, x) == if x in log.fetched then 1 else 0
  {
    OneFateEach(cfg, s0, ls, p, x);
    InvReachable(cfg, s0, ls);
    var s := After(cfg, s0, ls);
    Quiet(s, p);
    CountPositive(s.queue, m => IsMsg(m, p, x));
    CountPositive(s.workers, w => IsOpen(w, p, x));
  }

  /** If cleanup marks a campaign finished, every subscriber its pipe fetched was handed to the
      messenger exactly once or failed to render, and none was dropped. */
  lemma FinishedMeansAttempted(cfg: Config, s0: State, ls: seq<Label>, p: nat, x: nat)
    requires ValidConfig(cfg) && Reachable(cfg, s0, ls) && HasPipe(After(cfg, s0, ls), p)
    requires var g := After(cfg, s0, ls).pipes[p].stage; (g.Deleting? || g.Gone?) && g.outcome == MarkedFinished
    ensures var log := After(cfg, s0, ls).pipes[p].log;
      && log.dropped == []
      && (Times(log.succeeded, x) + Times(log.failed, x) + Times(log.unrendered, x)
          == if x in log.fetched then 1 else 0)
  {
    InvInit(cfg, s0);
    DeliveryRun(cfg, s0, ls);
    var s := After(cfg, s0, ls);
    assert PipeOk(s, p) && WgOk(s, p);
    AllResolvedAtCleanup(cfg, s0, ls, p, x);
  }

  /** Who, of those who matched at each fetch of a finished pipe from its start up to the maximum id, was handed to
      the messenger or failed to render: everybody when the last fetch found the campaign running and exhausted,
      and otherwise those up to the last id fetched. */
  lemma FinishedMeansComplete(cfg: Config, s0: State, ls: seq<Label>, p: nat, a: nat)
    requires ValidConfig(cfg) && Reachable(cfg, s0, ls) && HasPipe(After(cfg, s0, ls), p)
    requires var x := After(cfg, s0, ls).pipes[p];
      && (x.stage.Deleting? || x.stage.Gone?) && x.stage.outcome == MarkedFinished
      && InAll(x.log.audiences, a) && x.log.start < a <= x.log.cap
    ensures var log := After(cfg, s0, ls).pipes[p].log;
      && (log.release == Exhausted || log.release == NotRunning)
      && (Times(log.succeeded, a) + Times(log.failed, a) + Times(log.unrendered, a) == 1
          <==> log.release == Exhausted || a <= Last(log.fetched, log.start))
  {
    InvInit(cfg, s0);
    DeliveryRun(cfg, s0, ls);
    var s := After(cfg, s0, ls);
    assert PipeOk(s, p);
    FinishedMeansAttempted(cfg, s0, ls, p, a);
  }
}
