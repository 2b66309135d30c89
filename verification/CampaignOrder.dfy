/**
  One worker.  With `Concurrency` 1 the messages of a pipe are taken in the order
  of their ids, so a stop cuts the ids in two: attempted below, dropped above.
*/
module CampaignOrder {
  import opened Wrappers
  import opened Counting
  import opened CampaignModel
  import opened CampaignWaitGroup
  import opened CampaignDelivery
  import opened CampaignResume

  predicate Producing(r: Runner, p: nat) { (r.Sending? || r.Handing?) && r.pipe == p }

  /** `x` is smaller than every id of `p` that no worker has taken yet. */
  predicate Ahead(q: seq<Msg>, r: Runner, p: nat, x: nat) {
    && (forall i | 0 <= i < |q| && Of(q[i], p) :: x < q[i].id)
    && (Producing(r, p) && r.Handing? ==> x < r.id)
    && (Producing(r, p) ==> forall j | 0 <= j < |r.rest| :: x < r.rest[j])
  }

  /** The ids of `p` that no worker has taken yet are in ascending order. */
  predicate LineSorted(q: seq<Msg>, r: Runner, p: nat) {
    && (forall i, j | 0 <= i < j < |q| && Of(q[i], p) && Of(q[j], p) :: q[i].id < q[j].id)
    && (Producing(r, p) ==>
          && Ascending(r.rest)
          && (forall i, j | 0 <= i < |q| && Of(q[i], p) && 0 <= j < |r.rest| :: q[i].id < r.rest[j])
          && (r.Handing? ==>
                && (forall j | 0 <= j < |r.rest| :: r.id < r.rest[j])
                && (forall i | 0 <= i < |q| && Of(q[i], p) :: q[i].id < r.id)))
  }

  predicate OpenOf(w: Worker, p: nat) { (w.Held? || w.Cleared?) && Of(w.msg, p) }

  /** All of `xs` come before the message in the worker's hand and before the ids not yet taken. */
  predicate Taken(q: seq<Msg>, r: Runner, w: Worker, p: nat, xs: seq<nat>) {
    forall k | 0 <= k < |xs| :: Ahead(q, r, p, xs[k]) && (OpenOf(w, p) ==> xs[k] < w.msg.id)
  }

  /** All of `xs` are smaller than all of `ys`. */
  predicate Below(xs: seq<nat>, ys: seq<nat>) {
    forall i, j | 0 <= i < |xs| && 0 <= j < |ys| :: xs[i] < ys[j]
  }

  predicate LineOk(q: seq<Msg>, r: Runner, w: Worker, p: nat, log: Log) {
    && LineSorted(q, r, p)
    && (OpenOf(w, p) ==> Ahead(q, r, p, w.msg.id))
    && Taken(q, r, w, p, log.dropped) && Taken(q, r, w, p, log.succeeded) && Taken(q, r, w, p, log.failed)
    && Below(log.succeeded, log.dropped) && Below(log.failed, log.dropped)
    && (log.dropped != [] && OpenOf(w, p) ==> w.Held?)
  }

  predicate InOrder(s: State, p: nat)
    requires HasPipe(s, p) && |s.workers| == 1
  {
    LineOk(s.queue, s.runner, s.workers[0], p, s.pipes[p].log)
  }

  lemma LineKept(q: seq<Msg>, r: Runner, w: Worker, p: nat, a: Log, b: Log)
    requires LineOk(q, r, w, p, a)
    requires b.dropped == a.dropped && b.succeeded == a.succeeded && b.failed == a.failed
    ensures LineOk(q, r, w, p, b)
  {}

  lemma InOrderByScanner(cfg: Config, s: State, a: ScanAct, p: nat)
    requires Shape(cfg, s) && Registry(s) && ScanEnabled(cfg, s, a) && HasPipe(ScanApply(cfg, s, a), p)
    requires |s.workers| == 1
    requires HasPipe(s, p) ==> InOrder(s, p)
    ensures InOrder(ScanApply(cfg, s, a), p)
  {}

  /** Everything that the pipe has in the line or settled was fetched, so it lies below the next batch. */
  lemma BelowNextBatch(s: State, p: nat, x: nat)
    requires HasPipe(s, p) && PipeOk(s, p)
    requires x in s.pipes[p].log.dropped || x in s.pipes[p].log.succeeded || x in s.pipes[p].log.failed
             || (exists i :: 0 <= i < |s.queue| && IsMsg(s.queue[i], p, x))
             || (exists w :: 0 <= w < |s.workers| && IsOpen(s.workers[w], p, x))
    ensures x <= Last(s.pipes[p].log.fetched, s.pipes[p].log.start)
  {
    var log := s.pipes[p].log;
    assert Conserved(s, p, x);
    CountPositive(s.queue, m => IsMsg(m, p, x));
    CountPositive(s.workers, w => IsOpen(w, p, x));
    TimesPositive(log.fetched, x);
    TimesPositive(log.dropped, x);
    TimesPositive(log.succeeded, x);
    TimesPositive(log.failed, x);
  }

  /** A batch of larger ids may join the end of the line. */
  lemma BatchJoins(q: seq<Msg>, r: Runner, r': Runner, w: Worker, p: nat, log: Log, low: nat)
    requires LineOk(q, r, w, p, log) && !Producing(r, p)
    requires r'.Sending? && Ascending(r'.rest) && forall j | 0 <= j < |r'.rest| :: low < r'.rest[j]
    requires forall i | 0 <= i < |q| && Of(q[i], p) :: q[i].id <= low
    requires OpenOf(w, p) ==> w.msg.id <= low
    requires AtMost(log.dropped, low) && AtMost(log.succeeded, low) && AtMost(log.failed, low)
    ensures LineOk(q, r', w, p, log)
  {}

  predicate AtMost(xs: seq<nat>, low: nat) { forall k | 0 <= k < |xs| :: xs[k] <= low }

  lemma InOrderByFetch(cfg: Config, s: State, a: RunAct, p: nat)
    requires RunEnabled(cfg, s, a) && a.Fetch? && s.runner.pipe == p && HasPipe(s, p) && |s.workers| == 1
    requires PipeOk(s, p) && WgOk(s, p) && InOrder(s, p)
    ensures InOrder(RunApply(cfg, s, a), p)
  {
    var t := RunApply(cfg, s, a);
    var log := s.pipes[p].log;
    FirstCountStillHeld(s, p);
    if a.batch != [] {
      var low := Last(log.fetched, log.start);
      forall i | 0 <= i < |s.queue| && Of(s.queue[i], p) ensures s.queue[i].id <= low {
        assert IsMsg(s.queue[i], p, s.queue[i].id);
        BelowNextBatch(s, p, s.queue[i].id);
      }
      if OpenOf(s.workers[0], p) {
        assert IsOpen(s.workers[0], p, s.workers[0].msg.id);
        BelowNextBatch(s, p, s.workers[0].msg.id);
      }
      forall k | 0 <= k < |log.dropped| ensures log.dropped[k] <= low { BelowNextBatch(s, p, log.dropped[k]); }
      forall k | 0 <= k < |log.succeeded| ensures log.succeeded[k] <= low { BelowNextBatch(s, p, log.succeeded[k]); }
      forall k | 0 <= k < |log.failed| ensures log.failed[k] <= low { BelowNextBatch(s, p, log.failed[k]); }
      BatchJoins(s.queue, s.runner, t.runner, s.workers[0], p, log, low);
    }
    LineKept(t.queue, t.runner, t.workers[0], p, log, t.pipes[p].log);
  }

  /** Rendering and sending move the head of the rest to the producer's hand and to the end of the queue. */
  lemma ProducerMoves(q: seq<Msg>, r: Runner, q': seq<Msg>, r': Runner, w: Worker, p: nat, log: Log)
    requires LineOk(q, r, w, p, log)
    requires
      || (r.Sending? && r.rest != [] && q' == q && r' == Sending(r.pipe, r.rest[1..]))
      || (r.Sending? && r.rest != [] && q' == q && r' == Handing(r.pipe, r.rest[0], r.rest[1..]))
      || (r.Handing? && r' == Sending(r.pipe, r.rest) && exists c :: q' == q + [Msg(c, r.id, Some(r.pipe))])
      || (q' == q && !Producing(r', p))
    ensures LineOk(q', r', w, p, log)
  {
    forall x: nat | Ahead(q, r, p, x) ensures Ahead(q', r', p, x) {}
  }

  lemma InOrderByRunner(cfg: Config, s: State, a: RunAct, p: nat)
    requires RunEnabled(cfg, s, a) && HasPipe(s, p) && |s.workers| == 1
    requires PipeOk(s, p) && WgOk(s, p) && InOrder(s, p)
    ensures InOrder(RunApply(cfg, s, a), p)
  {
    var t := RunApply(cfg, s, a);
    if a.Fetch? && s.runner.pipe == p {
      InOrderByFetch(cfg, s, a, p);
    } else {
      ProducerMoves(s.queue, s.runner, t.queue, t.runner, s.workers[0], p, s.pipes[p].log);
      LineKept(t.queue, t.runner, t.workers[0], p, s.pipes[p].log, t.pipes[p].log);
    }
  }

  /** The worker takes the head of the queue. */
  lemma HeadTaken(q: seq<Msg>, r: Runner, w: Worker, p: nat, log: Log)
    requires LineOk(q, r, w, p, log) && q != [] && w.Free?
    ensures LineOk(q[1..], r, Held(q[0]), p, log)
  {
    forall x: nat | Ahead(q, r, p, x) ensures Ahead(q[1..], r, p, x) {}
  }

  /** The worker settles the message in its hand. */
  lemma HandSettled(q: seq<Msg>, r: Runner, w: Worker, w': Worker, p: nat, a: Log, b: Log)
    requires LineOk(q, r, w, p, a) && OpenOf(w, p) && !OpenOf(w', p)
    requires
      || b == a.(dropped := a.dropped + [w.msg.id])
      || (w.Cleared? && (b == a.(succeeded := a.succeeded + [w.msg.id]) || b == a.(failed := a.failed + [w.msg.id])))
    ensures LineOk(q, r, w', p, b)
  {}

  lemma InOrderByWorker(cfg: Config, s: State, a: WorkAct, p: nat)
    requires WorkEnabled(cfg, s, 0, a) && HasPipe(s, p) && |s.workers| == 1
    requires Honest(s, p) && InOrder(s, p)
    ensures InOrder(WorkApply(cfg, s, 0, a), p)
  {
    var t := WorkApply(cfg, s, 0, a);
    var w := s.workers[0];
    if a.Dequeue? {
      HeadTaken(s.queue, s.runner, w, p, s.pipes[p].log);
    } else if (a.Push? && Of(w.msg, p)) || (a.CheckStop? && Of(w.msg, p) && s.pipes[p].stopped) {
      HandSettled(s.queue, s.runner, w, t.workers[0], p, s.pipes[p].log, t.pipes[p].log);
    } else {
      LineKept(s.queue, s.runner, w, p, s.pipes[p].log, t.pipes[p].log);
    }
  }

  lemma InOrderByApi(cfg: Config, s: State, a: ApiAct, p: nat)
    requires ApiEnabled(cfg, s, a) && HasPipe(s, p) && |s.workers| == 1 && InOrder(s, p)
    ensures InOrder(ApiApply(cfg, s, a), p)
  {
    var t := ApiApply(cfg, s, a);
    if a.PushTest? {
      forall x: nat | Ahead(s.queue, s.runner, p, x) ensures Ahead(t.queue, s.runner, p, x) {}
    }
    assert LineOk(t.queue, t.runner, t.workers[0], p, s.pipes[p].log);
    LineKept(t.queue, t.runner, t.workers[0], p, s.pipes[p].log, t.pipes[p].log);
  }

  lemma InOrderByCleanup(cfg: Config, s: State, q: nat, a: CleanAct, p: nat)
    requires CleanEnabled(cfg, s, q, a) && HasPipe(s, p) && |s.workers| == 1 && InOrder(s, p)
    ensures InOrder(CleanApply(cfg, s, q, a), p)
  {
    LineKept(s.queue, s.runner, s.workers[0], p, s.pipes[p].log, CleanApply(cfg, s, q, a).pipes[p].log);
  }

  /** No step but one of the scanner makes a pipe. */
  lemma InOrderStep(cfg: Config, s: State, l: Label, p: nat)
    requires Shape(cfg, s) && Registry(s) && Enabled(cfg, s, l) && HasPipe(Apply(cfg, s, l), p)
    requires |s.workers| == 1 && |Apply(cfg, s, l).workers| == 1
    requires HasPipe(s, p) ==> PipeOk(s, p) && WgOk(s, p) && InOrder(s, p)
    ensures InOrder(Apply(cfg, s, l), p)
  {
    match l
    case ByScanner(a) => InOrderByScanner(cfg, s, a, p);
    case ByRunner(a) => InOrderByRunner(cfg, s, a, p);
    case ByWorker(w, a) => InOrderByWorker(cfg, s, a, p);
    case ByCleanup(q, a) => InOrderByCleanup(cfg, s, q, a, p);
    case ByApi(a) => InOrderByApi(cfg, s, a, p);
  }

  // ---------------------------------------------------------------- every run

  ghost predicate OrderInv(cfg: Config, s: State) {
    ResumeInv(cfg, s) && |s.workers| == 1 && forall p | 0 <= p < |s.pipes| :: InOrder(s, p)
  }

  lemma OrderStep(cfg: Config, s: State, l: Label)
    requires ValidConfig(cfg) && OrderInv(cfg, s) && Enabled(cfg, s, l)
    ensures OrderInv(cfg, Apply(cfg, s, l))
  {
    var t := Apply(cfg, s, l);
    ResumeStep(cfg, s, l);
    forall p | 0 <= p < |t.pipes| ensures InOrder(t, p) {
      assert HasPipe(s, p) ==> PipeOk(s, p) && WgOk(s, p);
      InOrderStep(cfg, s, l, p);
    }
  }

  lemma {:induction false} OrderRun(cfg: Config, s: State, ls: seq<Label>)
    requires ValidConfig(cfg) && OrderInv(cfg, s) && IsRun(cfg, s, ls)
    ensures OrderInv(cfg, After(cfg, s, ls))
    decreases |ls|
  {
    if ls != [] {
      OrderStep(cfg, s, ls[0]);
      OrderRun(cfg, Apply(cfg, s, ls[0]), ls[1..]);
    }
  }

  // ---------------------------------------------------------------- main results

  predicate Attempted(log: Log, x: nat) { x in log.succeeded || x in log.failed }

  /** At every moment of a run with one worker, whatever a pipe has dropped lies above whatever it has attempted. */
  lemma DroppedAboveAttempted(cfg: Config, s0: State, ls: seq<Label>, p: nat)
    requires ValidConfig(cfg) && cfg.workers == 1 && Reachable(cfg, s0, ls) && HasPipe(After(cfg, s0, ls), p)
    ensures var log := After(cfg, s0, ls).pipes[p].log;
      Below(log.succeeded, log.dropped) && Below(log.failed, log.dropped)
  {
    InvInit(cfg, s0);
    OrderRun(cfg, s0, ls);
    assert InOrder(After(cfg, s0, ls), p);
  }

  /** A flush of campaign `c` that leaves messages dropped by its pipe behind the checkpoint: nothing was counted,
      or the store call fails. */
  predicate StrandsDropped(s: State, l: Label, c: int) {
    && l.ByCleanup? && l.clean.Flush? && HasPipe(s, l.pipe) && s.pipes[l.pipe].camp == c
    && s.pipes[l.pipe].log.dropped != [] && !(l.clean.ok && s.pipes[l.pipe].lastID > 0)
  }

  /** The checkpoint after a flush, with one worker, whatever the store answers: every id that the pipe fetched
      up to the last one counted was attempted or failed to render, and the next pipe gets every dropped id
      again exactly when nothing was dropped, or something was counted and the store took it. */
  lemma ResumeSkipsNobody(cfg: Config, s0: State, ls: seq<Label>, p: nat, ok: bool)
    requires ValidConfig(cfg) && cfg.workers == 1 && Reachable(cfg, s0, ls)
    requires Enabled(cfg, After(cfg, s0, ls), ByCleanup(p, Flush(ok)))
    ensures var s := After(cfg, s0, ls); var x := s.pipes[p]; var log := x.log;
      var t := Apply(cfg, s, ByCleanup(p, Flush(ok)));
      && x.camp in t.rows
      && (forall i | 0 <= i < |log.fetched| && log.fetched[i] <= x.lastID ::
            Attempted(log, log.fetched[i]) || log.fetched[i] in log.unrendered)
      && ((forall i | 0 <= i < |log.dropped| :: log.dropped[i] > t.rows[x.camp].checkpoint)
          <==> log.dropped == [] || (ok && x.lastID > 0))
  {
    var s := After(cfg, s0, ls);
    InvInit(cfg, s0);
    OrderRun(cfg, s0, ls);
    FlushCutsAt(cfg, s, p, ok);
  }

  /** The same in every state that satisfies the invariant. */
  lemma FlushCutsAt(cfg: Config, s: State, p: nat, ok: bool)
    requires OrderInv(cfg, s) && CleanEnabled(cfg, s, p, Flush(ok))
    ensures var x := s.pipes[p]; var log := x.log;
      var checkpoint := CleanRow(cfg, s, p, Flush(ok)).checkpoint;
      && (forall x | x in log.fetched :: Attempted(log, x) || x in log.unrendered || x in log.dropped)
      && (forall i | 0 <= i < |log.fetched| && log.fetched[i] <= x.lastID ::
            Attempted(log, log.fetched[i]) || log.fetched[i] in log.unrendered)
      && checkpoint <= Last(log.fetched, log.start)
      && ((forall i | 0 <= i < |log.dropped| :: log.dropped[i] > checkpoint)
          <==> log.dropped == [] || (ok && x.lastID > 0))
  {
    var x, log := s.pipes[p], s.pipes[p].log;
    assert InOrder(s, p) && Tracked(s, p) && PipeOk(s, p) && WgOk(s, p);
    forall i | 0 <= i < |log.dropped| ensures x.lastID > 0 ==> log.dropped[i] > x.lastID {
      if x.lastID > 0 { var k :| 0 <= k < |log.succeeded| && log.succeeded[k] == x.lastID; }
    }
    forall y | y in log.fetched ensures Attempted(log, y) || y in log.unrendered || y in log.dropped {
      FateAt(s, p, y);
    }
    if x.lastID > 0 {
      BelowNextBatch(s, p, x.lastID);
    }
    if log.dropped != [] {
      BelowNextBatch(s, p, log.dropped[0]);
    }
  }

  /** At cleanup a fetched id has a fate. */
  lemma FateAt(s: State, p: nat, x: nat)
    requires HasPipe(s, p) && PipeOk(s, p) && WgOk(s, p) && s.pipes[p].wg == 0 && x in s.pipes[p].log.fetched
    ensures var log := s.pipes[p].log; Attempted(log, x) || x in log.unrendered || x in log.dropped
  {
    var log := s.pipes[p].log;
    assert Conserved(s, p, x);
    Quiet(s, p);
    CountPositive(s.queue, m => IsMsg(m, p, x));
    CountPositive(s.workers, w => IsOpen(w, p, x));
    TimesPositive(log.fetched, x);
    TimesPositive(log.succeeded, x);
    TimesPositive(log.failed, x);
    TimesPositive(log.unrendered, x);
    TimesPositive(log.dropped, x);
  }
}
