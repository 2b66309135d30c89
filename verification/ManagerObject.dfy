/**
  The manager's own blocks as methods: what a worker does with one message, the cleanup of a pipe, the counts
  taken by a scan, and the stop of a campaign.  Each block that spans several steps of the state machine of
  `CampaignModel` is tied to these steps, taken in a row.
*/
module ManagerObject {
  import opened Wrappers
  import opened CampaignModel
  import opened PipeObject

  // ---------------------------------------------------------------- one message

  /** A pipe after a worker has dealt with one of its messages. */
  function Handled(cfg: Config, x: Pipe, id: nat, ok: bool): Pipe {
    if x.stopped then x.(wg := x.wg - 1, log := x.log.(dropped := x.log.dropped + [id]))
    else
      var y := Logged(x, id, ok).(wg := x.wg - 1);
      if ok then CountSuccess(y, id) else OnErrorResult(cfg, y)
  }

  /** The worker's block for a message of pipe `p`, where `ok` is what the messenger would answer. */
  method HandleMessage(cfg: Config, p: PipeCell, id: nat, ok: bool) returns (pushed: bool)
    modifies p
    ensures p.Model() == Handled(cfg, old(p.Model()), id, ok)
    ensures pushed <==> !old(p.stopped)
  {
    if p.stopped {
      p.log := p.log.(dropped := p.log.dropped + [id]);
      p.Done();
      return false;
    }
    p.log := Logged(p.Model(), id, ok).log;
    p.Done();
    if !ok {
      p.OnError(cfg);
    } else {
      p.Succeeded(id);
    }
    return true;
  }

  /** The worker's steps for the message in its hand, without interleaving. */
  function HandleSteps(cfg: Config, x: Pipe, w: nat, ok: bool): seq<Label> {
    if x.stopped then [ByWorker(w, CheckStop), ByWorker(w, MarkDone)]
    else
      [ByWorker(w, CheckStop), ByWorker(w, Push(ok)), ByWorker(w, MarkDone), ByWorker(w, Tally)]
      + if !ok && Trips(cfg, x) then [ByWorker(w, RaiseStop)] else []
  }

  /** The history of the campaign: a success, lost if the pipe is no longer the registered one. */
  function HandledBooks(s: State, p: nat, id: nat, ok: bool): map<int, Books>
    requires HasPipe(s, p) && s.pipes[p].camp in s.books
  {
    var c := s.pipes[p].camp;
    var b := s.books[c];
    if s.pipes[p].stopped || !ok then s.books
    else s.books[c := b.(wins := b.wins + [id], lost := if Registered(s, p) then b.lost else b.lost + 1)]
  }

  /** The state with worker `w`, pipe `p` and the history replaced. */
  function With(s: State, w: nat, p: nat, h: Worker, y: Pipe, b: map<int, Books>): State
    requires w < |s.workers| && HasPipe(s, p)
  {
    s.(workers := s.workers[w := h], pipes := s.pipes[p := y], books := b)
  }

  /** One step of a worker that acts for pipe `p`, from a state that differs from `s` in these three. */
  lemma StepWith(cfg: Config, s: State, w: nat, p: nat, h: Worker, y: Pipe, b: map<int, Books>, a: WorkAct)
    requires w < |s.workers| && HasPipe(s, p) && !a.Dequeue?
    requires Target(h) == Some(p) && WorkEnabled(cfg, With(s, w, p, h, y, b), w, a)
    ensures var u := With(s, w, p, h, y, b);
      WorkApply(cfg, u, w, a)
      == With(s, w, p, NextWorker(cfg, u, h, a), WorkPipe(cfg, y, h, a), WorkBooks(cfg, u, h, a))
  {
    var u := With(s, w, p, h, y, b);
    var t := WorkApply(cfg, u, w, a);
    assert u.workers[w] == h && u.pipes[p] == y;
    assert t.workers == s.workers[w := NextWorker(cfg, u, h, a)];
    assert t.pipes == s.pipes[p := WorkPipe(cfg, y, h, a)];
  }

  /** Worker `w` holds the message of pipe `p` for `id`. */
  predicate Holding(s: State, w: nat, p: nat, id: nat) {
    && w < |s.workers| && HasPipe(s, p) && s.pipes[p].camp in s.books
    && s.workers[w] == Held(Msg(s.pipes[p].camp, id, Some(p)))
  }

  /** The state after the message has been dealt with. */
  function AfterMessage(cfg: Config, s: State, w: nat, p: nat, id: nat, ok: bool): State
    requires Holding(s, w, p, id)
  {
    With(s, w, p, Free, Handled(cfg, s.pipes[p], id, ok), HandledBooks(s, p, id, ok))
  }

  lemma DropSteps(cfg: Config, s: State, w: nat, p: nat, id: nat)
    requires Holding(s, w, p, id) && s.pipes[p].stopped
    ensures var ls := [ByWorker(w, CheckStop), ByWorker(w, MarkDone)];
      IsRun(cfg, s, ls) && After(cfg, s, ls) == AfterMessage(cfg, s, w, p, id, false)
  {
    var m, x := s.workers[w].msg, s.pipes[p];
    var y := x.(log := x.log.(dropped := x.log.dropped + [id]));
    assert With(s, w, p, Held(m), x, s.books) == s;
    StepWith(cfg, s, w, p, Held(m), x, s.books, CheckStop);
    var u := With(s, w, p, Dropping(m), y, s.books);
    assert Apply(cfg, s, ByWorker(w, CheckStop)) == u;
    StepWith(cfg, s, w, p, Dropping(m), y, s.books, MarkDone);
    assert After(cfg, Apply(cfg, u, ByWorker(w, MarkDone)), []) == AfterMessage(cfg, s, w, p, id, false);
    Prepended(cfg, u, ByWorker(w, MarkDone), []);
    Prepended(cfg, s, ByWorker(w, CheckStop), [ByWorker(w, MarkDone)]);
  }

  /** From `Done` on: the counters, and the stop flag if the errors reach the limit. */
  lemma TallySteps(cfg: Config, s: State, w: nat, p: nat, m: Msg, ok: bool, y: Pipe, b: map<int, Books>)
    requires w < |s.workers| && HasPipe(s, p) && y.camp == s.pipes[p].camp
    requires m.pipe == Some(p) && m.camp == y.camp && m.camp in b
    ensures var u := With(s, w, p, Tallying(m, ok), y, b);
      var ls := [ByWorker(w, Tally)] + (if !ok && Trips(cfg, y) then [ByWorker(w, RaiseStop)] else []);
      var lost := if ok && !Registered(s, p) then b[m.camp].lost + 1 else b[m.camp].lost;
      && IsRun(cfg, u, ls)
      && After(cfg, u, ls) == With(s, w, p, Free, if ok then CountSuccess(y, m.id) else OnErrorResult(cfg, y),
                                   b[m.camp := b[m.camp].(lost := lost)])
  {
    var u := With(s, w, p, Tallying(m, ok), y, b);
    StepWith(cfg, s, w, p, Tallying(m, ok), y, b, Tally);
    var u1 := Apply(cfg, u, ByWorker(w, Tally));
    assert u1.books == WorkBooks(cfg, u, Tallying(m, ok), Tally);
    var raise := [ByWorker(w, RaiseStop)];
    if !ok && Trips(cfg, y) {
      var y1 := CountError(cfg, y);
      assert b[m.camp := b[m.camp]] == b;
      assert u1 == With(s, w, p, Raising(p), y1, b);
      StepWith(cfg, s, w, p, Raising(p), y1, b, RaiseStop);
      Prepended(cfg, u1, ByWorker(w, RaiseStop), []);
      Prepended(cfg, u, ByWorker(w, Tally), raise);
    } else {
      assert b[m.camp := b[m.camp]] == b;
      Prepended(cfg, u, ByWorker(w, Tally), []);
    }
  }

  function Attempted(x: Pipe, id: nat, ok: bool): Pipe { Logged(x, id, ok).(wg := x.wg - 1) }

  function Won(s: State, c: int, id: nat, ok: bool): map<int, Books>
    requires c in s.books
  {
    if ok then s.books[c := s.books[c].(wins := s.books[c].wins + [id])] else s.books
  }

  lemma CheckPasses(cfg: Config, s: State, w: nat, p: nat, id: nat)
    requires Holding(s, w, p, id) && !s.pipes[p].stopped
    ensures Enabled(cfg, s, ByWorker(w, CheckStop))
    ensures Apply(cfg, s, ByWorker(w, CheckStop)) == With(s, w, p, Cleared(s.workers[w].msg), s.pipes[p], s.books)
  {
    var m, x := s.workers[w].msg, s.pipes[p];
    assert With(s, w, p, Held(m), x, s.books) == s;
    StepWith(cfg, s, w, p, Held(m), x, s.books, CheckStop);
  }

  lemma PushAndDone(cfg: Config, s: State, w: nat, p: nat, id: nat, ok: bool, ls: seq<Label>)
    requires Holding(s, w, p, id)
    requires var m, x := s.workers[w].msg, s.pipes[p];
      IsRun(cfg, With(s, w, p, Tallying(m, ok), Attempted(x, id, ok), Won(s, m.camp, id, ok)), ls)
    ensures var m, x := s.workers[w].msg, s.pipes[p];
      var u := With(s, w, p, Cleared(m), x, s.books);
      var all := [ByWorker(w, Push(ok)), ByWorker(w, MarkDone)] + ls;
      && IsRun(cfg, u, all)
      && After(cfg, u, all)
         == After(cfg, With(s, w, p, Tallying(m, ok), Attempted(x, id, ok), Won(s, m.camp, id, ok)), ls)
  {
    var m, x := s.workers[w].msg, s.pipes[p];
    var y, b := Logged(x, id, ok), Won(s, m.camp, id, ok);
    var u1, u2 := With(s, w, p, Cleared(m), x, s.books), With(s, w, p, Pushed(m, ok), y, b);
    StepWith(cfg, s, w, p, Cleared(m), x, s.books, Push(ok));
    assert Apply(cfg, u1, ByWorker(w, Push(ok))) == u2;
    StepWith(cfg, s, w, p, Pushed(m, ok), y, b, MarkDone);
    Prepended(cfg, u2, ByWorker(w, MarkDone), ls);
    Prepended(cfg, u1, ByWorker(w, Push(ok)), [ByWorker(w, MarkDone)] + ls);
    assert [ByWorker(w, Push(ok)), ByWorker(w, MarkDone)] + ls
      == [ByWorker(w, Push(ok))] + ([ByWorker(w, MarkDone)] + ls);
  }

  /** Stop check, push and `Done`, before the steps `ls`. */
  lemma AttemptSteps(cfg: Config, s: State, w: nat, p: nat, id: nat, ok: bool, ls: seq<Label>)
    requires Holding(s, w, p, id) && !s.pipes[p].stopped
    requires var m, x := s.workers[w].msg, s.pipes[p];
      IsRun(cfg, With(s, w, p, Tallying(m, ok), Attempted(x, id, ok), Won(s, m.camp, id, ok)), ls)
    ensures var m, x := s.workers[w].msg, s.pipes[p];
      var all := [ByWorker(w, CheckStop), ByWorker(w, Push(ok)), ByWorker(w, MarkDone)] + ls;
      && IsRun(cfg, s, all)
      && After(cfg, s, all)
         == After(cfg, With(s, w, p, Tallying(m, ok), Attempted(x, id, ok), Won(s, m.camp, id, ok)), ls)
  {
    var m, x := s.workers[w].msg, s.pipes[p];
    CheckPasses(cfg, s, w, p, id);
    PushAndDone(cfg, s, w, p, id, ok, ls);
    var later := [ByWorker(w, Push(ok)), ByWorker(w, MarkDone)] + ls;
    Prepended(cfg, s, ByWorker(w, CheckStop), later);
    assert [ByWorker(w, CheckStop), ByWorker(w, Push(ok)), ByWorker(w, MarkDone)] + ls
      == [ByWorker(w, CheckStop)] + later;
  }

  lemma PushSteps(cfg: Config, s: State, w: nat, p: nat, id: nat, ok: bool)
    requires Holding(s, w, p, id) && !s.pipes[p].stopped
    ensures var ls := HandleSteps(cfg, s.pipes[p], w, ok);
      IsRun(cfg, s, ls) && After(cfg, s, ls) == AfterMessage(cfg, s, w, p, id, ok)
  {
    var m, x := s.workers[w].msg, s.pipes[p];
    var y, b := Attempted(x, id, ok), Won(s, m.camp, id, ok);
    TallySteps(cfg, s, w, p, m, ok, y, b);
    var ls := [ByWorker(w, Tally)] + (if !ok && Trips(cfg, y) then [ByWorker(w, RaiseStop)] else []);
    AttemptSteps(cfg, s, w, p, id, ok, ls);
    assert HandleSteps(cfg, x, w, ok)
      == [ByWorker(w, CheckStop), ByWorker(w, Push(ok)), ByWorker(w, MarkDone)] + ls;
    WonOrLost(s, p, id, ok);
  }

  lemma WonOrLost(s: State, p: nat, id: nat, ok: bool)
    requires HasPipe(s, p) && s.pipes[p].camp in s.books && !s.pipes[p].stopped
    ensures var c := s.pipes[p].camp; var b := Won(s, c, id, ok);
      var lost := if ok && !Registered(s, p) then b[c].lost + 1 else b[c].lost;
      b[c := b[c].(lost := lost)] == HandledBooks(s, p, id, ok)
  {}

  /** Taken in a row, a worker's steps for a message do what the worker's block does. */
  lemma MessageIsBlock(cfg: Config, s: State, w: nat, p: nat, id: nat, ok: bool)
    requires Holding(s, w, p, id)
    ensures var ls := HandleSteps(cfg, s.pipes[p], w, ok);
      IsRun(cfg, s, ls) && After(cfg, s, ls) == AfterMessage(cfg, s, w, p, id, ok)
  {
    if s.pipes[p].stopped {
      DropSteps(cfg, s, w, p, id);
    } else {
      PushSteps(cfg, s, w, p, id, ok);
    }
  }

  /** Stopping a registered pipe is the step of the API, and not a stop by errors. */
  lemma StopIsApiStep(cfg: Config, s: State, c: int)
    requires c in s.registry && HasPipe(s, s.registry[c])
    ensures ApiEnabled(cfg, s, ApiAct.StopCampaign(c))
    ensures var p := s.registry[c]; var t := ApiApply(cfg, s, ApiAct.StopCampaign(c));
      && t == s.(pipes := s.pipes[p := StopResult(s.pipes[p], false)])
      && t.pipes[p].stopped && t.pipes[p].withErrors == s.pipes[p].withErrors && t.pipes[p].log == s.pipes[p].log
  {
    var p := s.registry[c];
    assert s.pipes[p].stopped ==> s.pipes[p].(stopped := true) == s.pipes[p];
  }

  // ---------------------------------------------------------------- cleanup

  /** What the store answers to the calls of a cleanup. */
  datatype Answers = Answers(counts: bool, pause: bool, read: bool, finish: bool)

  function FlushedRow(x: Pipe, r: Row, a: Answers): Row {
    if a.counts then CountsStored(r, x.sent, x.lastID) else r
  }

  /** How a cleanup ends, for a pipe `x` and the row `r` as the flush leaves it. */
  function OutcomeOf(x: Pipe, r: Row, a: Answers): Outcome {
    if x.withErrors then PausedByErrors
    else if x.stopped then Halted
    else if !a.read then Unread
    else if !Active(r) then Ended
    else if a.finish then MarkedFinished
    else MarkFailed
  }

  function EndRow(x: Pipe, r: Row, a: Answers): Row {
    match OutcomeOf(x, r, a)
    case PausedByErrors => if a.pause then r.(status := Paused) else r
    case MarkedFinished => r.(status := Finished)
    case _ => r
  }

  /** The pipe once it is flushed, and once it is gone. */
  function FlushedPipe(x: Pipe, a: Answers): Pipe {
    x.(stage := Flushed, log := x.log.(flushed := if a.counts then x.sent else x.log.flushed))
  }

  function CleanedPipe(x: Pipe, r: Row, a: Answers): Pipe {
    FlushedPipe(x, a).(stage := Gone(OutcomeOf(x, FlushedRow(x, r, a), a)))
  }

  /** Every key once, in some order. */
  ghost predicate Lists(order: seq<int>, keys: set<int>) {
    Distinct(order) && (forall k | 0 <= k < |order| :: order[k] in keys) && forall c | c in keys :: c in order
  }

  /** A pipe after a scan has taken its count. */
  function Taken(x: Pipe): Pipe { x.(sent := 0, log := x.log.(flushed := 0)) }

  class Manager {
    const cfg: Config
    var pipes: map<int, PipeCell>
    var rows: map<int, Row>       // the campaigns in the database

    ghost predicate Valid()
      reads this
    {
      forall c | c in pipes :: pipes[c].camp == c
    }

    constructor (cfg: Config, rows: map<int, Row>)
      ensures Valid() && this.cfg == cfg && this.rows == rows && pipes == map[]
    {
      this.cfg, this.rows := cfg, rows;
      pipes := map[];
    }

    method StopCampaign(id: int)
      requires Valid()
      modifies pipes.Values
      ensures pipes == old(pipes)
      ensures id in pipes ==> pipes[id].Model() == StopResult(old(pipes[id].Model()), false)
      ensures forall c | c in pipes && c != id :: pipes[c].Model() == old(pipes[c].Model())
    {
      if id in pipes {
        assert pipes[id] in pipes.Values;
        pipes[id].Stop(false);
      }
    }

    /** The counts of all registered pipes, each taken and set back to zero, in whatever order the map yields. */
    method GetCurrentCampaigns(order: seq<int>) returns (ids: seq<int>, counts: seq<nat>)
      requires Valid() && Lists(order, pipes.Keys)
      modifies pipes.Values
      ensures pipes == old(pipes) && ids == order && |counts| == |ids|
      ensures forall k | 0 <= k < |ids| :: counts[k] == old(pipes[ids[k]].sent)
      ensures forall c | c in pipes :: pipes[c].Model() == Taken(old(pipes[c].Model()))
    {
      ids, counts := [], [];
      var n := 0;
      while n < |order|
        invariant 0 <= n <= |order| && pipes == old(pipes) && ids == order[..n] && |counts| == n
        invariant forall k | 0 <= k < n :: counts[k] == old(pipes[order[k]].sent)
        invariant forall k | 0 <= k < n :: pipes[order[k]].Model() == Taken(old(pipes[order[k]].Model()))
        invariant forall k | n <= k < |order| :: pipes[order[k]].Model() == old(pipes[order[k]].Model())
      {
        var p := pipes[order[n]];
        assert p in pipes.Values;
        assert forall k | n < k < |order| :: pipes[order[k]].camp == order[k] != order[n];
        ids := ids + [order[n]];
        counts := counts + [p.sent];
        p.sent := 0;
        p.log := p.log.(flushed := 0);
        n := n + 1;
      }
    }

    method Cleanup(p: PipeCell, a: Answers)
      requires p.camp in rows
      modifies this, p
      ensures pipes == old(pipes) - {p.camp}
      ensures p.Model() == CleanedPipe(old(p.Model()), old(rows)[p.camp], a)
      ensures var r := FlushedRow(old(p.Model()), old(rows)[p.camp], a);
        rows == old(rows)[p.camp := EndRow(old(p.Model()), r, a)]
    {
      ghost var x := p.Model();
      ghost var r := FlushedRow(x, rows[p.camp], a);
      if a.counts {
        rows := rows[p.camp := CountsStored(rows[p.camp], p.sent, p.lastID)];
        p.log := p.log.(flushed := p.sent);
      }
      if p.withErrors {
        if a.pause {
          rows := rows[p.camp := rows[p.camp].(status := Paused)];
        }
      } else if p.stopped {
        // Stopped by hand: the row has its status already.
      } else if !a.read {
        // The status is unknown; a later scan picks the campaign up again.
      } else if Active(rows[p.camp]) {
        if a.finish {
          rows := rows[p.camp := rows[p.camp].(status := Finished)];
        }
      }
      p.stage := Gone(OutcomeOf(x, r, a));
      pipes := pipes - {p.camp};
    }
  }

  // ---------------------------------------------------------------- the cleanup and the state machine

  /** The steps of a cleanup, without interleaving, for the row `r` as the flush leaves it. */
  function CleanSteps(p: nat, x: Pipe, r: Row, a: Answers): seq<Label> {
    [ByCleanup(p, Flush(a.counts)), ByCleanup(p, ReadErrors)] + LaterSteps(p, x, r, a)
  }

  function LaterSteps(p: nat, x: Pipe, r: Row, a: Answers): seq<Label> {
    if x.withErrors then [ByCleanup(p, PauseRow(a.pause)), ByCleanup(p, Unregister)]
    else [ByCleanup(p, ReadStopped)] + StatusSteps(p, x, r, a)
  }

  function StatusSteps(p: nat, x: Pipe, r: Row, a: Answers): seq<Label> {
    if x.stopped then [ByCleanup(p, Unregister)]
    else
      [ByCleanup(p, ReadRow(a.read))]
      + (if a.read && Active(r) then [ByCleanup(p, FinishRow(a.finish))] else [])
      + [ByCleanup(p, Unregister)]
  }

  /** The state with pipe `p`, the row and the history of its campaign replaced. */
  function Cleaning(s: State, p: nat, y: Pipe, r: Row, b: Books): State
    requires HasPipe(s, p)
  {
    var c := s.pipes[p].camp;
    s.(pipes := s.pipes[p := y], rows := s.rows[c := r], books := s.books[c := b])
  }

  function Removed(s: State, p: nat, y: Pipe, r: Row, b: Books): State
    requires HasPipe(s, p) && y.stage.Deleting?
  {
    Cleaning(s, p, y.(stage := Gone(y.stage.outcome)), r, b.(lost := b.lost + Unflushed(y)))
    .(registry := s.registry - {s.pipes[p].camp})
  }

  lemma LastStep(cfg: Config, s: State, p: nat, y: Pipe, r: Row, b: Books)
    requires HasPipe(s, p) && y.camp == s.pipes[p].camp && y.stage.Deleting?
    ensures var u := Cleaning(s, p, y, r, b); var ls := [ByCleanup(p, Unregister)];
      IsRun(cfg, u, ls) && After(cfg, u, ls) == Removed(s, p, y, r, b)
  {
    var u := Cleaning(s, p, y, r, b);
    var t := CleanApply(cfg, u, p, Unregister);
    assert t.pipes == Removed(s, p, y, r, b).pipes;
    assert t.rows == Removed(s, p, y, r, b).rows && t.books == Removed(s, p, y, r, b).books;
    Prepended(cfg, u, ByCleanup(p, Unregister), []);
  }

  /** One of the steps between the flush and the removal, before the steps `ls`. */
  lemma StepBefore(cfg: Config, s: State, p: nat, y: Pipe, r: Row, b: Books, a: CleanAct, ls: seq<Label>)
    requires HasPipe(s, p) && y.camp == s.pipes[p].camp && !a.Flush? && !a.Unregister?
    requires var u := Cleaning(s, p, y, r, b);
      CleanEnabled(cfg, u, p, a)
      && IsRun(cfg, Cleaning(s, p, y.(stage := NextStage(cfg, u, p, a)), CleanRow(cfg, u, p, a), b), ls)
    ensures var u := Cleaning(s, p, y, r, b);
      && IsRun(cfg, u, [ByCleanup(p, a)] + ls)
      && After(cfg, u, [ByCleanup(p, a)] + ls)
         == After(cfg, Cleaning(s, p, y.(stage := NextStage(cfg, u, p, a)), CleanRow(cfg, u, p, a), b), ls)
  {
    var u := Cleaning(s, p, y, r, b);
    var t := CleanApply(cfg, u, p, a);
    var v := Cleaning(s, p, y.(stage := NextStage(cfg, u, p, a)), CleanRow(cfg, u, p, a), b);
    assert t.pipes == v.pipes && t.rows == v.rows && t.books == v.books && t.registry == v.registry;
    Prepended(cfg, u, ByCleanup(p, a), ls);
  }

  lemma FinishRun(cfg: Config, s: State, p: nat, y: Pipe, r: Row, b: Books, a: Answers)
    requires HasPipe(s, p) && y.camp == s.pipes[p].camp && y.stage == Marking
    ensures var u := Cleaning(s, p, y, r, b);
      var ls := [ByCleanup(p, FinishRow(a.finish)), ByCleanup(p, Unregister)];
      && IsRun(cfg, u, ls)
      && After(cfg, u, ls)
         == Removed(s, p, y.(stage := Deleting(if a.finish then MarkedFinished else MarkFailed)),
                    if a.finish then r.(status := Finished) else r, b)
  {
    LastStep(cfg, s, p, y.(stage := Deleting(if a.finish then MarkedFinished else MarkFailed)),
             if a.finish then r.(status := Finished) else r, b);
    StepBefore(cfg, s, p, y, r, b, FinishRow(a.finish), [ByCleanup(p, Unregister)]);
    assert [ByCleanup(p, FinishRow(a.finish)), ByCleanup(p, Unregister)]
      == [ByCleanup(p, FinishRow(a.finish))] + [ByCleanup(p, Unregister)];
  }

  lemma LeaveRun(cfg: Config, s: State, p: nat, y: Pipe, r: Row, b: Books, a: Answers)
    requires HasPipe(s, p) && y.camp == s.pipes[p].camp && !y.withErrors && !y.stopped && y.stage == Finishing
    requires !a.read || !Active(r)
    ensures var u := Cleaning(s, p, y, r, b); var ls := StatusSteps(p, y, r, a);
      && IsRun(cfg, u, ls)
      && After(cfg, u, ls) == Removed(s, p, y.(stage := Deleting(OutcomeOf(y, r, a))), EndRow(y, r, a), b)
  {
    LastStep(cfg, s, p, y.(stage := Deleting(OutcomeOf(y, r, a))), r, b);
    StepBefore(cfg, s, p, y, r, b, ReadRow(a.read), [ByCleanup(p, Unregister)]);
    assert StatusSteps(p, y, r, a) == [ByCleanup(p, ReadRow(a.read))] + [ByCleanup(p, Unregister)];
  }

  lemma ReadsActive(cfg: Config, s: State, p: nat, y: Pipe, r: Row, b: Books, ls: seq<Label>)
    requires HasPipe(s, p) && y.camp == s.pipes[p].camp && y.stage == Finishing && Active(r)
    requires IsRun(cfg, Cleaning(s, p, y.(stage := Marking), r, b), ls)
    ensures var u := Cleaning(s, p, y, r, b);
      && IsRun(cfg, u, [ByCleanup(p, ReadRow(true))] + ls)
      && After(cfg, u, [ByCleanup(p, ReadRow(true))] + ls)
         == After(cfg, Cleaning(s, p, y.(stage := Marking), r, b), ls)
  {
    StepBefore(cfg, s, p, y, r, b, ReadRow(true), ls);
  }

  lemma ReadAndFinishRun(cfg: Config, s: State, p: nat, y: Pipe, r: Row, b: Books, a: Answers)
    requires HasPipe(s, p) && y.camp == s.pipes[p].camp && !y.withErrors && !y.stopped && y.stage == Finishing
    requires a.read && Active(r)
    ensures var u := Cleaning(s, p, y, r, b); var ls := StatusSteps(p, y, r, a);
      && IsRun(cfg, u, ls)
      && After(cfg, u, ls) == Removed(s, p, y.(stage := Deleting(OutcomeOf(y, r, a))), EndRow(y, r, a), b)
  {
    FinishRun(cfg, s, p, y.(stage := Marking), r, b, a);
    var ls := [ByCleanup(p, FinishRow(a.finish)), ByCleanup(p, Unregister)];
    ReadsActive(cfg, s, p, y, r, b, ls);
    assert StatusSteps(p, y, r, a) == [ByCleanup(p, ReadRow(true))] + ls;
  }

  lemma StatusRun(cfg: Config, s: State, p: nat, y: Pipe, r: Row, b: Books, a: Answers)
    requires HasPipe(s, p) && y.camp == s.pipes[p].camp && !y.withErrors
    requires y.stage == if y.stopped then Deleting(Halted) else Finishing
    ensures var u := Cleaning(s, p, y, r, b); var ls := StatusSteps(p, y, r, a);
      && IsRun(cfg, u, ls)
      && After(cfg, u, ls) == Removed(s, p, y.(stage := Deleting(OutcomeOf(y, r, a))), EndRow(y, r, a), b)
  {
    if y.stopped {
      LastStep(cfg, s, p, y, r, b);
    } else if a.read && Active(r) {
      ReadAndFinishRun(cfg, s, p, y, r, b, a);
    } else {
      LeaveRun(cfg, s, p, y, r, b, a);
    }
  }

  lemma LaterRun(cfg: Config, s: State, p: nat, y: Pipe, r: Row, b: Books, a: Answers)
    requires HasPipe(s, p) && y.camp == s.pipes[p].camp
    requires y.stage == if y.withErrors then Pausing else NoErrors
    ensures var u := Cleaning(s, p, y, r, b); var ls := LaterSteps(p, y, r, a);
      && IsRun(cfg, u, ls)
      && After(cfg, u, ls) == Removed(s, p, y.(stage := Deleting(OutcomeOf(y, r, a))), EndRow(y, r, a), b)
  {
    if y.withErrors {
      LastStep(cfg, s, p, y.(stage := Deleting(PausedByErrors)), EndRow(y, r, a), b);
      StepBefore(cfg, s, p, y, r, b, PauseRow(a.pause), [ByCleanup(p, Unregister)]);
      assert LaterSteps(p, y, r, a) == [ByCleanup(p, PauseRow(a.pause))] + [ByCleanup(p, Unregister)];
    } else {
      var z := y.(stage := if y.stopped then Deleting(Halted) else Finishing);
      StatusRun(cfg, s, p, z, r, b, a);
      StepBefore(cfg, s, p, y, r, b, ReadStopped, StatusSteps(p, y, r, a));
    }
  }

  /** A pipe whose cleanup may start. */
  predicate Drained(s: State, p: nat) {
    HasPipe(s, p) && s.pipes[p].stage == Waiting && s.pipes[p].wg == 0
    && s.pipes[p].camp in s.rows && s.pipes[p].camp in s.books
  }

  /** From the flush on: the state is `Cleaning` with the flushed pipe, and the rest ends in `Removed`. */
  lemma FlushedRun(cfg: Config, s: State, p: nat, y: Pipe, r: Row, b: Books, a: Answers)
    requires HasPipe(s, p) && y.camp == s.pipes[p].camp && y.stage == Flushed
    ensures var u := Cleaning(s, p, y, r, b);
      var ls := [ByCleanup(p, ReadErrors)] + LaterSteps(p, y, r, a);
      && IsRun(cfg, u, ls)
      && After(cfg, u, ls) == Removed(s, p, y.(stage := Deleting(OutcomeOf(y, r, a))), EndRow(y, r, a), b)
  {
    LaterRun(cfg, s, p, y.(stage := if y.withErrors then Pausing else NoErrors), r, b, a);
    StepBefore(cfg, s, p, y, r, b, ReadErrors, LaterSteps(p, y, r, a));
  }

  lemma FlushIsCleaning(cfg: Config, s: State, p: nat, a: Answers) returns (b: Books)
    requires Drained(s, p)
    ensures var x, row := s.pipes[p], s.rows[s.pipes[p].camp];
      CleanEnabled(cfg, s, p, Flush(a.counts))
      && CleanApply(cfg, s, p, Flush(a.counts)) == Cleaning(s, p, FlushedPipe(x, a), FlushedRow(x, row, a), b)
  {
    b := CleanBooks(cfg, s, p, Flush(a.counts));
  }

  /** Taken in a row, the steps of a cleanup leave pipe, row and registry as the method does. */
  lemma CleanupIsMethod(cfg: Config, s: State, p: nat, a: Answers)
    requires Drained(s, p)
    ensures var x, row := s.pipes[p], s.rows[s.pipes[p].camp];
      var r := FlushedRow(x, row, a); var ls := CleanSteps(p, x, r, a);
      && IsRun(cfg, s, ls)
      && var t := After(cfg, s, ls);
         && t.pipes == s.pipes[p := CleanedPipe(x, row, a)]
         && t.rows == s.rows[x.camp := EndRow(x, r, a)]
         && t.registry == s.registry - {x.camp}
         && t.nextPipes == s.nextPipes && t.queue == s.queue && t.workers == s.workers
  {
    var x, row := s.pipes[p], s.rows[s.pipes[p].camp];
    var r, y := FlushedRow(x, row, a), FlushedPipe(x, a);
    var b := FlushIsCleaning(cfg, s, p, a);
    FlushedRun(cfg, s, p, y, r, b, a);
    var ls := [ByCleanup(p, ReadErrors)] + LaterSteps(p, x, r, a);
    Prepended(cfg, s, ByCleanup(p, Flush(a.counts)), ls);
    assert CleanSteps(p, x, r, a) == [ByCleanup(p, Flush(a.counts))] + ls;
  }

  // ---------------------------------------------------------------- the snapshot

  /** The counts of the registered pipes taken one after the other, in the given order of campaigns. */
  function TakeEach(pipes: seq<Pipe>, registry: map<int, nat>, order: seq<int>): (seq<Pipe>, map<int, nat>)
    requires forall k | 0 <= k < |order| :: order[k] in registry && registry[order[k]] < |pipes|
    decreases |order|
  {
    if order == [] then (pipes, map[])
    else
      var p := registry[order[0]];
      var rest := TakeEach(pipes[p := Taken(pipes[p])], registry, order[1..]);
      (rest.0, rest.1[order[0] := pipes[p].sent])
  }

  predicate OwnPipes(pipes: seq<Pipe>, registry: map<int, nat>, order: seq<int>) {
    forall k | 0 <= k < |order| ::
      order[k] in registry && registry[order[k]] < |pipes| && pipes[registry[order[k]]].camp == order[k]
  }

  /** Every listed pipe is taken once, with the count it had before, and no other is touched. */
  lemma {:induction false} EachIsTakenOnce(pipes: seq<Pipe>, registry: map<int, nat>, order: seq<int>)
    requires Distinct(order) && OwnPipes(pipes, registry, order)
    ensures var (after, counts) := TakeEach(pipes, registry, order);
      && |after| == |pipes|
      && (forall p | 0 <= p < |pipes| ::
            after[p] == if pipes[p].camp in order && registry[pipes[p].camp] == p then Taken(pipes[p]) else pipes[p])
      && (forall c :: c in counts <==> c in order)
      && (forall k | 0 <= k < |order| :: counts[order[k]] == pipes[registry[order[k]]].sent)
    decreases |order|
  {
    if order != [] {
      var p := registry[order[0]];
      var next := pipes[p := Taken(pipes[p])];
      assert forall k | 0 < k < |order| :: order[k] == order[1..][k - 1] && order[k] != order[0];
      EachIsTakenOnce(next, registry, order[1..]);
    }
  }

  /** The one-step snapshot is what taking the registered pipes one by one gives, in whatever order the map
      yields them. */
  lemma SnapshotIsLoop(cfg: Config, s: State, order: seq<int>)
    requires s.scanner == Asleep && Lists(order, s.registry.Keys) && OwnPipes(s.pipes, s.registry, order)
    ensures ScanEnabled(cfg, s, Snapshot)
    ensures var t := ScanApply(cfg, s, Snapshot); var (after, counts) := TakeEach(s.pipes, s.registry, order);
      && t.pipes == after
      && (forall c :: c in t.scanner.counts <==> c in counts)
      && (forall c | c in counts :: t.scanner.counts[c] == counts[c])
  {
    var t := ScanApply(cfg, s, Snapshot);
    var (after, counts) := TakeEach(s.pipes, s.registry, order);
    EachIsTakenOnce(s.pipes, s.registry, order);
    forall p | 0 <= p < |s.pipes| ensures after[p] == t.pipes[p] {
      assert s.pipes[p].camp in order <==> s.pipes[p].camp in s.registry.Keys;
    }
    forall c | c in counts ensures c in t.scanner.counts && t.scanner.counts[c] == counts[c] {
      var k :| 0 <= k < |order| && order[k] == c;
    }
    forall c | c in t.scanner.counts ensures c in counts {
      assert c in s.registry.Keys;
    }
  }
}
