/**
  The batch loop among the other goroutines.  Whatever workers, scanner, cleanups and API calls do between the
  runner's steps for a batch, and however small the queue is, the messages handed over are those of the loop.
*/
module BatchRuns {
  import opened Wrappers
  import opened CampaignModel
  import opened CampaignWaitGroup
  import opened PipeObject

  function RunnerSteps(ls: seq<Label>): seq<RunAct> {
    if ls == [] then [] else (if ls[0].ByRunner? then [ls[0].run] else []) + RunnerSteps(ls[1..])
  }

  /** The messages of pipe `p` in a queue, in order. */
  function Line(q: seq<Msg>, p: nat): seq<Msg> {
    if q == [] then [] else (if Of(q[0], p) then [q[0]] else []) + Line(q[1..], p)
  }

  /** The messages of pipe `p` that workers take during a run, in order. */
  function Dequeued(cfg: Config, s: State, ls: seq<Label>, p: nat): seq<Msg>
    requires IsRun(cfg, s, ls)
    decreases |ls|
  {
    if ls == [] then []
    else (if ls[0].ByWorker? && ls[0].work.Dequeue? && Of(s.queue[0], p) then [s.queue[0]] else [])
         + Dequeued(cfg, Apply(cfg, s, ls[0]), ls[1..], p)
  }

  predicate Batching(s: State, p: nat) {
    HasPipe(s, p) && (s.runner.Sending? || s.runner.Handing?) && s.runner.pipe == p
  }

  /** The ids whose messages are still to be handed over, and the steps that do it. */
  function IdsToCome(r: Runner, renders: nat -> bool): seq<nat>
    requires r.Sending? || r.Handing?
  {
    (if r.Handing? then [r.id] else []) + BatchIds(r.rest, renders)
  }

  function StepsToCome(r: Runner, renders: nat -> bool): seq<RunAct>
    requires r.Sending? || r.Handing?
  {
    (if r.Handing? then [RunAct.Send] else []) + RunnerSteps(BatchSteps(r.rest, renders))
  }

  /** The ids of a batch whose messages fail to render. */
  function Unrendered(ids: seq<nat>, renders: nat -> bool): seq<nat> {
    if ids == [] then [] else (if renders(ids[0]) then [] else [ids[0]]) + Unrendered(ids[1..], renders)
  }

  lemma {:induction false} LineAppended(q: seq<Msg>, m: Msg, p: nat)
    ensures Line(q + [m], p) == Line(q, p) + if Of(m, p) then [m] else []
  {
    if q == [] {
      assert q + [m] == [m];
    } else {
      assert (q + [m])[1..] == q[1..] + [m];
      LineAppended(q[1..], m, p);
    }
  }

  lemma {:induction false} StepsConcat(a: seq<Label>, b: seq<Label>)
    ensures RunnerSteps(a + b) == RunnerSteps(a) + RunnerSteps(b)
    decreases |a|
  {
    if a == [] {
      assert a + b == b;
    } else {
      StepsConcat(a[1..], b);
      assert (a + b)[0] == a[0] && (a + b)[1..] == a[1..] + b;
      var head := if a[0].ByRunner? then [a[0].run] else [];
      assert RunnerSteps(a + b) == head + (RunnerSteps(a[1..]) + RunnerSteps(b));
    }
  }

  /** The runner's next step for the batch. */
  lemma NextOfBatch(ids: seq<nat>, renders: nat -> bool)
    requires ids != []
    ensures RunnerSteps(BatchSteps(ids, renders))
      == [Render(renders(ids[0]))] + (if renders(ids[0]) then [RunAct.Send] else [])
         + RunnerSteps(BatchSteps(ids[1..], renders))
    ensures BatchIds(ids, renders) == (if renders(ids[0]) then [ids[0]] else []) + BatchIds(ids[1..], renders)
  {
    var first := [ByRunner(Render(renders(ids[0])))] + (if renders(ids[0]) then [ByRunner(RunAct.Send)] else []);
    assert BatchSteps(ids, renders) == first + BatchSteps(ids[1..], renders);
    StepsConcat(first, BatchSteps(ids[1..], renders));
    assert first[1..] == if renders(ids[0]) then [ByRunner(RunAct.Send)] else [];
    BatchFromFront(NewPipe(0, 0), ids, renders);
  }

  // ---------------------------------------------------------------- one step

  function StepDequeues(s: State, l: Label, p: nat): seq<Msg>
    requires l.ByWorker? && l.work.Dequeue? ==> s.queue != []
  {
    if l.ByWorker? && l.work.Dequeue? && Of(s.queue[0], p) then [s.queue[0]] else []
  }

  /** Runner, pipe and failed ids are as before. */
  predicate SameBatch(s: State, t: State, p: nat)
    requires HasPipe(s, p)
  {
    HasPipe(t, p) && t.runner == s.runner && t.pipes[p].camp == s.pipes[p].camp
    && t.pipes[p].log.unrendered == s.pipes[p].log.unrendered
  }

  lemma ScannerApart(cfg: Config, s: State, a: ScanAct, p: nat)
    requires ScanEnabled(cfg, s, a) && HasPipe(s, p)
    ensures SameBatch(s, ScanApply(cfg, s, a), p)
  {}

  lemma WorkerApart(cfg: Config, s: State, w: nat, a: WorkAct, p: nat)
    requires WorkEnabled(cfg, s, w, a) && HasPipe(s, p)
    ensures SameBatch(s, WorkApply(cfg, s, w, a), p)
    ensures WorkApply(cfg, s, w, a).queue == if a.Dequeue? then s.queue[1..] else s.queue
  {}

  /** The steps of the others leave the batch alone and take messages from the head of the line only. */
  lemma OthersStep(cfg: Config, s: State, l: Label, p: nat)
    requires Enabled(cfg, s, l) && !l.ByRunner? && Batching(s, p)
    ensures var t := Apply(cfg, s, l);
      && Batching(t, p) && t.runner == s.runner && t.pipes[p].camp == s.pipes[p].camp
      && t.pipes[p].log.unrendered == s.pipes[p].log.unrendered
      && StepDequeues(s, l, p) + Line(t.queue, p) == Line(s.queue, p)
  {
    match l
    case ByScanner(a) => ScannerApart(cfg, s, a, p);
    case ByWorker(w, a) => WorkerApart(cfg, s, w, a, p);
    case ByCleanup(q, a) =>
    case ByApi(a) => if a.PushTest? { LineAppended(s.queue, Msg(a.camp, a.id, None), p); }
  }

  /** A step of the runner takes the first of the steps to come, and moves ids from there to the line or to those
      that fail to render. */
  predicate Advanced(s: State, t: State, p: nat, renders: nat -> bool)
    requires Batching(s, p)
  {
    && Batching(t, p) && t.pipes[p].camp == s.pipes[p].camp
    && StepsToCome(s.runner, renders) != [] && StepsToCome(t.runner, renders) == StepsToCome(s.runner, renders)[1..]
    && Line(t.queue, p) + Messages(s.pipes[p].camp, p, IdsToCome(t.runner, renders))
       == Line(s.queue, p) + Messages(s.pipes[p].camp, p, IdsToCome(s.runner, renders))
    && t.pipes[p].log.unrendered + Unrendered(t.runner.rest, renders)
       == s.pipes[p].log.unrendered + Unrendered(s.runner.rest, renders)
  }

  lemma RenderStep(cfg: Config, s: State, p: nat, renders: nat -> bool)
    requires Batching(s, p) && s.runner.Sending? && s.runner.rest != []
    ensures Advanced(s, RunApply(cfg, s, Render(renders(s.runner.rest[0]))), p, renders)
  {
    var rest, ok := s.runner.rest, renders(s.runner.rest[0]);
    var t := RunApply(cfg, s, Render(ok));
    RenderedFromRest(p, rest, renders);
    assert t.runner == AfterRender(p, rest, ok);
    assert t.queue == s.queue && t.pipes[p].camp == s.pipes[p].camp;
    var log, failed := s.pipes[p].log.unrendered, if ok then [] else [rest[0]];
    assert t.pipes[p].log.unrendered == log + failed;
    assert (log + failed) + Unrendered(rest[1..], renders) == log + (failed + Unrendered(rest[1..], renders));
  }

  /** The runner after it has rendered the first of the rest. */
  function AfterRender(p: nat, rest: seq<nat>, ok: bool): Runner
    requires rest != []
  {
    if ok then Handing(p, rest[0], rest[1..]) else Sending(p, rest[1..])
  }

  /** The first id of the rest goes to the runner's hand or to the ids that fail to render. */
  lemma RenderedFromRest(p: nat, rest: seq<nat>, renders: nat -> bool)
    requires rest != []
    ensures var r, ok := Sending(p, rest), renders(rest[0]);
      var r' := AfterRender(p, rest, ok);
      && StepsToCome(r, renders) != [] && StepsToCome(r', renders) == StepsToCome(r, renders)[1..]
      && IdsToCome(r', renders) == IdsToCome(r, renders)
      && Unrendered(rest, renders) == (if ok then [] else [rest[0]]) + Unrendered(rest[1..], renders)
  {
    NextOfBatch(rest, renders);
    var ok := renders(rest[0]);
    StepsAfterRender(p, rest, ok, RunnerSteps(BatchSteps(rest[1..], renders)), renders);
    IdsAfterRender(p, rest, ok, BatchIds(rest[1..], renders), renders);
  }

  lemma StepsAfterRender(p: nat, rest: seq<nat>, ok: bool, steps: seq<RunAct>, renders: nat -> bool)
    requires rest != [] && steps == RunnerSteps(BatchSteps(rest[1..], renders))
    requires RunnerSteps(BatchSteps(rest, renders)) == [Render(ok)] + (if ok then [RunAct.Send] else []) + steps
    ensures StepsToCome(Sending(p, rest), renders) != []
    ensures StepsToCome(AfterRender(p, rest, ok), renders) == StepsToCome(Sending(p, rest), renders)[1..]
  {
    var all := [Render(ok)] + (if ok then [RunAct.Send] else []) + steps;
    assert StepsToCome(Sending(p, rest), renders) == [] + all == all;
    assert all[1..] == (if ok then [RunAct.Send] else []) + steps;
  }

  lemma IdsAfterRender(p: nat, rest: seq<nat>, ok: bool, ids: seq<nat>, renders: nat -> bool)
    requires rest != [] && ids == BatchIds(rest[1..], renders)
    requires BatchIds(rest, renders) == (if ok then [rest[0]] else []) + ids
    ensures IdsToCome(AfterRender(p, rest, ok), renders) == IdsToCome(Sending(p, rest), renders)
  {
    var all := (if ok then [rest[0]] else []) + ids;
    assert IdsToCome(Sending(p, rest), renders) == [] + all == all;
  }

  lemma SendStep(cfg: Config, s: State, p: nat, renders: nat -> bool)
    requires Batching(s, p) && s.runner.Handing? && |s.queue| < cfg.queueCap
    ensures Advanced(s, RunApply(cfg, s, RunAct.Send), p, renders)
  {
    var m, t := Msg(s.pipes[p].camp, s.runner.id, Some(p)), RunApply(cfg, s, RunAct.Send);
    assert t.pipes[p] == s.pipes[p] && t.queue == s.queue + [m] && t.runner == Sending(p, s.runner.rest);
    SentFromHand(s.runner, renders, s.queue, m, p);
  }

  /** The id in the runner's hand goes from the ids to come to the end of the line. */
  lemma SentFromHand(r: Runner, renders: nat -> bool, q: seq<Msg>, m: Msg, p: nat)
    requires r.Handing? && r.pipe == p && m == Msg(m.camp, r.id, Some(p))
    ensures var r' := Sending(p, r.rest);
      && StepsToCome(r, renders) != [] && StepsToCome(r', renders) == StepsToCome(r, renders)[1..]
      && Line(q + [m], p) + Messages(m.camp, p, IdsToCome(r', renders))
         == Line(q, p) + Messages(m.camp, p, IdsToCome(r, renders))
  {
    LineAppended(q, m, p);
    var r', rest := Sending(p, r.rest), BatchIds(r.rest, renders);
    assert IdsToCome(r, renders) == [r.id] + rest && IdsToCome(r', renders) == [] + rest == rest;
    assert Messages(m.camp, p, [r.id] + rest) == [m] + Messages(m.camp, p, rest);
    var steps := RunnerSteps(BatchSteps(r.rest, renders));
    assert StepsToCome(r, renders) == [RunAct.Send] + steps && StepsToCome(r', renders) == [] + steps == steps;
  }

  lemma RunnerStep(cfg: Config, s: State, a: RunAct, p: nat, renders: nat -> bool)
    requires RunEnabled(cfg, s, a) && Batching(s, p)
    requires StepsToCome(s.runner, renders) != [] && a == StepsToCome(s.runner, renders)[0]
    ensures Advanced(s, RunApply(cfg, s, a), p, renders)
  {
    if s.runner.Handing? {
      SendStep(cfg, s, p, renders);
    } else {
      if s.runner.rest != [] {
        NextOfBatch(s.runner.rest, renders);
      }
      RenderStep(cfg, s, p, renders);
    }
  }

  // ---------------------------------------------------------------- any interleaving

  /** The messages taken from the line and those left in it are the old line and one message for each id to come, in
      order, and the ids that fail to render are logged in order. */
  predicate HandedOver(cfg: Config, s: State, ls: seq<Label>, p: nat, renders: nat -> bool)
    requires IsRun(cfg, s, ls) && Batching(s, p)
  {
    var t := After(cfg, s, ls);
    && HasPipe(t, p) && t.runner == Sending(p, [])
    && Dequeued(cfg, s, ls, p) + Line(t.queue, p)
       == Line(s.queue, p) + Messages(s.pipes[p].camp, p, IdsToCome(s.runner, renders))
    && t.pipes[p].log.unrendered == s.pipes[p].log.unrendered + Unrendered(s.runner.rest, renders)
  }

  lemma HandedByRunner(cfg: Config, s: State, ls: seq<Label>, p: nat, renders: nat -> bool)
    requires IsRun(cfg, s, ls) && Batching(s, p) && ls != [] && ls[0].ByRunner?
    requires var u := Apply(cfg, s, ls[0]); Advanced(s, u, p, renders) && HandedOver(cfg, u, ls[1..], p, renders)
    ensures HandedOver(cfg, s, ls, p, renders)
  {
    var u := Apply(cfg, s, ls[0]);
    assert After(cfg, s, ls) == After(cfg, u, ls[1..]);
    assert Dequeued(cfg, s, ls, p) == [] + Dequeued(cfg, u, ls[1..], p) == Dequeued(cfg, u, ls[1..], p);
  }

  lemma HandedByOther(cfg: Config, s: State, ls: seq<Label>, p: nat, renders: nat -> bool)
    requires IsRun(cfg, s, ls) && Batching(s, p) && ls != [] && !ls[0].ByRunner?
    requires var u := Apply(cfg, s, ls[0]); Batching(u, p) && HandedOver(cfg, u, ls[1..], p, renders)
    ensures HandedOver(cfg, s, ls, p, renders)
  {
    var u := Apply(cfg, s, ls[0]);
    OthersStep(cfg, s, ls[0], p);
    var taken, later := StepDequeues(s, ls[0], p), Dequeued(cfg, u, ls[1..], p);
    assert Dequeued(cfg, s, ls, p) == taken + later;
    Shifted(taken, later, Line(After(cfg, u, ls[1..]).queue, p), Line(u.queue, p), Line(s.queue, p),
            Messages(s.pipes[p].camp, p, IdsToCome(s.runner, renders)));
  }

  lemma Shifted(taken: seq<Msg>, later: seq<Msg>, last: seq<Msg>, next: seq<Msg>, first: seq<Msg>, ms: seq<Msg>)
    requires taken + next == first && later + last == next + ms
    ensures (taken + later) + last == first + ms
  {
    assert (taken + later) + last == taken + (later + last);
    assert taken + (next + ms) == (taken + next) + ms;
  }

  /** In every run in which the runner takes the steps of the batch, whatever the others do in between and however
      small the queue is, the batch is handed over as the loop does it. */
  lemma {:induction false} BatchAmongOthers(cfg: Config, s: State, ls: seq<Label>, p: nat, renders: nat -> bool)
    requires IsRun(cfg, s, ls) && Batching(s, p) && RunnerSteps(ls) == StepsToCome(s.runner, renders)
    ensures HandedOver(cfg, s, ls, p, renders)
    decreases |ls|
  {
    if ls == [] {
      NothingToCome(s.runner, renders);
      assert IdsToCome(s.runner, renders) == [];
    } else if ls[0].ByRunner? {
      assert StepsToCome(s.runner, renders)[0] == ls[0].run;
      RunnerStep(cfg, s, ls[0].run, p, renders);
      assert RunnerSteps(ls) == [ls[0].run] + RunnerSteps(ls[1..]);
      BatchAmongOthers(cfg, Apply(cfg, s, ls[0]), ls[1..], p, renders);
      HandedByRunner(cfg, s, ls, p, renders);
    } else {
      OthersStep(cfg, s, ls[0], p);
      assert RunnerSteps(ls) == [] + RunnerSteps(ls[1..]) == RunnerSteps(ls[1..]);
      BatchAmongOthers(cfg, Apply(cfg, s, ls[0]), ls[1..], p, renders);
      HandedByOther(cfg, s, ls, p, renders);
    }
  }

  /** No steps to come means no ids to come. */
  lemma NothingToCome(r: Runner, renders: nat -> bool)
    requires (r.Sending? || r.Handing?) && StepsToCome(r, renders) == []
    ensures r.Sending? && r.rest == []
  {
    if r.rest != [] {
      NextOfBatch(r.rest, renders);
    }
  }

  lemma {:induction false} UnrenderedByLoop(x: Pipe, ids: seq<nat>, renders: nat -> bool)
    ensures BatchPipe(x, ids, renders).log.unrendered == x.log.unrendered + Unrendered(ids, renders)
    decreases |ids|
  {
    if ids != [] {
      BatchFromFront(x, ids, renders);
      UnrenderedByLoop(Rendered(x, ids[0], renders(ids[0])), ids[1..], renders);
    }
  }

  /** From the start of a batch: the queue gets the messages that the loop queues, and the log what the loop logs. */
  lemma BatchIsLoop(cfg: Config, s: State, ls: seq<Label>, p: nat, ids: seq<nat>, renders: nat -> bool)
    requires IsRun(cfg, s, ls) && HasPipe(s, p) && s.runner == Sending(p, ids)
    requires RunnerSteps(ls) == RunnerSteps(BatchSteps(ids, renders))
    ensures var t := After(cfg, s, ls);
      && HasPipe(t, p) && t.runner == Sending(p, [])
      && Dequeued(cfg, s, ls, p) + Line(t.queue, p)
         == Line(s.queue, p) + Messages(s.pipes[p].camp, p, BatchIds(ids, renders))
      && t.pipes[p].log.unrendered == BatchPipe(s.pipes[p], ids, renders).log.unrendered
  {
    assert StepsToCome(s.runner, renders) == [] + RunnerSteps(BatchSteps(ids, renders));
    assert IdsToCome(s.runner, renders) == [] + BatchIds(ids, renders) == BatchIds(ids, renders);
    BatchAmongOthers(cfg, s, ls, p, renders);
    UnrenderedByLoop(s.pipes[p], ids, renders);
  }

  // ---------------------------------------------------------------- a batch larger than the queue

  lemma {:induction false} RunConcat(cfg: Config, s: State, a: seq<Label>, b: seq<Label>)
    requires IsRun(cfg, s, a) && IsRun(cfg, After(cfg, s, a), b)
    ensures IsRun(cfg, s, a + b) && After(cfg, s, a + b) == After(cfg, After(cfg, s, a), b)
    decreases |a|
  {
    if a == [] {
      assert a + b == b;
    } else {
      assert (a + b)[1..] == a[1..] + b;
      RunConcat(cfg, Apply(cfg, s, a[0]), a[1..], b);
    }
  }

  lemma StepFirst(cfg: Config, s: State, l: Label, rest: seq<Label>)
    requires Enabled(cfg, s, l) && IsRun(cfg, Apply(cfg, s, l), rest)
    ensures IsRun(cfg, s, [l] + rest) && After(cfg, s, [l] + rest) == After(cfg, Apply(cfg, s, l), rest)
    ensures RunnerSteps([l] + rest) == (if l.ByRunner? then [l.run] else []) + RunnerSteps(rest)
  {
    assert ([l] + rest)[1..] == rest;
  }

  /** How far a worker is from being free. */
  function ToFree(w: Worker): nat {
    match w
    case Free => 0
    case Held(_) => 5
    case Cleared(_) => 4
    case Dropping(_) => 3
    case Pushed(_, _) => 3
    case Tallying(_, _) => 2
    case Raising(_) => 1
  }

  /** The first worker goes on with its message, or takes the next one. */
  lemma WorkerGoesOn(cfg: Config, s: State) returns (l: Label)
    requires ValidConfig(cfg) && Inv(cfg, s) && s.queue != []
    ensures Enabled(cfg, s, l) && !l.ByRunner?
    ensures var t := Apply(cfg, s, l);
      && Inv(cfg, t) && t.runner == s.runner
      && (|t.queue| < |s.queue| || (|t.queue| == |s.queue| && ToFree(t.workers[0]) < ToFree(s.workers[0])))
  {
    l := ByWorker(0, match s.workers[0]
                     case Free => Dequeue
                     case Held(_) => CheckStop
                     case Cleared(_) => Push(true)
                     case Tallying(_, _) => Tally
                     case Raising(_) => RaiseStop
                     case _ => MarkDone);
    InvStep(cfg, s, l);
  }

  /** The workers make room in a full queue. */
  lemma {:induction false} MakeRoom(cfg: Config, s: State) returns (ls: seq<Label>)
    requires ValidConfig(cfg) && Inv(cfg, s)
    ensures IsRun(cfg, s, ls) && RunnerSteps(ls) == []
    ensures var t := After(cfg, s, ls); Inv(cfg, t) && t.runner == s.runner && |t.queue| < cfg.queueCap
    decreases |s.queue|, ToFree(s.workers[0])
  {
    ls := [];
    if |s.queue| >= cfg.queueCap {
      var l := WorkerGoesOn(cfg, s);
      var rest := MakeRoom(cfg, Apply(cfg, s, l));
      ls := [l] + rest;
      assert ls[1..] == rest;
    }
  }

  /** The workers make room, the runner sends, and the run goes on. */
  lemma SendAfterRoom(cfg: Config, s: State, room: seq<Label>, rest: seq<Label>)
    requires IsRun(cfg, s, room) && RunnerSteps(room) == []
    requires var u := After(cfg, s, room);
      RunEnabled(cfg, u, RunAct.Send) && IsRun(cfg, RunApply(cfg, u, RunAct.Send), rest)
    ensures IsRun(cfg, s, room + ([ByRunner(RunAct.Send)] + rest))
    ensures RunnerSteps(room + ([ByRunner(RunAct.Send)] + rest)) == [RunAct.Send] + RunnerSteps(rest)
  {
    var later := [ByRunner(RunAct.Send)] + rest;
    StepFirst(cfg, After(cfg, s, room), ByRunner(RunAct.Send), rest);
    RunConcat(cfg, s, room, later);
    StepsConcat(room, later);
  }

  /** The runner's next step for the batch, once there is room. */
  lemma NextStep(cfg: Config, s: State, p: nat, renders: nat -> bool) returns (a: RunAct)
    requires ValidConfig(cfg) && Inv(cfg, s) && Batching(s, p) && StepsToCome(s.runner, renders) != []
    requires s.runner.Handing? ==> |s.queue| < cfg.queueCap
    ensures RunEnabled(cfg, s, a) && a == StepsToCome(s.runner, renders)[0]
    ensures var t := RunApply(cfg, s, a);
      && Inv(cfg, t) && Batching(t, p) && StepsToCome(t.runner, renders) == StepsToCome(s.runner, renders)[1..]
  {
    a := StepsToCome(s.runner, renders)[0];
    if s.runner.Sending? {
      if s.runner.rest != [] {
        NextOfBatch(s.runner.rest, renders);
      }
    }
    RunnerStep(cfg, s, a, p, renders);
    InvStep(cfg, s, ByRunner(a));
  }

  /** The runner can hand over a batch of any size: there is a run with exactly its steps for the batch, in which
      workers take messages whenever the queue is full. */
  lemma {:induction false} BatchCanBeQueued(cfg: Config, s: State, p: nat, renders: nat -> bool)
    returns (ls: seq<Label>)
    requires ValidConfig(cfg) && Inv(cfg, s) && Batching(s, p)
    ensures IsRun(cfg, s, ls) && RunnerSteps(ls) == StepsToCome(s.runner, renders)
    decreases |StepsToCome(s.runner, renders)|
  {
    if StepsToCome(s.runner, renders) == [] {
      ls := [];
    } else if s.runner.Handing? {
      var room := MakeRoom(cfg, s);
      ls := RoomThenSend(cfg, s, After(cfg, s, room), p, renders, room);
    } else {
      var a := NextStep(cfg, s, p, renders);
      var rest := BatchCanBeQueued(cfg, RunApply(cfg, s, a), p, renders);
      ls := [ByRunner(a)] + rest;
      StepFirst(cfg, s, ByRunner(a), rest);
    }
  }

  lemma {:induction false} RoomThenSend(
      cfg: Config, s: State, u: State, p: nat, renders: nat -> bool, room: seq<Label>) returns (ls: seq<Label>)
    requires ValidConfig(cfg) && IsRun(cfg, s, room) && RunnerSteps(room) == [] && u == After(cfg, s, room)
    requires Inv(cfg, u) && s.runner.Handing? && u.runner == s.runner && u.runner.pipe == p && |u.queue| < cfg.queueCap
    ensures IsRun(cfg, s, ls) && RunnerSteps(ls) == StepsToCome(s.runner, renders)
    decreases |StepsToCome(s.runner, renders)|, 0
  {
    var a := NextStep(cfg, u, p, renders);
    var rest := BatchCanBeQueued(cfg, RunApply(cfg, u, a), p, renders);
    SendAfterRoom(cfg, s, room, rest);
    ls := room + ([ByRunner(RunAct.Send)] + rest);
  }
}
