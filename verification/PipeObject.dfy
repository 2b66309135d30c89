/**
  The pipe object and the loop that queues a batch, as the methods update them.
  Each method is tied to the functions that the state machine of `CampaignModel`
  uses for the same code.
*/
module PipeObject {
  import opened Wrappers
  import opened SlidingWindow
  import opened CampaignModel

  /** `Stop`: nothing if the flag is already set. */
  function StopResult(x: Pipe, withErrors: bool): Pipe {
    if x.stopped then x else x.(stopped := true, withErrors := x.withErrors || withErrors)
  }

  /** `OnError` when no other goroutine interferes: the two steps of the state machine in a row. */
  function OnErrorResult(cfg: Config, x: Pipe): Pipe {
    var y := CountError(cfg, x);
    if Trips(cfg, x) then y.(stopped := true) else y
  }

  class PipeCell {
    const camp: int
    var wg: int
    var sent: nat
    var lastID: nat
    var errors: nat
    var stopped: bool
    var withErrors: bool
    ghost var stage: Stage
    ghost var log: Log

    ghost function Model(): Pipe
      reads this
    {
      Pipe(camp, wg, sent, lastID, errors, stopped, withErrors, stage, log)
    }

    constructor (camp: int, checkpoint: nat)
      ensures Model() == NewPipe(camp, checkpoint)
    {
      this.camp := camp;
      wg, sent, lastID, errors := 1, 0, 0, 0;
      stopped, withErrors := false, false;
      stage, log := Waiting, NewPipe(camp, checkpoint).log;
    }

    method Stop(withErrors: bool)
      modifies this
      ensures Model() == StopResult(old(Model()), withErrors)
      ensures stopped && this.withErrors == (old(this.withErrors) || (withErrors && !old(stopped)))
    {
      if stopped { return; }
      if withErrors { this.withErrors := true; }
      stopped := true;
    }

    method OnError(cfg: Config)
      modifies this
      ensures Model() == OnErrorResult(cfg, old(Model()))
      ensures cfg.maxErrors < 1 ==> Model() == old(Model())
      ensures cfg.maxErrors >= 1 ==>
        && errors == old(errors) + 1
        && stopped == (old(stopped) || errors >= cfg.maxErrors)
        && withErrors == (old(withErrors) || (errors >= cfg.maxErrors && !old(stopped)))
    {
      if cfg.maxErrors < 1 { return; }
      errors := errors + 1;
      if errors < cfg.maxErrors { return; }
      Stop(true);
    }

    method Done()
      modifies this
      ensures Model() == old(Model()).(wg := old(wg) - 1)
    {
      wg := wg - 1;
    }

    /** The worker's counters after a push without an error. */
    method Succeeded(id: nat)
      modifies this
      ensures Model() == CountSuccess(old(Model()), id)
    {
      if id > lastID { lastID := id; }
      sent := sent + 1;
    }

    /** `newMessage`: the count goes up only for a message that renders. */
    method NewMessage(id: nat, rendered: bool) returns (msg: Option<nat>)
      modifies this
      ensures Model() == Rendered(old(Model()), id, rendered)
      ensures msg == if rendered then Some(id) else None
    {
      if !rendered {
        log := log.(unrendered := log.unrendered + [id]);
        return None;
      }
      wg := wg + 1;
      return Some(id);
    }
  }

  /** A pipe after failures of pushes, one after the other. */
  function Failing(cfg: Config, x: Pipe, failures: nat): Pipe {
    if failures == 0 then x else OnErrorResult(cfg, Failing(cfg, x, failures - 1))
  }

  /** The limit to the letter: a pipe that has counted no error is stopped, as stopped by errors, by exactly the failure
      with which as many as the limit have happened, and never without a limit. */
  lemma {:induction false} FailuresStop(cfg: Config, x: Pipe, failures: nat)
    requires x.errors == 0 && !x.stopped && !x.withErrors
    ensures var y := Failing(cfg, x, failures);
      && y.errors == (if cfg.maxErrors >= 1 then failures else 0)
      && (y.stopped <==> 1 <= cfg.maxErrors <= failures)
      && (y.withErrors <==> 1 <= cfg.maxErrors <= failures)
    decreases failures
  {
    if failures > 0 {
      FailuresStop(cfg, x, failures - 1);
    }
  }

  function Rendered(x: Pipe, id: nat, rendered: bool): Pipe {
    if rendered then x.(wg := x.wg + 1) else x.(log := x.log.(unrendered := x.log.unrendered + [id]))
  }

  // ---------------------------------------------------------------- the batch

  /** The pipe after a batch, where `renders` says which messages render. */
  function BatchPipe(x: Pipe, ids: seq<nat>, renders: nat -> bool): Pipe {
    if ids == [] then x
    else Rendered(BatchPipe(x, ids[..|ids| - 1], renders), ids[|ids| - 1], renders(ids[|ids| - 1]))
  }

  /** The ids whose messages a batch queues. */
  function BatchIds(ids: seq<nat>, renders: nat -> bool): seq<nat> {
    if ids == [] then []
    else BatchIds(ids[..|ids| - 1], renders)
         + if renders(ids[|ids| - 1]) then [ids[|ids| - 1]] else []
  }

  /** Wall clock time, which other goroutines and a full queue may let pass at any point. */
  class Clock {
    var now: nat

    constructor () { now := 0; }

    method Read() returns (t: nat)
      modifies this
      ensures t == now && now >= old(now)
    {
      var passed: nat :| passed >= 0;
      now := now + passed;
      t := now;
    }

    method Sleep(wait: int)
      modifies this
      ensures now >= old(now) + if wait > 0 then wait else 0
    {
      var late: nat :| late >= 0;
      now := now + (if wait > 0 then wait else 0) + late;
    }
  }

  class Sender {
    const limit: Limit
    const sliding: bool
    const clock: Clock
    var slidingStart: nat
    var slidingCount: nat
    var queue: seq<nat>           // ids of the pipe's messages, as queued
    ghost var ready: nat

    ghost function View(): Window
      reads this
    {
      Window(slidingStart, slidingCount, ready)
    }

    ghost predicate Valid()
      reads this, clock
    {
      slidingStart <= ready <= clock.now
    }

    constructor (limit: Limit, sliding: bool, clock: Clock)
      ensures Valid() && this.limit == limit && this.sliding == sliding && this.clock == clock
      ensures queue == [] && View() == Window(clock.now, 0, clock.now)
    {
      this.limit, this.sliding, this.clock := limit, sliding, clock;
      slidingStart, slidingCount, queue, ready := clock.now, 0, [], clock.now;
    }

    /** The check after one message. */
    method CheckWindow() returns (ghost tick: Tick)
      requires Valid() && SlidingWindow.Valid(limit)
      modifies this, clock
      ensures Valid() && queue == old(queue)
      ensures old(ready) <= tick.read <= tick.now
      ensures View() == Check(limit, old(View()), tick)
    {
      var read := clock.Read();
      var diff := read - slidingStart;
      var last := read;
      if diff >= limit.span {
        last := clock.Read();
        slidingStart := last;
        slidingCount := 0;
      }
      tick := Tick(read, last);
      slidingCount := slidingCount + 1;
      ready := last;
      if slidingCount >= limit.rate {
        var wait := limit.span - diff;
        slidingCount := 0;
        ready := if wait > 0 then last + wait else last;
        clock.Sleep(wait);
      }
    }

    /** `NextSubscribers` after the store has returned `subs`. */
    method NextSubscribers(p: PipeCell, subs: seq<nat>, renders: nat -> bool)
      returns (has: bool, ghost ticks: seq<Tick>)
      requires Valid()
      modifies this, clock, p
      ensures Valid() && has == (subs != [])
      ensures p.Model() == BatchPipe(old(p.Model()), subs, renders)
      ensures queue == old(queue) + BatchIds(subs, renders)
      ensures if sliding && limit.rate > 0 && limit.span > 1_000_000_000
              then |ticks| == |BatchIds(subs, renders)| && Timed(limit, old(View()), ticks)
                   && View() == Final(limit, old(View()), ticks)
              else View() == old(View()) && clock.now == old(clock.now)
    {
      ticks := [];
      if subs == [] { return false, []; }
      var hasSliding := sliding && limit.rate > 0 && limit.span > 1_000_000_000;
      for i := 0 to |subs|
        invariant Valid()
        invariant p.Model() == BatchPipe(old(p.Model()), subs[..i], renders)
        invariant queue == old(queue) + BatchIds(subs[..i], renders)
        invariant if hasSliding
                  then |ticks| == |BatchIds(subs[..i], renders)| && Timed(limit, old(View()), ticks)
                       && View() == Final(limit, old(View()), ticks)
                  else View() == old(View()) && clock.now == old(clock.now)
      {
        assert subs[..i + 1][..i] == subs[..i];
        var msg := p.NewMessage(subs[i], renders(subs[i]));
        if msg.None? { continue; }
        queue := queue + [msg.value];
        if hasSliding {
          ghost var tick := CheckWindow();
          TimedConcat(limit, old(View()), ticks, [tick]);
          ticks := ticks + [tick];
        }
      }
      assert subs[..|subs|] == subs;
      has := true;
    }
  }

  // ---------------------------------------------------------------- the loop and the state machine

  /** The runner's steps for a batch, without interleaving. */
  function BatchSteps(ids: seq<nat>, renders: nat -> bool): seq<Label> {
    if ids == [] then []
    else [ByRunner(Render(renders(ids[0])))]
         + (if renders(ids[0]) then [ByRunner(RunAct.Send)] else [])
         + BatchSteps(ids[1..], renders)
  }

  function Messages(camp: int, p: nat, ids: seq<nat>): seq<Msg> {
    seq(|ids|, i requires 0 <= i < |ids| => Msg(camp, ids[i], Some(p)))
  }

  lemma {:induction false} BatchFromFront(x: Pipe, ids: seq<nat>, renders: nat -> bool)
    requires ids != []
    ensures BatchPipe(x, ids, renders) == BatchPipe(Rendered(x, ids[0], renders(ids[0])), ids[1..], renders)
    ensures BatchIds(ids, renders) == (if renders(ids[0]) then [ids[0]] else []) + BatchIds(ids[1..], renders)
    decreases |ids|
  {
    var n := |ids| - 1;
    if n == 0 {
      assert ids[..n] == [] && ids[1..] == [];
    } else {
      BatchFromFront(x, ids[..n], renders);
      assert ids[..n][1..] == ids[1..][..n - 1];
    }
  }

  lemma Prepended(cfg: Config, s: State, l: Label, ls: seq<Label>)
    requires Enabled(cfg, s, l) && IsRun(cfg, Apply(cfg, s, l), ls)
    ensures IsRun(cfg, s, [l] + ls) && After(cfg, s, [l] + ls) == After(cfg, Apply(cfg, s, l), ls)
  {}

  /** The state after the first id of the rest. */
  function AfterFirst(s: State, p: nat, ids: seq<nat>, ok: bool): State
    requires HasPipe(s, p) && ids != []
  {
    s.(runner := Sending(p, ids[1..]), pipes := s.pipes[p := Rendered(s.pipes[p], ids[0], ok)],
       queue := s.queue + if ok then [Msg(s.pipes[p].camp, ids[0], Some(p))] else [])
  }

  lemma FirstOfBatch(cfg: Config, s: State, p: nat, ids: seq<nat>, ok: bool, ls: seq<Label>)
    requires HasPipe(s, p) && s.runner == Sending(p, ids) && ids != [] && (ok ==> |s.queue| < cfg.queueCap)
    requires IsRun(cfg, AfterFirst(s, p, ids, ok), ls)
    ensures var steps := [ByRunner(Render(ok))] + (if ok then [ByRunner(RunAct.Send)] else []) + ls;
      IsRun(cfg, s, steps) && After(cfg, s, steps) == After(cfg, AfterFirst(s, p, ids, ok), ls)
  {
    var s1 := Apply(cfg, s, ByRunner(Render(ok)));
    if ok {
      var s2 := Apply(cfg, s1, ByRunner(RunAct.Send));
      assert s2.pipes == s1.pipes;
      assert s2 == AfterFirst(s, p, ids, ok);
      Prepended(cfg, s1, ByRunner(RunAct.Send), ls);
      Prepended(cfg, s, ByRunner(Render(ok)), [ByRunner(RunAct.Send)] + ls);
      assert [ByRunner(Render(ok))] + [ByRunner(RunAct.Send)] + ls
        == [ByRunner(Render(ok))] + ([ByRunner(RunAct.Send)] + ls);
    } else {
      assert s1.queue + [] == s1.queue;
      assert s1 == AfterFirst(s, p, ids, ok);
      Prepended(cfg, s, ByRunner(Render(ok)), ls);
      assert [ByRunner(Render(ok))] + [] + ls == [ByRunner(Render(ok))] + ls;
    }
  }

  function AfterBatch(s: State, p: nat, ids: seq<nat>, renders: nat -> bool): State
    requires HasPipe(s, p)
  {
    s.(runner := Sending(p, []), pipes := s.pipes[p := BatchPipe(s.pipes[p], ids, renders)],
       queue := s.queue + Messages(s.pipes[p].camp, p, BatchIds(ids, renders)))
  }

  lemma AfterBatchUnfolds(s: State, p: nat, ids: seq<nat>, renders: nat -> bool)
    requires HasPipe(s, p) && ids != []
    ensures AfterBatch(AfterFirst(s, p, ids, renders(ids[0])), p, ids[1..], renders) == AfterBatch(s, p, ids, renders)
  {
    BatchFromFront(s.pipes[p], ids, renders);
    var t := AfterFirst(s, p, ids, renders(ids[0]));
    assert t.pipes[p := BatchPipe(t.pipes[p], ids[1..], renders)] == s.pipes[p := BatchPipe(s.pipes[p], ids, renders)];
    assert t.queue + Messages(t.pipes[p].camp, p, BatchIds(ids[1..], renders))
        == s.queue + Messages(s.pipes[p].camp, p, BatchIds(ids, renders));
  }

  /** Taken in a row, with room for the whole batch, the runner's steps do what `NextSubscribers` does: they leave
      the pipe as the loop leaves it and add the same messages to the queue in the same order. */
  lemma {:induction false} BatchUndisturbed(cfg: Config, s: State, p: nat, ids: seq<nat>, renders: nat -> bool)
    requires HasPipe(s, p) && s.runner == Sending(p, ids)
    requires |s.queue| + |BatchIds(ids, renders)| <= cfg.queueCap
    ensures IsRun(cfg, s, BatchSteps(ids, renders))
    ensures After(cfg, s, BatchSteps(ids, renders)) == AfterBatch(s, p, ids, renders)
    decreases |ids|
  {
    if ids == [] {
      assert s.pipes[p := s.pipes[p]] == s.pipes;
      assert s.queue + Messages(s.pipes[p].camp, p, []) == s.queue;
    } else {
      BatchFromFront(s.pipes[p], ids, renders);
      BatchUndisturbed(cfg, AfterFirst(s, p, ids, renders(ids[0])), p, ids[1..], renders);
      FirstOfBatch(cfg, s, p, ids, renders(ids[0]), BatchSteps(ids[1..], renders));
      AfterBatchUnfolds(s, p, ids, renders);
    }
  }
}
