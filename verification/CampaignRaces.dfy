/**
  Runs on which the unconditional form of a property fails.  Each is a complete
  run of the manager from its initial state, put together from a few phases.
*/
module CampaignRaces {
  import opened Wrappers
  import opened Counting
  import opened CampaignModel
  import opened CampaignWaitGroup
  import opened CampaignDelivery
  import opened CampaignCounts
  import opened CampaignResume
  import opened CampaignOrder
  import opened CampaignCoverage
  import opened CampaignPhases

  // ---------------------------------------------------------------- the runs

  function FreshState(cfg: Config): State {
    State(map[1 := Row(Running, 0, 5, 0)], map[1 := Books(0, [], 0, 0, false)], [], map[], [], [], Asleep, Ready,
          seq(cfg.workers, _ => Free))
  }

  lemma FreshIsInit(cfg: Config)
    ensures Init(cfg, FreshState(cfg))
  {}

  /** The pipe after its message for subscriber 1 was pushed and counted. */
  function PipeOneSent(who: set<nat>): Pipe {
    Pipe(1, 1, 1, 1, 0, false, false, Waiting, Log(0, [1], [who], 5, [], [], [1], [], NotYet, 0))
  }

  function OneSent(cfg: Config, who: set<nat>): State {
    FreshState(cfg).(
      rows := map[1 := Row(Running, 1, 5, 0)], books := map[1 := Books(0, [1], 0, 0, false)],
      pipes := [PipeOneSent(who)], registry := map[1 := 0], nextPipes := [0], scanner := Starting([]))
  }

  lemma ReachOneQueued(cfg: Config, who: set<nat>) returns (ls: seq<Label>, s: State)
    requires ValidConfig(cfg) && IsPage([1], who, 0, 5, cfg.batch)
    ensures At(cfg, FreshState(cfg), ls, s)
    ensures s == FreshState(cfg).(
      rows := map[1 := Row(Running, 1, 5, 0)],
      pipes := [WithQueued(NewPipe(1, 0), 1, who, 5)],
      registry := map[1 := 0], nextPipes := [0], scanner := Starting([]),
      queue := [Msg(1, 1, Some(0))])
    ensures Careful(cfg, FreshState(cfg), ls)
  {
    var s0 := FreshState(cfg);
    ls, s := ScanFinds(cfg, s0, [], s0, [1]);
    ls, s := Launch(cfg, s0, ls, s, 1);
    assert s.pipes == [NewPipe(1, 0)] && s.registry == map[1 := 0];
    var c := s.rows;
    ls, s := QueueOne(cfg, s0, ls, s, 0, who, 1);
    assert s.pipes == [WithQueued(NewPipe(1, 0), 1, who, 5)];
    assert s.rows == map[1 := Row(Running, 1, 5, 0)];
  }

  lemma ReachOneSent(cfg: Config, who: set<nat>) returns (ls: seq<Label>, s: State)
    requires ValidConfig(cfg) && IsPage([1], who, 0, 5, cfg.batch)
    ensures At(cfg, FreshState(cfg), ls, s) && s == OneSent(cfg, who)
    ensures Careful(cfg, FreshState(cfg), ls)
  {
    var s0 := FreshState(cfg);
    ls, s := ReachOneQueued(cfg, who);
    ls, s := TakeOne(cfg, s0, ls, s, 0);
    ls, s := PushOne(cfg, s0, ls, s, 0, 0, 1);
    assert s.books[1].wins == [1] && s.pipes[0].log.succeeded == [1];
    assert s.pipes[0].log.fetched == [1] && s.pipes[0].log.audiences == [who];
    assert s.books == map[1 := Books(0, [1], 0, 0, false)];
    ls, s := CountOne(cfg, s0, ls, s, 0, 0, 1);
    assert s.workers == s0.workers;
    assert s.pipes == [PipeOneSent(who)];
  }

  /** The pipe that sent to subscriber 1 has no work left, and the scanner sleeps. */
  lemma ReachDrained(cfg: Config) returns (ls: seq<Label>, s: State)
    requires ValidConfig(cfg)
    ensures At(cfg, FreshState(cfg), ls, s) && s.scanner == Asleep && s.registry == map[1 := 0] && |s.pipes| == 1
    ensures var x := s.pipes[0];
      x.camp == 1 && x.wg == 0 && x.stage == Waiting && x.sent == 1
    ensures 1 in s.rows && s.rows[1].sent == 0 && 1 in s.books && s.books[1].wins == [1]
  {
    var s0 := FreshState(cfg);
    ls, s := ReachOneSent(cfg, {1});
    ls, s := LastFetch(cfg, s0, ls, s, 0);
    ls, s := Go(cfg, s0, ls, s, ByScanner(ScanDone));
  }

  /** The pipe that sent to subscriber 1 has been flushed and is still registered. */
  lemma ReachFlushed(cfg: Config) returns (ls: seq<Label>, s: State)
    requires ValidConfig(cfg)
    ensures At(cfg, FreshState(cfg), ls, s) && s.scanner == Asleep && s.registry == map[1 := 0] && |s.pipes| == 1
    ensures s.pipes[0].sent == 1 && 1 in s.rows && s.rows[1].sent == 1 && 1 in s.books && s.books[1].wins == [1]
  {
    var s0 := FreshState(cfg);
    ls, s := ReachDrained(cfg);
    ls, s := Go(cfg, s0, ls, s, ByCleanup(0, Flush(true)));
  }

  /** The scanner has read the counter that the cleanup stored before. */
  lemma ReachReadTwice(cfg: Config) returns (ls: seq<Label>, s: State)
    requires ValidConfig(cfg)
    ensures At(cfg, FreshState(cfg), ls, s) && s.scanner.Snapped?
    ensures 1 in s.scanner.counts && s.scanner.counts[1] == 1 && 1 in s.rows && s.rows[1].sent == 1
    ensures 1 in s.books && s.books[1].wins == [1]
  {
    var s0 := FreshState(cfg);
    ls, s := ReachFlushed(cfg);
    ls, s := Go(cfg, s0, ls, s, ByScanner(Snapshot));
  }

  /** A snapshot that falls between the flush of a cleanup and the removal of its pipe stores the same
      count a second time: one message is sent and the database says two. */
  lemma CountStoredTwice() returns (cfg: Config, s0: State, ls: seq<Label>)
    ensures ValidConfig(cfg) && Reachable(cfg, s0, ls) && 1 in s0.rows && s0.rows[1].sent == 0
    ensures Successes(cfg, s0, ls, 1) == 1
    ensures var s := After(cfg, s0, ls); 1 in s.rows && s.rows[1].sent == 2
  {
    cfg := NewConfig(1, 1, 10, 0);
    s0 := FreshState(cfg);
    FreshIsInit(cfg);
    var s: State;
    ls, s := ReachReadTwice(cfg);
    ls, s := Go(cfg, s0, ls, s, ByScanner(Scan([], {1}, map[])));
    CountsInit(cfg, s0);
    CountsRun(cfg, s0, ls, 1);
  }

  /** The campaign is paused after its first batch, and the next query finds it paused. */
  lemma ReachPausedFetch(cfg: Config) returns (ls: seq<Label>, s: State)
    requires ValidConfig(cfg) && cfg.batch == 1
    ensures At(cfg, FreshState(cfg), ls, s) && |s.pipes| == 1 && s.registry == map[1 := 0]
    ensures 1 in s.rows && s.rows[1].status == Paused && 1 in s.books
    ensures var x := s.pipes[0];
      && x.camp == 1 && x.wg == 0 && x.stage == Waiting && !x.withErrors && !x.stopped
      && x.log.audiences == [{1, 2}] && x.log.fetched == [1] && x.log.start == 0 && x.log.cap == 5
      && x.log.release == NotRunning
  {
    var s0 := FreshState(cfg);
    ls, s := ReachOneSent(cfg, {1, 2});
    ls, s := Go(cfg, s0, ls, s, ByApi(SetStatus(1, Paused)));
    assert s.pipes == [PipeOneSent({1, 2})] && s.rows[1].status == Paused;
    ls, s := LastFetch(cfg, s0, ls, s, 0);
  }

  lemma UnpausedAndFinished(cfg: Config, s0: State, ls: seq<Label>, s: State) returns (ls': seq<Label>, t: State)
    requires At(cfg, s0, ls, s) && HasPipe(s, 0) && s.pipes[0].camp == 1 && 1 in s.rows && 1 in s.books
    requires s.pipes[0].stage == Finishing && s.registry == map[1 := 0]
    ensures At(cfg, s0, ls', t) && HasPipe(t, 0) && t.pipes[0].stage == Deleting(MarkedFinished)
    ensures t.pipes[0].log == s.pipes[0].log
    ensures 1 in t.rows && t.rows[1].status == Finished
  {
    ls', t := Go(cfg, s0, ls, s, ByApi(StopCampaign(1)));
    ls', t := Go(cfg, s0, ls', t, ByApi(SetStatus(1, Running)));
    assert t.pipes[0].stage == Finishing && t.rows[1].status == Running;
    ls', t := Go(cfg, s0, ls', t, ByCleanup(0, ReadRow(true)));
    ls', t := Go(cfg, s0, ls', t, ByCleanup(0, FinishRow(true)));
  }

  lemma EndsAsFinished(cfg: Config, s0: State, ls: seq<Label>, s: State) returns (ls': seq<Label>, t: State)
    requires At(cfg, s0, ls, s) && HasPipe(s, 0) && s.pipes[0].camp == 1 && 1 in s.rows && 1 in s.books
    requires s.pipes[0].wg == 0 && s.pipes[0].stage == Waiting && !s.pipes[0].withErrors && !s.pipes[0].stopped
    requires s.registry == map[1 := 0] && s.rows[1].status == Paused
    ensures At(cfg, s0, ls', t) && HasPipe(t, 0) && t.pipes[0].stage == Deleting(MarkedFinished)
    ensures t.pipes[0].log == s.pipes[0].log.(flushed := t.pipes[0].log.flushed)
    ensures 1 in t.rows && t.rows[1].status == Finished
  {
    ls', t := Go(cfg, s0, ls, s, ByCleanup(0, Flush(true)));
    ls', t := Go(cfg, s0, ls', t, ByCleanup(0, ReadErrors));
    ls', t := Go(cfg, s0, ls', t, ByCleanup(0, ReadStopped));
    assert t.pipes[0].stage == Finishing && t.registry == map[1 := 0];
    ls', t := UnpausedAndFinished(cfg, s0, ls', t);
  }

  /** The pipe has counted one success, and the scanner has taken the count. */
  lemma ReachCountTaken(cfg: Config) returns (ls: seq<Label>, s: State)
    requires ValidConfig(cfg)
    ensures At(cfg, FreshState(cfg), ls, s) && s.scanner.Snapped? && s.workers == FreshState(cfg).workers
    ensures s.registry == map[1 := 0] && |s.pipes| == 1 && s.pipes[0].sent == 0
    ensures 1 in s.rows && s.rows[1].sent == 0 && 1 in s.books && s.books[1].wins == [1]
  {
    var s0 := FreshState(cfg);
    ls, s := ReachOneSent(cfg, {1});
    ls, s := Go(cfg, s0, ls, s, ByScanner(ScanDone));
    ls, s := Go(cfg, s0, ls, s, ByScanner(Snapshot));
  }

  /** A scan that does not visit the tenant of a running campaign, because it was suspended, succeeds, finds nothing
      and loses the count that the scanner took: one message is sent, and no count is left anywhere. */
  lemma SuspendedTenantLosesCount() returns (cfg: Config, s0: State, ls: seq<Label>)
    ensures ValidConfig(cfg) && Reachable(cfg, s0, ls) && 1 in s0.rows && s0.rows[1].sent == 0
    ensures Successes(cfg, s0, ls, 1) == 1 && Enabled(cfg, After(cfg, s0, ls), ByScanner(Scan([], {}, map[])))
    ensures var t := Apply(cfg, After(cfg, s0, ls), ByScanner(Scan([], {}, map[])));
      1 in t.rows && t.rows[1].sent == 0 && InMemory(t, 1) == 0 && InFlight(t, 1) == 0 && Uncounted(t, 1) == 0
  {
    cfg := NewConfig(1, 1, 10, 0);
    s0 := FreshState(cfg);
    FreshIsInit(cfg);
    var s: State;
    ls, s := ReachCountTaken(cfg);
    CountPositive(s.workers, w => UncountedFor(w, 1));
    CountsInit(cfg, s0);
    CountsRun(cfg, s0, ls, 1);
  }

  /** A pause that reaches the runner before it reaches the stop flag, and is taken back before the
      cleanup reads the row, ends in a campaign marked finished although a subscriber who matched at
      every fetch, above the pipe's start and up to the maximum, was never fetched. */
  lemma FinishedWithoutFetching() returns (cfg: Config, s0: State, ls: seq<Label>, a: nat)
    ensures ValidConfig(cfg) && Reachable(cfg, s0, ls)
    ensures var s := After(cfg, s0, ls);
      && HasPipe(s, 0) && s.pipes[0].stage == Deleting(MarkedFinished)
      && 1 in s.rows && s.rows[1].status == Finished
      && var log := s.pipes[0].log;
         && log.audiences != [] && InAll(log.audiences, a) && log.start < a <= log.cap && a !in log.fetched
         && log.release == NotRunning
  {
    cfg := NewConfig(1, 1, 1, 0);
    s0 := FreshState(cfg);
    FreshIsInit(cfg);
    a := 2;
    var s: State;
    ls, s := ReachPausedFetch(cfg);
    ls, s := EndsAsFinished(cfg, s0, ls, s);
  }

  lemma SeesStop(cfg: Config, s0: State, ls: seq<Label>, s: State, w: nat, p: nat, x: nat)
    returns (ls': seq<Label>, t: State)
    requires At(cfg, s0, ls, s) && w < |s.workers| && HasPipe(s, p) && s.pipes[p].stopped
    requires s.workers[w] == Held(Msg(s.pipes[p].camp, x, Some(p))) && s.pipes[p].camp in s.books
    ensures var y := s.pipes[p];
      At(cfg, s0, ls', t) &&
      t == s.(workers := s.workers[w := Dropping(s.workers[w].msg)],
              pipes := s.pipes[p := y.(log := y.log.(dropped := y.log.dropped + [x]))])
    ensures AsCareful(cfg, s0, ls, ls')
  {
    ls', t := Go(cfg, s0, ls, s, ByWorker(w, CheckStop));
  }

  /** Worker `w` finds its message's pipe stopped and drops the message. */
  lemma DropOne(cfg: Config, s0: State, ls: seq<Label>, s: State, w: nat, p: nat, x: nat)
    returns (ls': seq<Label>, t: State)
    requires At(cfg, s0, ls, s) && w < |s.workers| && HasPipe(s, p) && s.pipes[p].stopped
    requires s.workers[w] == Held(Msg(s.pipes[p].camp, x, Some(p))) && s.pipes[p].camp in s.books
    ensures var y := s.pipes[p];
      At(cfg, s0, ls', t) &&
      t == s.(workers := s.workers[w := Free],
              pipes := s.pipes[p := y.(wg := y.wg - 1, log := y.log.(dropped := y.log.dropped + [x]))])
    ensures AsCareful(cfg, s0, ls, ls')
  {
    var u: State;
    ls', u := SeesStop(cfg, s0, ls, s, w, p, x);
    ls', t := Go(cfg, s0, ls', u, ByWorker(w, MarkDone));
  }

  /** The only message of a pipe was dropped by a stop. */
  lemma ReachFirstDropped(cfg: Config) returns (ls: seq<Label>, s: State)
    requires ValidConfig(cfg)
    ensures At(cfg, FreshState(cfg), ls, s) && |s.pipes| == 1 && s.registry == map[1 := 0]
    ensures s.runner == Ready && s.nextPipes == [0]
    ensures var x := s.pipes[0];
      x.camp == 1 && x.wg == 1 && x.stage == Waiting && x.sent == 0 && x.lastID == 0 && x.log.dropped == [1]
    ensures 1 in s.rows && s.rows[1].checkpoint == 1 && 1 in s.books
  {
    var s0 := FreshState(cfg);
    ls, s := ReachOneQueued(cfg, {1});
    ls, s := Go(cfg, s0, ls, s, ByApi(StopCampaign(1)));
    ls, s := TakeOne(cfg, s0, ls, s, 0);
    ls, s := DropOne(cfg, s0, ls, s, 0, 0, 1);
  }

  /** A pipe that is stopped before its first success: with nothing counted the checkpoint stays at the
      end of the batch, and the dropped subscriber is below it. */
  lemma DroppedBelowCheckpoint() returns (cfg: Config, s0: State, ls: seq<Label>)
    ensures ValidConfig(cfg) && cfg.workers == 1 && Reachable(cfg, s0, ls)
    ensures Enabled(cfg, After(cfg, s0, ls), ByCleanup(0, Flush(true)))
    ensures var s := After(cfg, s0, ls); var x := s.pipes[0];
      x.log.dropped == [1] && CountsStored(s.rows[x.camp], x.sent, x.lastID).checkpoint == 1
  {
    cfg := NewConfig(1, 1, 10, 0);
    s0 := FreshState(cfg);
    FreshIsInit(cfg);
    var s: State;
    ls, s := ReachFirstDropped(cfg);
    ls, s := LastFetch(cfg, s0, ls, s, 0);
  }

  /** Subscriber 1 got the campaign and was counted, the message for 2 was dropped by a stop, and cleanup may start. */
  predicate SecondDropped(cfg: Config, s: State) {
    && |s.pipes| == 1 && s.pipes[0].sent == 1 && s.registry == map[1 := 0]
    && s.rows == map[1 := Row(Running, 2, 5, 0)] && 1 in s.books
    && s.scanner == Starting([]) && s.runner == Ready && s.nextPipes == [] && s.queue == []
    && s.workers == FreshState(cfg).workers
    && var x := s.pipes[0];
       && x.camp == 1 && x.wg == 0 && x.stage == Waiting && x.lastID == 1 && x.stopped && !x.withErrors
       && x.log.fetched == [1, 2] && x.log.succeeded == [1] && x.log.failed == [] && x.log.dropped == [2]
       && x.log.unrendered == []
  }

  lemma ReachSecondHeld(cfg: Config) returns (ls: seq<Label>, s: State)
    requires ValidConfig(cfg)
    ensures At(cfg, FreshState(cfg), ls, s) && Careful(cfg, FreshState(cfg), ls)
    ensures s == OneSent(cfg, {1}).(
      pipes := [WithQueued(PipeOneSent({1}), 2, {2}, 5)], rows := map[1 := Row(Running, 2, 5, 0)],
      workers := FreshState(cfg).workers[0 := Held(Msg(1, 2, Some(0)))])
  {
    var s0 := FreshState(cfg);
    ls, s := ReachOneSent(cfg, {1});
    ls, s := QueueNext(cfg, s0, ls, s, 0, 2);
    assert s.pipes == [WithQueued(PipeOneSent({1}), 2, {2}, 5)] && s.rows == map[1 := Row(Running, 2, 5, 0)];
    ls, s := TakeOne(cfg, s0, ls, s, 0);
  }

  lemma ReachSecondDropped(cfg: Config) returns (ls: seq<Label>, s: State)
    requires ValidConfig(cfg)
    ensures At(cfg, FreshState(cfg), ls, s) && Careful(cfg, FreshState(cfg), ls) && SecondDropped(cfg, s)
  {
    var s0 := FreshState(cfg);
    ls, s := ReachSecondHeld(cfg);
    ls, s := Go(cfg, s0, ls, s, ByApi(StopCampaign(1)));
    assert s.pipes == [WithQueued(PipeOneSent({1}), 2, {2}, 5).(stopped := true)];
    ls, s := DropOne(cfg, s0, ls, s, 0, 0, 2);
    assert s.workers == s0.workers && s.pipes[0].wg == 1 && s.pipes[0].log.dropped == [2];
    ls, s := LastFetch(cfg, s0, ls, s, 0);
  }

  /** A flush whose store call fails leaves the checkpoint at the end of the batch: the dropped subscriber is
      behind it although something was counted. */
  lemma FailedFlushStrands() returns (cfg: Config, s0: State, ls: seq<Label>)
    ensures ValidConfig(cfg) && cfg.workers == 1 && Reachable(cfg, s0, ls)
    ensures var s := After(cfg, s0, ls);
      && HasPipe(s, 0) && s.pipes[0].stage == Flushed && s.pipes[0].lastID > 0 && s.pipes[0].log.dropped == [2]
      && s.pipes[0].camp in s.rows && s.rows[s.pipes[0].camp].checkpoint == 2
  {
    cfg := NewConfig(1, 1, 10, 0);
    s0 := FreshState(cfg);
    FreshIsInit(cfg);
    var s: State;
    ls, s := ReachSecondDropped(cfg);
    ls, s := Go(cfg, s0, ls, s, ByCleanup(0, Flush(false)));
  }

  /** A new pipe of campaign 1 sends to subscriber 3, the only one who matches, and is flushed. */
  lemma ThirdSent(cfg: Config, s0: State, ls: seq<Label>, s: State) returns (ls': seq<Label>, t: State)
    requires ValidConfig(cfg) && At(cfg, s0, ls, s) && s.scanner == Starting([1]) && s.registry == map[]
    requires s.runner == Ready && s.nextPipes == [] && s.queue == [] && |s.workers| >= 1 && s.workers[0] == Free
    requires 1 in s.rows && s.rows[1] == Row(Running, 1, 5, 1) && 1 in s.books && |s.pipes| == 1
    ensures At(cfg, s0, ls', t) && AsCareful(cfg, s0, ls, ls') && |t.pipes| == 2 && t.pipes[0] == s.pipes[0]
    ensures var x := t.pipes[1];
      && x.camp == 1 && x.wg == 1 && x.stage == Waiting && x.lastID == 3 && x.log.dropped == []
      && x.log.succeeded == [3] && x.log.failed == [] && x.log.unrendered == []
    ensures t.runner == Ready && t.nextPipes == [1] && 1 in t.rows && 1 in t.books
  {
    ls', t := Launch(cfg, s0, ls, s, 1);
    ls', t := QueueNext(cfg, s0, ls', t, 1, 3);
    ls', t := TakeOne(cfg, s0, ls', t, 0);
    ls', t := PushOne(cfg, s0, ls', t, 0, 1, 3);
    assert t.pipes[1].log.succeeded == [3] && t.pipes[1].lastID == 0;
    ls', t := CountOne(cfg, s0, ls', t, 0, 1, 3);
  }

  /** The pipe of `SecondDropped` is flushed and gone, and the checkpoint is back at 1. */
  predicate SecondGone(cfg: Config, s: State) {
    && |s.pipes| == 1 && s.registry == map[] && 1 in s.rows && s.rows[1] == Row(Running, 1, 5, 1) && 1 in s.books
    && s.runner == Ready && s.nextPipes == [] && s.queue == [] && s.workers == FreshState(cfg).workers
    && var x := s.pipes[0];
       && x.camp == 1 && x.stage.Gone? && x.log.fetched == [1, 2] && x.log.succeeded == [1] && x.log.failed == []
       && x.log.unrendered == []
  }

  lemma FlushSecond(cfg: Config, s0: State, ls: seq<Label>, s: State) returns (ls': seq<Label>, t: State)
    requires At(cfg, s0, ls, s) && SecondDropped(cfg, s)
    ensures At(cfg, s0, ls', t) && AsCareful(cfg, s0, ls, ls')
    ensures SecondGone(cfg, t) && t.scanner == Starting([])
  {
    ls', t := Go(cfg, s0, ls, s, ByCleanup(0, Flush(true)));
    ls', t := CleanUpHalted(cfg, s0, ls', t, 0);
  }

  lemma ReachThirdScanned(cfg: Config) returns (ls: seq<Label>, s: State)
    requires ValidConfig(cfg)
    ensures At(cfg, FreshState(cfg), ls, s) && Careful(cfg, FreshState(cfg), ls)
    ensures SecondGone(cfg, s) && s.scanner == Starting([1])
  {
    var s0 := FreshState(cfg);
    ls, s := ReachSecondDropped(cfg);
    ls, s := FlushSecond(cfg, s0, ls, s);
    ls, s := Go(cfg, s0, ls, s, ByScanner(ScanDone));
    ls, s := ScanFinds(cfg, s0, ls, s, [1]);
  }

  /** The second pipe, which dropped nothing, is ready for its flush. */
  lemma ReachThirdDrained(cfg: Config) returns (ls: seq<Label>, s: State)
    requires ValidConfig(cfg)
    ensures At(cfg, FreshState(cfg), ls, s) && Careful(cfg, FreshState(cfg), ls) && |s.pipes| == 2
    ensures var x := s.pipes[0];
      x.camp == 1 && x.stage.Gone? && x.log.fetched == [1, 2] && x.log.succeeded == [1] && x.log.failed == []
      && x.log.unrendered == []
    ensures var x := s.pipes[1];
      x.camp == 1 && x.wg == 0 && x.stage == Waiting && x.lastID == 3 && x.log.dropped == []
      && x.log.succeeded == [3] && x.log.failed == [] && x.log.unrendered == []
    ensures 1 in s.rows && 1 in s.books
  {
    var s0 := FreshState(cfg);
    ls, s := ReachThirdScanned(cfg);
    ls, s := ThirdSent(cfg, s0, ls, s);
    ls, s := LastFetch(cfg, s0, ls, s, 1);
  }

  lemma CarefulLeavesNobody(cfg: Config, s0: State, ls: seq<Label>)
    requires ValidConfig(cfg) && cfg.workers == 1 && Reachable(cfg, s0, ls) && Careful(cfg, s0, ls)
    ensures Along(cfg, s0, ls, (s, l) => !LeavesBehind(s, l, 1))
  {
    InvInit(cfg, s0);
    OrderRun(cfg, s0, []);
    OneWorkerLeaves(cfg, s0, ls, 1);
  }

  /** A dropped subscriber who no longer matches when the campaign is resumed is passed by the checkpoint and never
      attempted, although no flush left a dropped message behind. */
  lemma DroppedThenUnmatched() returns (cfg: Config, s0: State, ls: seq<Label>)
    ensures ValidConfig(cfg) && cfg.workers == 1 && Reachable(cfg, s0, ls)
    ensures Along(cfg, s0, ls, (s, l) => !LeavesBehind(s, l, 1))
    ensures var s := After(cfg, s0, ls);
      && NoneWaits(s, 1) && |s.pipes| == 2 && 2 in s.pipes[0].log.fetched && 1 in s.rows && 2 <= s.rows[1].checkpoint
      && (forall p | 0 <= p < |s.pipes| :: s.pipes[p].camp == 1 && !Settled(s.pipes[p].log, 2))
  {
    cfg := NewConfig(1, 1, 10, 0);
    s0 := FreshState(cfg);
    FreshIsInit(cfg);
    var s: State;
    ls, s := ReachThirdDrained(cfg);
    ls, s := Go(cfg, s0, ls, s, ByCleanup(1, Flush(true)));
    CarefulLeavesNobody(cfg, s0, ls);
  }

  /** Worker 0 holds the message for subscriber 1, and the message for subscriber 2 is queued. */
  lemma ReachTwoQueued(cfg: Config) returns (ls: seq<Label>, s: State)
    requires ValidConfig(cfg)
    ensures At(cfg, FreshState(cfg), ls, s) && |s.pipes| == 1 && s.registry == map[1 := 0]
    ensures s.pipes[0].camp == 1 && !s.pipes[0].stopped && 1 in s.books
    ensures s.pipes[0].log.succeeded == [] && s.pipes[0].log.dropped == []
    ensures s.workers == FreshState(cfg).workers[0 := Held(Msg(1, 1, Some(0)))] && s.queue == [Msg(1, 2, Some(0))]
  {
    var s0 := FreshState(cfg);
    ls, s := ReachOneQueued(cfg, {1});
    ls, s := TakeOne(cfg, s0, ls, s, 0);
    ls, s := QueueNext(cfg, s0, ls, s, 0, 2);
  }

  /** With two workers one may drop a subscriber below the one that the other has sent to. */
  lemma TwoWorkersCross(cfg: Config) returns (s0: State, ls: seq<Label>)
    requires ValidConfig(cfg) && cfg.workers >= 2
    ensures Reachable(cfg, s0, ls)
    ensures var s := After(cfg, s0, ls);
      HasPipe(s, 0) && s.pipes[0].log.succeeded == [2] && s.pipes[0].log.dropped == [1]
  {
    s0 := FreshState(cfg);
    FreshIsInit(cfg);
    var s: State;
    ls, s := ReachTwoQueued(cfg);
    ls, s := TakeOne(cfg, s0, ls, s, 1);
    ls, s := PushOne(cfg, s0, ls, s, 1, 0, 2);
    ls, s := Go(cfg, s0, ls, s, ByApi(StopCampaign(1)));
    assert s.pipes[0].log.succeeded == [2] && s.pipes[0].log.dropped == [];
    ls, s := DropOne(cfg, s0, ls, s, 0, 0, 1);
  }

  /** In every run, whatever a pipe drops lies above whatever it attempts. */
  ghost predicate CutsCleanly(cfg: Config) {
    forall s0: State, ls: seq<Label>, p: nat | Reachable(cfg, s0, ls) && HasPipe(After(cfg, s0, ls), p) ::
      var log := After(cfg, s0, ls).pipes[p].log; Below(log.succeeded, log.dropped) && Below(log.failed, log.dropped)
  }

  /** A stop cuts the ids in two exactly when there is one worker. */
  lemma OneWorkerCutsCleanly(cfg: Config)
    requires ValidConfig(cfg)
    ensures CutsCleanly(cfg) <==> cfg.workers == 1
  {
    if cfg.workers == 1 {
      forall s0: State, ls: seq<Label>, p: nat | Reachable(cfg, s0, ls) && HasPipe(After(cfg, s0, ls), p)
        ensures var log := After(cfg, s0, ls).pipes[p].log;
          Below(log.succeeded, log.dropped) && Below(log.failed, log.dropped)
      {
        DroppedAboveAttempted(cfg, s0, ls, p);
      }
    } else {
      var s0, ls := TwoWorkersCross(cfg);
      var log := After(cfg, s0, ls).pipes[0].log;
      assert log.succeeded[0] > log.dropped[0];
    }
  }

  /** A stopped pipe goes through its cleanup to the end. */
  lemma CleanUpHalted(cfg: Config, s0: State, ls: seq<Label>, s: State, p: nat) returns (ls': seq<Label>, t: State)
    requires At(cfg, s0, ls, s) && HasPipe(s, p) && s.pipes[p].stage == Flushed && s.registry == map[1 := p]
    requires s.pipes[p].camp == 1 && 1 in s.rows && 1 in s.books && s.pipes[p].stopped && !s.pipes[p].withErrors
    ensures At(cfg, s0, ls', t) && t.registry == map[] && t.runner == s.runner && t.scanner == s.scanner
    ensures t.nextPipes == s.nextPipes && t.queue == s.queue && t.workers == s.workers && |t.pipes| == |s.pipes|
    ensures 1 in t.rows && t.rows[1] == s.rows[1] && 1 in t.books && t.books[1].wins == s.books[1].wins
    ensures t.pipes[p] == s.pipes[p].(stage := Gone(Halted))
    ensures AsCareful(cfg, s0, ls, ls')
  {
    ls', t := Go(cfg, s0, ls, s, ByCleanup(p, ReadErrors));
    ls', t := Go(cfg, s0, ls', t, ByCleanup(p, ReadStopped));
    assert t.pipes[p].stage == Deleting(Halted) && t.registry == s.registry;
    ls', t := Go(cfg, s0, ls', t, ByCleanup(p, Unregister));
  }

  /** The second message was pushed and not counted yet. */
  lemma ReachTwoPushed(cfg: Config) returns (ls: seq<Label>, s: State)
    requires ValidConfig(cfg)
    ensures At(cfg, FreshState(cfg), ls, s) && |s.pipes| == 1 && s.pipes[0].camp == 1 && s.registry == map[1 := 0]
    ensures s.scanner == Starting([]) && s.runner == Ready && s.nextPipes == [0] && s.queue == []
    ensures s.workers == FreshState(cfg).workers[0 := Tallying(Msg(1, 2, Some(0)), true)]
    ensures var x := s.pipes[0]; x.wg == 1 && x.lastID == 1 && x.stage == Waiting && !x.stopped && !x.withErrors
    ensures 1 in s.rows && s.rows[1].max == 5 && 1 in s.books && s.books[1].wins == [1, 2]
  {
    var s0 := FreshState(cfg);
    ls, s := ReachSecondHeld(cfg);
    assert s.books[1].wins + [2] == [1, 2];
    ls, s := PushOne(cfg, s0, ls, s, 0, 0, 2);
  }

  lemma FlushThenTally(cfg: Config, s0: State, ls: seq<Label>, s: State, m: Msg) returns (ls': seq<Label>, t: State)
    requires At(cfg, s0, ls, s) && |s.pipes| == 1 && s.pipes[0].camp == 1 && s.pipes[0].wg == 0
    requires s.pipes[0].stage == Waiting && s.pipes[0].lastID == 1
    requires |s.workers| >= 1 && s.workers[0] == Tallying(m, true) && m == Msg(1, 2, Some(0)) && Registered(s, 0)
    requires 1 in s.rows && 1 in s.books
    ensures At(cfg, s0, ls', t) && |t.pipes| == 1 && t.pipes[0].camp == 1 && t.pipes[0].stage == Flushed
    ensures t.pipes[0].stopped == s.pipes[0].stopped && t.pipes[0].withErrors == s.pipes[0].withErrors
    ensures t.registry == s.registry && t.scanner == s.scanner && t.runner == s.runner
    ensures t.nextPipes == s.nextPipes && t.queue == s.queue && t.workers == s.workers[0 := Free]
    ensures 1 in t.rows && t.rows[1].status == s.rows[1].status
    ensures t.rows[1].checkpoint == 1 && t.rows[1].max == s.rows[1].max
    ensures 1 in t.books && t.books[1].wins == s.books[1].wins
  {
    var u: State;
    ls', u := Go(cfg, s0, ls, s, ByCleanup(0, Flush(true)));
    ls', t := Go(cfg, s0, ls', u, ByWorker(0, Tally));
  }

  /** The pipe is stopped and flushed before the worker counts the second message. */
  lemma ReachEarlyFlush(cfg: Config) returns (ls: seq<Label>, s: State)
    requires ValidConfig(cfg)
    ensures At(cfg, FreshState(cfg), ls, s) && |s.pipes| == 1 && s.pipes[0].camp == 1 && s.pipes[0].stage == Flushed
    ensures s.registry == map[1 := 0] && s.scanner == Starting([]) && s.runner == Ready
    ensures s.nextPipes == [] && s.queue == [] && s.workers == FreshState(cfg).workers
    ensures s.pipes[0].stopped && !s.pipes[0].withErrors
    ensures 1 in s.rows && s.rows[1].status == Paused && s.rows[1].checkpoint == 1 && s.rows[1].max == 5
    ensures 1 in s.books && s.books[1].wins == [1, 2]
  {
    var s0 := FreshState(cfg);
    ls, s := ReachTwoPushed(cfg);
    ls, s := Go(cfg, s0, ls, s, ByApi(SetStatus(1, Paused)));
    ls, s := Go(cfg, s0, ls, s, ByApi(StopCampaign(1)));
    assert |s.pipes| == 1 && s.pipes[0].wg == 1 && s.pipes[0].lastID == 1 && s.pipes[0].camp == 1;
    ls, s := LastFetch(cfg, s0, ls, s, 0);
    ls, s := FlushThenTally(cfg, s0, ls, s, Msg(1, 2, Some(0)));
    assert s.workers == s0.workers;
  }

  /** The campaign is picked up again and its next pipe sends to subscriber 2. */
  lemma Resumes(cfg: Config, s0: State, ls: seq<Label>, s: State) returns (ls': seq<Label>, t: State)
    requires ValidConfig(cfg) && At(cfg, s0, ls, s) && s.scanner == Asleep && s.registry == map[]
    requires s.runner == Ready && s.nextPipes == [] && s.queue == [] && |s.workers| >= 1 && s.workers[0] == Free
    requires 1 in s.rows && s.rows[1].status == Running && s.rows[1].checkpoint == 1 && s.rows[1].max == 5
    requires 1 in s.books
    ensures At(cfg, s0, ls', t) && 1 in t.books && t.books[1].wins == s.books[1].wins + [2]
    ensures |s.pipes| <= |t.pipes| && forall p | 0 <= p < |s.pipes| :: t.pipes[p] == s.pipes[p]
    ensures AsCareful(cfg, s0, ls, ls')
  {
    var p := |s.pipes|;
    ls', t := ScanFinds(cfg, s0, ls, s, [1]);
    ls', t := Launch(cfg, s0, ls', t, 1);
    ls', t := QueueNext(cfg, s0, ls', t, p, 2);
    ls', t := TakeOne(cfg, s0, ls', t, 0);
    ls', t := PushOne(cfg, s0, ls', t, 0, p, 2);
  }

  /** The push to subscriber 2 fails; with no limit on errors nothing is counted. */
  lemma ReachSecondFailed(cfg: Config) returns (ls: seq<Label>, s: State)
    requires ValidConfig(cfg) && cfg.maxErrors < 1
    ensures At(cfg, FreshState(cfg), ls, s)
    ensures |s.pipes| == 1 && s.registry == map[1 := 0] && s.rows == map[1 := Row(Running, 2, 5, 0)]
    ensures s.scanner == Starting([]) && s.runner == Ready && s.nextPipes == [0] && s.queue == []
    ensures s.workers == FreshState(cfg).workers && 1 in s.books && s.books[1].wins == [1]
    ensures var x := s.pipes[0];
      && x.camp == 1 && x.wg == 1 && x.stage == Waiting && x.lastID == 1 && !x.stopped && !x.withErrors
      && x.log.failed == [2]
  {
    var s0 := FreshState(cfg);
    ls, s := ReachSecondHeld(cfg);
    ls, s := PushFails(cfg, s0, ls, s, 0, 0, 2);
    assert s.workers == s0.workers;
  }

  lemma CheckAndFail(cfg: Config, s0: State, ls: seq<Label>, s: State, w: nat, p: nat, x: nat)
    returns (ls': seq<Label>, t: State)
    requires At(cfg, s0, ls, s) && w < |s.workers| && HasPipe(s, p) && !s.pipes[p].stopped
    requires s.workers[w] == Held(Msg(s.pipes[p].camp, x, Some(p))) && s.pipes[p].camp in s.books
    ensures var y := s.pipes[p];
      At(cfg, s0, ls', t) &&
      t == s.(workers := s.workers[w := Pushed(s.workers[w].msg, false)],
              pipes := s.pipes[p := y.(log := y.log.(failed := y.log.failed + [x]))])
  {
    ls', t := Go(cfg, s0, ls, s, ByWorker(w, CheckStop));
    assert t == s.(workers := s.workers[w := Cleared(s.workers[w].msg)]);
    ls', t := Go(cfg, s0, ls', t, ByWorker(w, Push(false)));
  }

  /** With no limit on errors the failure of a push is not counted. */
  lemma FailureDone(cfg: Config, s0: State, ls: seq<Label>, s: State, w: nat, p: nat, m: Msg)
    returns (ls': seq<Label>, t: State)
    requires At(cfg, s0, ls, s) && w < |s.workers| && HasPipe(s, p) && cfg.maxErrors < 1
    requires s.workers[w] == Pushed(m, false) && m.pipe == Some(p) && m.camp == s.pipes[p].camp && m.camp in s.books
    ensures At(cfg, s0, ls', t)
    ensures t == s.(workers := s.workers[w := Free], pipes := s.pipes[p := s.pipes[p].(wg := s.pipes[p].wg - 1)])
  {
    ls', t := Go(cfg, s0, ls, s, ByWorker(w, MarkDone));
    assert t.pipes == s.pipes[p := s.pipes[p].(wg := s.pipes[p].wg - 1)];
    ls', t := Go(cfg, s0, ls', t, ByWorker(w, Tally));
  }

  lemma PushFails(cfg: Config, s0: State, ls: seq<Label>, s: State, w: nat, p: nat, x: nat)
    returns (ls': seq<Label>, t: State)
    requires At(cfg, s0, ls, s) && w < |s.workers| && HasPipe(s, p) && !s.pipes[p].stopped && cfg.maxErrors < 1
    requires s.workers[w] == Held(Msg(s.pipes[p].camp, x, Some(p))) && s.pipes[p].camp in s.books
    ensures var y := s.pipes[p];
      At(cfg, s0, ls', t) &&
      t == s.(workers := s.workers[w := Free],
              pipes := s.pipes[p := y.(wg := y.wg - 1, log := y.log.(failed := y.log.failed + [x]))])
  {
    ls', t := CheckAndFail(cfg, s0, ls, s, w, p, x);
    ls', t := FailureDone(cfg, s0, ls', t, w, p, s.workers[w].msg);
  }

  /** The campaign's pipe is stopped and cleaned up, and the next scan is due. */
  lemma ReachFailedGone(cfg: Config) returns (ls: seq<Label>, s: State)
    requires ValidConfig(cfg) && cfg.maxErrors < 1
    ensures At(cfg, FreshState(cfg), ls, s) && s.scanner == Asleep && s.registry == map[]
    ensures s.runner == Ready && s.nextPipes == [] && s.queue == [] && s.workers == FreshState(cfg).workers
    ensures 1 in s.rows && s.rows[1].status == Running && s.rows[1].checkpoint == 1 && s.rows[1].max == 5
    ensures 1 in s.books && s.books[1].wins == [1] && |s.pipes| == 1
    ensures s.pipes[0].camp == 1 && s.pipes[0].log.failed == [2]
  {
    var s0 := FreshState(cfg);
    ls, s := ReachFailedFlushed(cfg);
    ls, s := CleanUpHalted(cfg, s0, ls, s, 0);
    ls, s := Go(cfg, s0, ls, s, ByScanner(ScanDone));
  }

  lemma ReachFailedFlushed(cfg: Config) returns (ls: seq<Label>, s: State)
    requires ValidConfig(cfg) && cfg.maxErrors < 1
    ensures At(cfg, FreshState(cfg), ls, s) && s.scanner == Starting([]) && s.registry == map[1 := 0]
    ensures s.runner == Ready && s.nextPipes == [] && s.queue == [] && s.workers == FreshState(cfg).workers
    ensures 1 in s.rows && s.rows[1].status == Running && s.rows[1].checkpoint == 1 && s.rows[1].max == 5
    ensures 1 in s.books && s.books[1].wins == [1] && |s.pipes| == 1
    ensures var x := s.pipes[0];
      x.camp == 1 && x.stage == Flushed && x.stopped && !x.withErrors && x.log.failed == [2]
  {
    var s0 := FreshState(cfg);
    ls, s := ReachSecondFailed(cfg);
    ls, s := Go(cfg, s0, ls, s, ByApi(StopCampaign(1)));
    ls, s := LastFetch(cfg, s0, ls, s, 0);
    assert s.pipes[0].wg == 0 && s.pipes[0].lastID == 1;
    ls, s := Go(cfg, s0, ls, s, ByCleanup(0, Flush(true)));
  }

  /** A push that failed above the checkpoint is made again when the campaign is resumed. */
  lemma FailedThenSent() returns (cfg: Config, s0: State, ls: seq<Label>)
    ensures ValidConfig(cfg) && cfg.workers == 1 && Reachable(cfg, s0, ls)
    ensures HasPipe(After(cfg, s0, ls), 0) && After(cfg, s0, ls).pipes[0].camp == 1
    ensures After(cfg, s0, ls).pipes[0].log.failed == [2] && Deliveries(cfg, s0, ls, 1, 2) == 1
  {
    cfg := NewConfig(1, 1, 10, 0);
    s0 := FreshState(cfg);
    FreshIsInit(cfg);
    var s: State;
    ls, s := ReachFailedGone(cfg);
    ls, s := Resumes(cfg, s0, ls, s);
    OnceInHistory(cfg, ls, s);
  }

  lemma OnceInHistory(cfg: Config, ls: seq<Label>, s: State)
    requires At(cfg, FreshState(cfg), ls, s) && 1 in s.books && s.books[1].wins == [1] + [2]
    ensures Deliveries(cfg, FreshState(cfg), ls, 1, 2) == 1
  {
    InvInit(cfg, FreshState(cfg));
    DeliveriesCounted(cfg, FreshState(cfg), ls, 1, 2);
    TimesAppended([1], 2, 2);
  }

  /** That pipe is gone, and the campaign is set to run again. */
  lemma ReachRunningAgain(cfg: Config) returns (ls: seq<Label>, s: State)
    requires ValidConfig(cfg)
    ensures At(cfg, FreshState(cfg), ls, s) && s.scanner == Asleep && s.registry == map[]
    ensures s.runner == Ready && s.nextPipes == [] && s.queue == [] && s.workers == FreshState(cfg).workers
    ensures 1 in s.rows && s.rows[1].status == Running && s.rows[1].checkpoint == 1 && s.rows[1].max == 5
    ensures 1 in s.books && s.books[1].wins == [1, 2]
  {
    var s0 := FreshState(cfg);
    ls, s := ReachEarlyFlush(cfg);
    ls, s := CleanUpHalted(cfg, s0, ls, s, 0);
    ls, s := Go(cfg, s0, ls, s, ByScanner(ScanDone));
    ls, s := Go(cfg, s0, ls, s, ByApi(SetStatus(1, Running)));
  }

  /** A flush that does not wait for the worker's counters moves the checkpoint below a success, and
      the subscriber gets the campaign again after it is resumed. */
  lemma SentTwiceAfterEarlyFlush() returns (cfg: Config, s0: State, ls: seq<Label>)
    ensures ValidConfig(cfg) && cfg.workers == 1 && Reachable(cfg, s0, ls)
    ensures Deliveries(cfg, s0, ls, 1, 2) == 2
  {
    cfg := NewConfig(1, 1, 10, 0);
    s0 := FreshState(cfg);
    FreshIsInit(cfg);
    var s: State;
    ls, s := ReachRunningAgain(cfg);
    ls, s := Resumes(cfg, s0, ls, s);
    assert s.books[1].wins == [1, 2, 2];
    TwiceInHistory(cfg, ls, s);
  }

  lemma TwiceInHistory(cfg: Config, ls: seq<Label>, s: State)
    requires At(cfg, FreshState(cfg), ls, s) && 1 in s.books && s.books[1].wins == [1, 2, 2]
    ensures Deliveries(cfg, FreshState(cfg), ls, 1, 2) == 2
  {
    InvInit(cfg, FreshState(cfg));
    DeliveriesCounted(cfg, FreshState(cfg), ls, 1, 2);
    TimesAppended([1], 2, 2);
    TimesAppended([1, 2], 2, 2);
    assert [1] + [2] == [1, 2] && [1, 2] + [2] == [1, 2, 2];
  }
}
