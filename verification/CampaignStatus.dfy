/**
  The columns of a campaign's row: which steps change them, and what a cleanup does to the status.
*/
module CampaignStatus {
  import opened CampaignModel
  import opened CampaignWaitGroup
  import opened CampaignDelivery

  // ---------------------------------------------------------------- who changes a row

  /** A scan that gives campaign `c` a new maximum. */
  predicate Touches(s: State, l: Label, c: int) {
    l.ByScanner? && (l.scan.Scan? || l.scan.ScanError?) && c in l.scan.touched
  }

  /** The status changes in five ways: by the API, by a scan that starts the campaign, by a campaign that the manager
      cannot process, and by a cleanup that pauses or finishes it. */
  lemma StatusChanges(cfg: Config, s: State, l: Label, c: int)
    requires Inv(cfg, s) && Enabled(cfg, s, l) && c in s.rows
    ensures var t := Apply(cfg, s, l);
      && c in t.rows
      && t.rows[c].status ==
        if l.ByApi? && l.api.SetStatus? && l.api.camp == c then l.api.status
        else if Touches(s, l, c) then Running
        else if l == ByScanner(RejectCampaign(true)) && s.scanner.todo[0] == c then Cancelled
        else if l.ByCleanup? && l.clean == PauseRow(true) && s.pipes[l.pipe].camp == c then Paused
        else if l.ByCleanup? && l.clean == FinishRow(true) && s.pipes[l.pipe].camp == c then Finished
        else s.rows[c].status
  {}

  /** A scan starts only campaigns that are due, and that no pipe processes. */
  lemma OnlyDueAreStarted(cfg: Config, s: State, l: Label, c: int)
    requires Inv(cfg, s) && Enabled(cfg, s, l)
    requires Touches(s, l, c) || (l.ByScanner? && l.scan.Scan? && c in l.scan.found)
    ensures c in s.rows && (s.rows[c].status == Running || s.rows[c].status == Scheduled)
    ensures c !in s.registry && forall p | 0 <= p < |s.pipes| && Live(s, p) :: s.pipes[p].camp != c
  {
    forall p | 0 <= p < |s.pipes| && Live(s, p) ensures s.pipes[p].camp != c {
      assert Registered(s, p);
    }
  }

  /** Every campaign that is due and not registered at the snapshot can be found, and started. */
  lemma DueCanBeFound(cfg: Config, s: State, c: int, max: nat)
    requires s.scanner.Snapped? && c in s.rows && c !in s.scanner.ids
    requires s.rows[c].status == Running || s.rows[c].status == Scheduled
    ensures Enabled(cfg, s, ByScanner(Scan([c], {}, map[c := max])))
    ensures var t := Apply(cfg, s, ByScanner(Scan([c], {}, map[c := max])));
      && t.scanner == Starting([c]) && c in t.rows && t.rows[c].status == Running && t.rows[c].max == max
      && t.rows[c].checkpoint == s.rows[c].checkpoint
  {}

  /** The checkpoint is moved by a fetch, to the last id of its batch, and by a flush that has counted something and
      reaches the store. */
  lemma CheckpointChanges(cfg: Config, s: State, l: Label, c: int)
    requires Inv(cfg, s) && Enabled(cfg, s, l) && c in s.rows
    ensures var t := Apply(cfg, s, l);
      && c in t.rows
      && t.rows[c].checkpoint ==
        if l.ByRunner? && l.run.Fetch? && l.run.batch != [] && s.pipes[s.runner.pipe].camp == c
        then l.run.batch[|l.run.batch| - 1]
        else if l.ByCleanup? && l.clean == Flush(true) && s.pipes[l.pipe].camp == c && s.pipes[l.pipe].lastID > 0
        then s.pipes[l.pipe].lastID
        else s.rows[c].checkpoint
  {}

  /** The maximum is changed by a scan alone, and the sent count by the store calls that get counts. */
  lemma OtherColumnsChange(cfg: Config, s: State, l: Label, c: int)
    requires Inv(cfg, s) && Enabled(cfg, s, l) && c in s.rows
    ensures var t := Apply(cfg, s, l);
      && c in t.rows
      && t.rows[c].max == (if Touches(s, l, c) then l.scan.touched[c] else s.rows[c].max)
      && t.rows[c].sent == s.rows[c].sent +
        if l.ByCleanup? && l.clean == Flush(true) && s.pipes[l.pipe].camp == c then s.pipes[l.pipe].sent
        else if l.ByScanner? && (l.scan.Scan? || l.scan.ScanError?) && c in s.scanner.counts && c in l.scan.stored
        then s.scanner.counts[c]
        else 0
  {}

  // ---------------------------------------------------------------- the stages of a cleanup

  predicate EndsAs(g: Stage, o: Outcome) { (g.Deleting? || g.Gone?) && g.outcome == o }

  predicate Ended(s: State, p: nat) { HasPipe(s, p) && (s.pipes[p].stage.Deleting? || s.pipes[p].stage.Gone?) }

  /** Only its own cleanup moves a pipe from one stage to the next. */
  lemma StageKept(cfg: Config, s: State, l: Label, p: nat)
    requires Shape(cfg, s) && Registry(s) && Enabled(cfg, s, l) && HasPipe(s, p) && !(l.ByCleanup? && l.pipe == p)
    ensures HasPipe(Apply(cfg, s, l), p) && Apply(cfg, s, l).pipes[p].stage == s.pipes[p].stage
    ensures s.pipes[p].withErrors ==> Apply(cfg, s, l).pipes[p].withErrors
  {}

  /** The branches of a cleanup: a pipe stopped by errors pauses the row; else a stopped one leaves it alone; else a row
      that cannot be read or is neither running nor scheduled is left alone, and any other is finished. */
  lemma CleanupBranches(cfg: Config, s: State, p: nat, a: CleanAct)
    requires CleanEnabled(cfg, s, p, a)
    ensures var x, t := s.pipes[p], CleanApply(cfg, s, p, a); var g := t.pipes[p].stage;
      && t.pipes[p].withErrors == x.withErrors && t.pipes[p].stopped == x.stopped
      && (a.Flush? ==> x.stage == Waiting && g == Flushed)
      && (a.ReadErrors? ==>
            x.stage == Flushed && (x.withErrors ==> g == Pausing) && (!x.withErrors ==> g == NoErrors))
      && (a.ReadStopped? ==>
            x.stage == NoErrors && (x.stopped ==> g == Deleting(Halted)) && (!x.stopped ==> g == Finishing))
      && (a.PauseRow? ==> x.stage == Pausing && g == Deleting(PausedByErrors))
      && (a.ReadRow? ==>
            var r := s.rows[x.camp].status;
            && x.stage == Finishing
            && (!a.ok ==> g == Deleting(Unread))
            && (a.ok && (r == Running || r == Scheduled) ==> g == Marking)
            && (a.ok && r != Running && r != Scheduled ==> g == Deleting(Outcome.Ended)))
      && (a.FinishRow? ==> x.stage == Marking && g == Deleting(if a.ok then MarkedFinished else MarkFailed))
      && (a.Unregister? ==> x.stage.Deleting? && g == Gone(x.stage.outcome) && x.camp !in t.registry)
  {}

  /** What a cleanup does to the status column. */
  predicate WritesStatus(l: Label, p: nat) {
    l.ByCleanup? && l.pipe == p && (l.clean.PauseRow? || l.clean.FinishRow?)
  }

  lemma WritesAre(l: Label, p: nat)
    requires WritesStatus(l, p)
    ensures l == ByCleanup(p, PauseRow(true)) || l == ByCleanup(p, PauseRow(false))
      || l == ByCleanup(p, FinishRow(true)) || l == ByCleanup(p, FinishRow(false))
  {}

  /** Once a cleanup has come to its end it writes no status, and how it ended stays. */
  lemma {:induction false} EndedStays(cfg: Config, s: State, ls: seq<Label>, p: nat)
    requires Inv(cfg, s) && IsRun(cfg, s, ls) && Ended(s, p)
    ensures Ended(After(cfg, s, ls), p)
    ensures After(cfg, s, ls).pipes[p].stage.outcome == s.pipes[p].stage.outcome
    ensures forall l | l in ls :: !WritesStatus(l, p)
    decreases |ls|
  {
    if ls != [] {
      EndedStep(cfg, s, ls[0], p);
      InvStep(cfg, s, ls[0]);
      EndedStays(cfg, Apply(cfg, s, ls[0]), ls[1..], p);
    }
  }

  lemma EndedStep(cfg: Config, s: State, l: Label, p: nat)
    requires Inv(cfg, s) && Enabled(cfg, s, l) && Ended(s, p)
    ensures Ended(Apply(cfg, s, l), p) && Apply(cfg, s, l).pipes[p].stage.outcome == s.pipes[p].stage.outcome
    ensures !WritesStatus(l, p)
  {
    if l.ByCleanup? && l.pipe == p {
      CleanupBranches(cfg, s, p, l.clean);
    } else {
      StageKept(cfg, s, l, p);
    }
  }

  /** How a cleanup ended tells which status it wrote. */
  predicate ToldBy(ls: seq<Label>, p: nat, o: Outcome) {
    && (o == PausedByErrors <==> exists ok :: ByCleanup(p, PauseRow(ok)) in ls)
    && (o == MarkedFinished <==> ByCleanup(p, FinishRow(true)) in ls)
    && (o == MarkFailed <==> ByCleanup(p, FinishRow(false)) in ls)
  }

  lemma ToldLater(l: Label, rest: seq<Label>, p: nat, o: Outcome)
    requires ToldBy(rest, p, o) && !WritesStatus(l, p)
    ensures ToldBy([l] + rest, p, o)
  {
    assert forall x :: x in [l] + rest <==> x == l || x in rest;
  }

  /** The outcome that a last step of a cleanup leads to. */
  predicate LastStepEnds(l: Label, p: nat, o: Outcome) {
    if WritesStatus(l, p) then
      o == if l.clean.PauseRow? then PausedByErrors else if l.clean.ok then MarkedFinished else MarkFailed
    else o == Halted || o == Unread || o == Outcome.Ended
  }

  lemma ToldAtOnce(l: Label, rest: seq<Label>, p: nat, o: Outcome)
    requires LastStepEnds(l, p, o) && forall x | x in rest :: !WritesStatus(x, p)
    ensures ToldBy([l] + rest, p, o)
  {
    assert forall x :: x in [l] + rest <==> x == l || x in rest;
    if WritesStatus(l, p) && l.clean.PauseRow? {
      assert l == ByCleanup(p, PauseRow(l.clean.ok));
    }
  }

  lemma FirstEnd(cfg: Config, s: State, l: Label, p: nat)
    requires Inv(cfg, s) && Enabled(cfg, s, l) && !Ended(s, p) && Ended(Apply(cfg, s, l), p)
    ensures LastStepEnds(l, p, Apply(cfg, s, l).pipes[p].stage.outcome)
  {
    if HasPipe(s, p) {
      if l.ByCleanup? && l.pipe == p {
        CleanupBranches(cfg, s, p, l.clean);
      } else {
        StageKept(cfg, s, l, p);
      }
    }
  }

  /** The first step ends the cleanup. */
  lemma ToldByFirst(cfg: Config, s: State, ls: seq<Label>, p: nat)
    requires Inv(cfg, s) && ls != [] && IsRun(cfg, s, ls) && !Ended(s, p) && Ended(Apply(cfg, s, ls[0]), p)
    ensures Ended(After(cfg, s, ls), p) && ToldBy(ls, p, After(cfg, s, ls).pipes[p].stage.outcome)
  {
    InvStep(cfg, s, ls[0]);
    EndedStays(cfg, Apply(cfg, s, ls[0]), ls[1..], p);
    FirstEnd(cfg, s, ls[0], p);
    ToldAtOnce(ls[0], ls[1..], p, Apply(cfg, s, ls[0]).pipes[p].stage.outcome);
    assert ls == [ls[0]] + ls[1..];
  }

  lemma WritingEnds(cfg: Config, s: State, l: Label, p: nat)
    requires Inv(cfg, s) && Enabled(cfg, s, l) && WritesStatus(l, p)
    ensures Ended(Apply(cfg, s, l), p)
  {
    CleanupBranches(cfg, s, p, l.clean);
  }

  /** Over any run: a cleanup ended "paused by errors" exactly when it asked for the status paused, "finished" exactly
      when it set the status finished, and in every other case it wrote no status. */
  lemma {:induction false} OutcomeIsWhatWasDone(cfg: Config, s: State, ls: seq<Label>, p: nat)
    requires Inv(cfg, s) && IsRun(cfg, s, ls) && !Ended(s, p) && Ended(After(cfg, s, ls), p)
    ensures ToldBy(ls, p, After(cfg, s, ls).pipes[p].stage.outcome)
    decreases |ls|
  {
    if Ended(Apply(cfg, s, ls[0]), p) {
      ToldByFirst(cfg, s, ls, p);
    } else {
      if WritesStatus(ls[0], p) { WritingEnds(cfg, s, ls[0], p); }
      InvStep(cfg, s, ls[0]);
      OutcomeIsWhatWasDone(cfg, Apply(cfg, s, ls[0]), ls[1..], p);
      assert ls == [ls[0]] + ls[1..];
      ToldLater(ls[0], ls[1..], p, After(cfg, s, ls).pipes[p].stage.outcome);
    }
  }

  // ---------------------------------------------------------------- paused by errors

  /** The cleanup has read, or will read, that the pipe was stopped by errors. */
  predicate ErrorsSeen(s: State, p: nat) {
    HasPipe(s, p) && s.pipes[p].withErrors &&
    var g := s.pipes[p].stage; g == Waiting || g == Flushed || g == Pausing || EndsAs(g, PausedByErrors)
  }

  lemma ErrorsSeenStep(cfg: Config, s: State, l: Label, p: nat)
    requires Shape(cfg, s) && Registry(s) && Enabled(cfg, s, l) && ErrorsSeen(s, p)
    ensures ErrorsSeen(Apply(cfg, s, l), p)
  {
    if l.ByCleanup? && l.pipe == p {
      CleanupBranches(cfg, s, p, l.clean);
    } else {
      StageKept(cfg, s, l, p);
    }
  }

  /** A pipe stopped by errors before its cleanup looks is paused by errors, whatever else happens. */
  lemma {:induction false} ErrorsArePaused(cfg: Config, s: State, ls: seq<Label>, p: nat)
    requires Inv(cfg, s) && IsRun(cfg, s, ls) && ErrorsSeen(s, p)
    ensures ErrorsSeen(After(cfg, s, ls), p)
    decreases |ls|
  {
    if ls != [] {
      ErrorsSeenStep(cfg, s, ls[0], p);
      InvStep(cfg, s, ls[0]);
      ErrorsArePaused(cfg, Apply(cfg, s, ls[0]), ls[1..], p);
    }
  }

  /** The campaign is paused, no pipe of it is at work and none is about to be created. */
  predicate RestsPaused(s: State, c: int, n: nat) {
    && c in s.rows && s.rows[c].status == Paused && c !in Todo(s.scanner) && n <= |s.pipes|
    && (forall q | 0 <= q < |s.pipes| && Live(s, q) && s.pipes[q].camp == c ::
          q < n && s.pipes[q].stage == Deleting(PausedByErrors))
    && (forall q | n <= q < |s.pipes| :: s.pipes[q].camp != c)
  }

  lemma RestsByScanner(cfg: Config, s: State, a: ScanAct, c: int, n: nat)
    requires Shape(cfg, s) && Registry(s) && ScanEnabled(cfg, s, a) && RestsPaused(s, c, n)
    ensures RestsPaused(ScanApply(cfg, s, a), c, n)
  {
    var t := ScanApply(cfg, s, a);
    ScannerFrame(cfg, s, a);
    forall q | 0 <= q < |t.pipes| && Live(t, q) && t.pipes[q].camp == c
      ensures q < n && t.pipes[q].stage == Deleting(PausedByErrors)
    {
      if q < |s.pipes| { assert Live(s, q); }
    }
  }

  lemma RestsByCleanup(cfg: Config, s: State, p: nat, a: CleanAct, c: int, n: nat)
    requires CleanEnabled(cfg, s, p, a) && RestsPaused(s, c, n)
    ensures RestsPaused(CleanApply(cfg, s, p, a), c, n)
  {
    var t := CleanApply(cfg, s, p, a);
    if s.pipes[p].camp == c {
      assert Live(s, p) && a == Unregister;
    }
    forall q | 0 <= q < |t.pipes| && Live(t, q) && t.pipes[q].camp == c
      ensures q < n && t.pipes[q].stage == Deleting(PausedByErrors)
    {
      assert Live(s, q);
    }
  }

  lemma RestsByOthers(cfg: Config, s: State, l: Label, c: int, n: nat)
    requires Shape(cfg, s) && Registry(s) && Enabled(cfg, s, l) && RestsPaused(s, c, n)
    requires !l.ByScanner? && !l.ByCleanup? && !(l.ByApi? && l.api.SetStatus? && l.api.camp == c)
    ensures RestsPaused(Apply(cfg, s, l), c, n)
  {
    var t := Apply(cfg, s, l);
    forall q | 0 <= q < |t.pipes|
      ensures t.pipes[q].camp == s.pipes[q].camp && t.pipes[q].stage == s.pipes[q].stage
    {
      StageKept(cfg, s, l, q);
    }
    forall q | 0 <= q < |t.pipes| && Live(t, q) ensures Live(s, q) {}
  }

  lemma RestsStep(cfg: Config, s: State, l: Label, c: int, n: nat)
    requires Shape(cfg, s) && Registry(s) && Enabled(cfg, s, l) && RestsPaused(s, c, n)
    requires !(l.ByApi? && l.api.SetStatus? && l.api.camp == c)
    ensures RestsPaused(Apply(cfg, s, l), c, n)
  {
    match l
    case ByScanner(a) => RestsByScanner(cfg, s, a, c, n);
    case ByCleanup(p, a) => RestsByCleanup(cfg, s, p, a, c, n);
    case _ => RestsByOthers(cfg, s, l, c, n);
  }

  lemma {:induction false} RestsRun(cfg: Config, s: State, ls: seq<Label>, c: int, n: nat)
    requires Inv(cfg, s) && IsRun(cfg, s, ls) && RestsPaused(s, c, n)
    requires forall l | l in ls :: !(l.ByApi? && l.api.SetStatus? && l.api.camp == c)
    ensures RestsPaused(After(cfg, s, ls), c, n)
    decreases |ls|
  {
    if ls != [] {
      RestsStep(cfg, s, ls[0], c, n);
      InvStep(cfg, s, ls[0]);
      RestsRun(cfg, Apply(cfg, s, ls[0]), ls[1..], c, n);
    }
  }

  lemma PauseMakesRest(cfg: Config, s: State, p: nat)
    requires Inv(cfg, s) && CleanEnabled(cfg, s, p, PauseRow(true))
    ensures RestsPaused(CleanApply(cfg, s, p, PauseRow(true)), s.pipes[p].camp, |s.pipes|)
  {
    var c, t := s.pipes[p].camp, CleanApply(cfg, s, p, PauseRow(true));
    CleanupBranches(cfg, s, p, PauseRow(true));
    assert WgOk(s, p) && Live(s, p);
    assert Registered(s, p);
    forall q | 0 <= q < |t.pipes| && Live(t, q) && t.pipes[q].camp == c
      ensures t.pipes[q].stage == Deleting(PausedByErrors)
    {
      assert Live(s, q);
      SameCampaignSamePipe(s, p, q);
    }
  }

  /** When the store takes the status of a pipe that was stopped by errors, the campaign is paused, and until an API
      call sets its status it stays paused and no pipe is created for it. */
  lemma PausedUntilSet(cfg: Config, s0: State, ls: seq<Label>, p: nat, more: seq<Label>)
    requires Reachable(cfg, s0, ls) && Enabled(cfg, After(cfg, s0, ls), ByCleanup(p, PauseRow(true)))
    requires IsRun(cfg, Apply(cfg, After(cfg, s0, ls), ByCleanup(p, PauseRow(true))), more)
    requires var c := After(cfg, s0, ls).pipes[p].camp;
      forall l | l in more :: !(l.ByApi? && l.api.SetStatus? && l.api.camp == c)
    ensures var s := After(cfg, s0, ls); var c := s.pipes[p].camp;
      var t := After(cfg, Apply(cfg, s, ByCleanup(p, PauseRow(true))), more);
      && c in t.rows && t.rows[c].status == Paused
      && forall q | |s.pipes| <= q < |t.pipes| :: t.pipes[q].camp != c
  {
    var s := After(cfg, s0, ls);
    InvReachable(cfg, s0, ls);
    PauseMakesRest(cfg, s, p);
    InvStep(cfg, s, ByCleanup(p, PauseRow(true)));
    RestsRun(cfg, Apply(cfg, s, ByCleanup(p, PauseRow(true))), more, s.pipes[p].camp, |s.pipes|);
  }

  // ---------------------------------------------------------------- stopped by hand

  /** The cleanup of `p` is under way. */
  predicate Cleaning(s: State, p: nat) { HasPipe(s, p) && s.pipes[p].stage != Waiting && !s.pipes[p].stage.Gone? }

  /** While a cleanup is under way only the cleanup itself and the API change the status. */
  lemma StatusWhileCleaning(cfg: Config, s: State, l: Label, p: nat)
    requires Inv(cfg, s) && Enabled(cfg, s, l) && Cleaning(s, p) && s.pipes[p].camp in s.rows
    requires var c := s.pipes[p].camp; !(l.ByApi? && l.api.SetStatus? && l.api.camp == c) && !WritesStatus(l, p)
    ensures var c := s.pipes[p].camp; c in Apply(cfg, s, l).rows && Apply(cfg, s, l).rows[c].status == s.rows[c].status
  {
    var c := s.pipes[p].camp;
    StatusChanges(cfg, s, l, c);
    assert WgOk(s, p) && Live(s, p);
    assert Registered(s, p);
    if l.ByCleanup? && s.pipes[l.pipe].camp == c && (l.clean.PauseRow? || l.clean.FinishRow?) {
      assert Live(s, l.pipe);
      SameCampaignSamePipe(s, p, l.pipe);
    }
  }

  lemma {:induction false} StatusUntouched(cfg: Config, s: State, ls: seq<Label>, p: nat)
    requires Inv(cfg, s) && IsRun(cfg, s, ls) && Cleaning(s, p) && s.pipes[p].camp in s.rows
    requires Cleaning(After(cfg, s, ls), p)
    requires var c := s.pipes[p].camp;
      forall l | l in ls :: !(l.ByApi? && l.api.SetStatus? && l.api.camp == c) && !WritesStatus(l, p)
    ensures var c := s.pipes[p].camp;
      c in After(cfg, s, ls).rows && After(cfg, s, ls).rows[c].status == s.rows[c].status
    decreases |ls|
  {
    if ls != [] {
      var t := Apply(cfg, s, ls[0]);
      StatusWhileCleaning(cfg, s, ls[0], p);
      CleaningGoesOn(cfg, s, ls[0], p);
      InvStep(cfg, s, ls[0]);
      if t.pipes[p].stage.Gone? { EndedStays(cfg, t, ls[1..], p); GoneStays(cfg, t, ls[1..], p); }
      StatusUntouched(cfg, t, ls[1..], p);
    }
  }

  lemma CleaningGoesOn(cfg: Config, s: State, l: Label, p: nat)
    requires Inv(cfg, s) && Enabled(cfg, s, l) && Cleaning(s, p)
    ensures var t := Apply(cfg, s, l);
      HasPipe(t, p) && t.pipes[p].camp == s.pipes[p].camp && (Cleaning(t, p) || t.pipes[p].stage.Gone?)
  {
    if l.ByCleanup? && l.pipe == p {
      CleanupBranches(cfg, s, p, l.clean);
    } else {
      StageKept(cfg, s, l, p);
      match l
      case ByScanner(a) => ScannerFrame(cfg, s, a);
      case _ =>
    }
  }

  lemma {:induction false} GoneStays(cfg: Config, s: State, ls: seq<Label>, p: nat)
    requires Inv(cfg, s) && IsRun(cfg, s, ls) && HasPipe(s, p) && s.pipes[p].stage.Gone?
    ensures HasPipe(After(cfg, s, ls), p) && After(cfg, s, ls).pipes[p].stage.Gone?
    decreases |ls|
  {
    if ls != [] {
      InvStep(cfg, s, ls[0]);
      StageKept(cfg, s, ls[0], p);
      GoneStays(cfg, Apply(cfg, s, ls[0]), ls[1..], p);
    }
  }

  /** From its flush to its end, a cleanup that finds the pipe stopped by hand, or the row unreadable or no longer
      active, leaves the status alone, and so does everything but the API. */
  lemma HaltedLeavesStatus(cfg: Config, s: State, ls: seq<Label>, p: nat)
    requires Inv(cfg, s) && IsRun(cfg, s, ls) && HasPipe(s, p) && s.pipes[p].stage == Flushed
    requires s.pipes[p].camp in s.rows
    requires HasPipe(After(cfg, s, ls), p)
    requires var g := After(cfg, s, ls).pipes[p].stage;
      g.Deleting? && (g.outcome == Halted || g.outcome == Unread || g.outcome == Outcome.Ended)
    requires var c := s.pipes[p].camp; forall l | l in ls :: !(l.ByApi? && l.api.SetStatus? && l.api.camp == c)
    ensures var c := s.pipes[p].camp;
      c in After(cfg, s, ls).rows && After(cfg, s, ls).rows[c].status == s.rows[c].status
  {
    OutcomeIsWhatWasDone(cfg, s, ls, p);
    forall l | l in ls ensures !WritesStatus(l, p) {
      if WritesStatus(l, p) { WritesAre(l, p); }
    }
    StatusUntouched(cfg, s, ls, p);
  }
}
