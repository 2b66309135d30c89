/**
  Every pipe ends.  A weight per pipe goes down with each step taken for the
  pipe and is never raised by the steps of others, and while some pipe is live
  the manager can always take a step.
*/
module CampaignProgress {
  import opened Wrappers
  import opened Counting
  import opened CampaignModel
  import opened CampaignWaitGroup
  import opened CampaignDelivery

  // ---------------------------------------------------------------- weights

  function WorkerWeight(w: Worker, o: Option<nat>): nat {
    if Target(w) != o then 0
    else match w
      case Free => 0
      case Held(m) => 6
      case Cleared(m) => 5
      case Dropping(m) => 4
      case Pushed(m, ok) => 4
      case Tallying(m, ok) => 3
      case Raising(p) => 2
  }

  function QueueWeight(m: Msg, o: Option<nat>): nat { if m.pipe == o then 7 else 0 }

  /** Messages of `o` in the queue and with the workers; `None` stands for the test messages. */
  function LineWeight(q: seq<Msg>, ws: seq<Worker>, o: Option<nat>): nat {
    Sum(q, m => QueueWeight(m, o)) + Sum(ws, w => WorkerWeight(w, o))
  }

  /** Where the pipe's first count is: each move brings it closer to its release, except the return
      from the channel to a new batch, which uses up at least one id. */
  function HolderWeight(s: State, p: nat): nat {
    (if !ScannerHolds(s.scanner) || s.scanner.pipe != p then 0
     else match s.scanner
       case Created(_, _) => 6
       case Offering(_, _) => 5
       case ScanHalting(_, _) => 2
       case _ => 1)
    + 4 * ChannelTokens(s.nextPipes, p)
    + (if s.runner.Ready? || s.runner.pipe != p then 0
       else match s.runner
         case Fetching(_) => 3
         case Sending(_, rest) => 6 + 9 * |rest|
         case Handing(_, _, rest) => 6 + 9 * |rest| + 8
         case Requeueing(_) => 5
         case RunHalting(_) => 2
         case _ => 1)
  }

  /** Ids between the checkpoint and the maximum, as long as the pipe can still fetch. */
  function IdsLeft(s: State, p: nat): nat
    requires HasPipe(s, p)
  {
    if Tokens(s, p) == 0 || s.pipes[p].camp !in s.rows then 0
    else var r := s.rows[s.pipes[p].camp]; if r.max <= r.checkpoint then 0 else r.max - r.checkpoint
  }

  function StageWeight(g: Stage): nat {
    match g
    case Waiting => 6
    case Flushed => 5
    case NoErrors => 4
    case Pausing => 2
    case Finishing => 3
    case Marking => 2
    case Deleting(_) => 1
    case Gone(_) => 0
  }

  function PipeWeight(s: State, p: nat): nat
    requires HasPipe(s, p)
  {
    13 * IdsLeft(s, p) + HolderWeight(s, p) + LineWeight(s.queue, s.workers, Some(p)) + StageWeight(s.pipes[p].stage)
  }

  // ---------------------------------------------------------------- steps

  /** The steps that the manager's own goroutines take for a pipe or a message; the others are the
      scanner's periodic work and the API. */
  predicate Working(l: Label) {
    match l
    case ByScanner(a) => a.RegisterPipe? || a.OfferPipe? || a.ScanStop? || a.ScanRelease?
    case ByApi(a) => false
    case _ => true
  }

  /** Whom a working step is taken for. */
  function OwnerOf(cfg: Config, s: State, l: Label): Option<nat>
    requires Enabled(cfg, s, l) && Working(l)
  {
    match l
    case ByScanner(a) => Some(s.scanner.pipe)
    case ByRunner(a) => Some(if a.TakePipe? then s.nextPipes[0] else s.runner.pipe)
    case ByWorker(w, a) => if a.Dequeue? then s.queue[0].pipe else Target(s.workers[w])
    case ByCleanup(p, a) => Some(p)
  }

  lemma {:induction false} BatchFits(batch: seq<nat>, low: nat)
    requires Ascending(batch) && batch != [] && low < batch[0]
    ensures |batch| <= batch[|batch| - 1] - low
    decreases |batch|
  {
    if |batch| > 1 {
      BatchFits(batch[..|batch| - 1], low);
    }
  }

  lemma HolderByScanner(cfg: Config, s: State, a: ScanAct, p: nat)
    requires ScanEnabled(cfg, s, a) && HasPipe(s, p)
    ensures HolderWeight(ScanApply(cfg, s, a), p)
         <= HolderWeight(s, p) - if Working(ByScanner(a)) && s.scanner.pipe == p then 1 else 0
  {
    if a.OfferPipe? { ChannelAppended(s.nextPipes, s.scanner.pipe, p); }
  }

  lemma IdsByScanner(cfg: Config, s: State, a: ScanAct, p: nat)
    requires Shape(cfg, s) && Registry(s) && ScanEnabled(cfg, s, a) && HasPipe(s, p) && WgOk(s, p)
    ensures HasPipe(ScanApply(cfg, s, a), p) && IdsLeft(ScanApply(cfg, s, a), p) <= IdsLeft(s, p)
  {
    TokenByScanner(cfg, s, a, p);
    if Tokens(s, p) > 0 { assert Live(s, p); }
  }

  lemma WeightByScanner(cfg: Config, s: State, a: ScanAct, p: nat)
    requires Shape(cfg, s) && Registry(s) && ScanEnabled(cfg, s, a) && HasPipe(s, p) && WgOk(s, p)
    ensures HasPipe(ScanApply(cfg, s, a), p)
    ensures PipeWeight(ScanApply(cfg, s, a), p)
         <= PipeWeight(s, p) - if Working(ByScanner(a)) && s.scanner.pipe == p then 1 else 0
  {
    IdsByScanner(cfg, s, a, p);
    HolderByScanner(cfg, s, a, p);
    var t := ScanApply(cfg, s, a);
    assert t.pipes[p].stage == s.pipes[p].stage && t.queue == s.queue && t.workers == s.workers;
  }

  /** A page that is not empty takes at least as many ids from the range as it has rows. */
  lemma FetchUsesIds(cfg: Config, s: State, a: RunAct, p: nat)
    requires Shape(cfg, s) && Registry(s) && RunEnabled(cfg, s, a) && a.Fetch? && HasPipe(s, p) && WgOk(s, p)
    requires WgOk(s, s.runner.pipe)
    ensures IdsLeft(RunApply(cfg, s, a), p) <= IdsLeft(s, p) - if s.runner.pipe == p then |a.batch| else 0
  {
    var q := s.runner.pipe;
    if a.batch != [] { BatchFits(a.batch, s.rows[s.pipes[q].camp].checkpoint); }
    FirstCountStillHeld(s, q);
    if Tokens(s, p) > 0 && s.pipes[p].camp == s.pipes[q].camp { SameCampaignSamePipe(s, p, q); }
  }

  lemma IdsByRunner(cfg: Config, s: State, a: RunAct, p: nat)
    requires RunEnabled(cfg, s, a) && !a.Fetch? && HasPipe(s, p)
    ensures IdsLeft(RunApply(cfg, s, a), p) <= IdsLeft(s, p)
  {
    if a.OfferAgain? { ChannelAppended(s.nextPipes, s.runner.pipe, p); }
  }

  /** The count held by the runner, and the ids and messages on their way to the queue. */
  lemma HolderByRunner(cfg: Config, s: State, a: RunAct, p: nat)
    requires RunEnabled(cfg, s, a) && HasPipe(s, p)
    ensures var t := RunApply(cfg, s, a);
      HolderWeight(t, p) + (if a.Send? && s.runner.pipe == p then 7 else 0)
      <= HolderWeight(s, p) + (if a.Fetch? && s.runner.pipe == p then 13 * |a.batch| else 0)
         - if OwnerOf(cfg, s, ByRunner(a)) == Some(p) then 1 else 0
  {
    if a.OfferAgain? { ChannelAppended(s.nextPipes, s.runner.pipe, p); }
  }

  lemma LineByRunner(cfg: Config, s: State, a: RunAct, p: nat)
    requires RunEnabled(cfg, s, a) && HasPipe(s, p)
    ensures var t := RunApply(cfg, s, a);
      && t.pipes[p].stage == s.pipes[p].stage
      && LineWeight(t.queue, t.workers, Some(p))
         == LineWeight(s.queue, s.workers, Some(p)) + if a.Send? && s.runner.pipe == p then 7 else 0
  {
    if a.Send? {
      var m := Msg(s.pipes[s.runner.pipe].camp, s.runner.id, Some(s.runner.pipe));
      SumAppended(s.queue, m, m => QueueWeight(m, Some(p)));
    }
  }

  lemma WeightByRunner(cfg: Config, s: State, a: RunAct, p: nat)
    requires Shape(cfg, s) && Registry(s) && RunEnabled(cfg, s, a) && HasPipe(s, p) && WgOk(s, p)
    requires !s.runner.Ready? ==> WgOk(s, s.runner.pipe)
    ensures HasPipe(RunApply(cfg, s, a), p)
    ensures PipeWeight(RunApply(cfg, s, a), p)
         <= PipeWeight(s, p) - if OwnerOf(cfg, s, ByRunner(a)) == Some(p) then 1 else 0
  {
    if a.Fetch? { FetchUsesIds(cfg, s, a, p); } else { IdsByRunner(cfg, s, a, p); }
    HolderByRunner(cfg, s, a, p);
    LineByRunner(cfg, s, a, p);
  }

  lemma LineByWorker(cfg: Config, s: State, w: nat, a: WorkAct, o: Option<nat>)
    requires WorkEnabled(cfg, s, w, a)
    ensures var t := WorkApply(cfg, s, w, a);
      LineWeight(t.queue, t.workers, o)
      <= LineWeight(s.queue, s.workers, o) - if OwnerOf(cfg, s, ByWorker(w, a)) == o then 1 else 0
  {
    SumReplaced(s.workers, w, WorkApply(cfg, s, w, a).workers[w], w => WorkerWeight(w, o));
  }

  lemma WeightByWorker(cfg: Config, s: State, w: nat, a: WorkAct, p: nat)
    requires WorkEnabled(cfg, s, w, a) && HasPipe(s, p)
    ensures HasPipe(WorkApply(cfg, s, w, a), p)
    ensures PipeWeight(WorkApply(cfg, s, w, a), p)
         <= PipeWeight(s, p) - if OwnerOf(cfg, s, ByWorker(w, a)) == Some(p) then 1 else 0
  {
    LineByWorker(cfg, s, w, a, Some(p));
    var t := WorkApply(cfg, s, w, a);
    assert t.pipes[p].stage == s.pipes[p].stage && IdsLeft(t, p) == IdsLeft(s, p);
  }

  /** A flush moves the checkpoint back only for a pipe that cannot fetch any more. */
  lemma IdsByCleanup(cfg: Config, s: State, q: nat, a: CleanAct, p: nat)
    requires Registry(s) && CleanEnabled(cfg, s, q, a) && HasPipe(s, p) && WgOk(s, p)
    ensures IdsLeft(CleanApply(cfg, s, q, a), p) == IdsLeft(s, p)
  {
    if a.Flush? && p != q && Tokens(s, p) > 0 && s.pipes[p].camp == s.pipes[q].camp {
      SameCampaignSamePipe(s, p, q);
    }
  }

  lemma WeightByCleanup(cfg: Config, s: State, q: nat, a: CleanAct, p: nat)
    requires Registry(s) && CleanEnabled(cfg, s, q, a) && HasPipe(s, p) && WgOk(s, p)
    ensures PipeWeight(CleanApply(cfg, s, q, a), p) <= PipeWeight(s, p) - if p == q then 1 else 0
  {
    IdsByCleanup(cfg, s, q, a, p);
  }

  lemma WeightByStop(cfg: Config, s: State, a: ApiAct, p: nat)
    requires a.StopCampaign? && ApiEnabled(cfg, s, a) && HasPipe(s, p)
    ensures PipeWeight(ApiApply(cfg, s, a), p) == PipeWeight(s, p)
  {}

  lemma WeightByTest(cfg: Config, s: State, c: int, id: nat, p: nat)
    requires ApiEnabled(cfg, s, PushTest(c, id)) && HasPipe(s, p)
    ensures PipeWeight(ApiApply(cfg, s, PushTest(c, id)), p) == PipeWeight(s, p)
  {
    SumAppended(s.queue, Msg(c, id, None), m => QueueWeight(m, Some(p)));
  }

  lemma WeightByApi(cfg: Config, s: State, a: ApiAct, p: nat)
    requires ApiEnabled(cfg, s, a) && HasPipe(s, p)
    ensures PipeWeight(ApiApply(cfg, s, a), p) <= PipeWeight(s, p)
  {
    match a
    case PushTest(c, id) => WeightByTest(cfg, s, c, id, p);
    case StopCampaign(_) => WeightByStop(cfg, s, a, p);
    case SetStatus(_, _) =>
  }

  lemma WeightStep(cfg: Config, s: State, l: Label, p: nat)
    requires Inv(cfg, s) && Enabled(cfg, s, l) && HasPipe(s, p)
    ensures HasPipe(Apply(cfg, s, l), p)
    ensures PipeWeight(Apply(cfg, s, l), p)
         <= PipeWeight(s, p) - if Working(l) && OwnerOf(cfg, s, l) == Some(p) then 1 else 0
  {
    assert WgOk(s, p);
    match l
    case ByScanner(a) => WeightByScanner(cfg, s, a, p);
    case ByRunner(a) => WeightByRunner(cfg, s, a, p);
    case ByWorker(w, a) => WeightByWorker(cfg, s, w, a, p);
    case ByCleanup(q, a) => WeightByCleanup(cfg, s, q, a, p);
    case ByApi(a) => WeightByApi(cfg, s, a, p);
  }

  // ---------------------------------------------------------------- main results

  /** The steps of a run that are taken for `p`. */
  function StepsFor(cfg: Config, s: State, ls: seq<Label>, p: nat): nat
    requires IsRun(cfg, s, ls)
    decreases |ls|
  {
    if ls == [] then 0
    else (if Working(ls[0]) && OwnerOf(cfg, s, ls[0]) == Some(p) then 1 else 0)
         + StepsFor(cfg, Apply(cfg, s, ls[0]), ls[1..], p)
  }

  /** A pipe's life is finite: from any state on, whatever the scanner, the API and other pipes do, at
      most as many steps are taken for it as it weighs. */
  lemma {:induction false} PipeLifeIsFinite(cfg: Config, s: State, ls: seq<Label>, p: nat)
    requires Inv(cfg, s) && IsRun(cfg, s, ls) && HasPipe(s, p)
    ensures HasPipe(After(cfg, s, ls), p)
    ensures StepsFor(cfg, s, ls, p) + PipeWeight(After(cfg, s, ls), p) <= PipeWeight(s, p)
    decreases |ls|
  {
    if ls != [] {
      InvStep(cfg, s, ls[0]);
      WeightStep(cfg, s, ls[0], p);
      PipeLifeIsFinite(cfg, Apply(cfg, s, ls[0]), ls[1..], p);
    }
  }

  /** While a message is queued or a worker busy, some worker can take a step. */
  lemma LineMoves(cfg: Config, s: State) returns (l: Label)
    requires ValidConfig(cfg) && Inv(cfg, s)
    requires s.queue != [] || exists w :: 0 <= w < |s.workers| && !s.workers[w].Free?
    ensures Working(l) && Enabled(cfg, s, l)
  {
    if w :| 0 <= w < |s.workers| && !s.workers[w].Free? {
      var x := s.workers[w];
      l := ByWorker(w, match x
                       case Held(m) => CheckStop
                       case Cleared(m) => Push(true)
                       case Tallying(m, ok) => Tally
                       case Raising(q) => RaiseStop
                       case _ => MarkDone);
    } else {
      l := ByWorker(0, Dequeue);
    }
  }

  /** While a pipe is live, some goroutine of the manager can take a step. */
  lemma NeverStuck(cfg: Config, s: State, p: nat) returns (l: Label)
    requires ValidConfig(cfg) && Inv(cfg, s) && Live(s, p)
    ensures Working(l) && Enabled(cfg, s, l)
  {
    if s.queue != [] || exists w :: 0 <= w < |s.workers| && !s.workers[w].Free? {
      l := LineMoves(cfg, s);
    } else if !s.runner.Ready? {
      l := ByRunner(match s.runner
                    case Fetching(q) => Fetch({}, [])
                    case Sending(q, rest) => if rest == [] then EndBatch else Render(true)
                    case Handing(q, id, rest) => Send
                    case Requeueing(q) => OfferAgain
                    case RunHalting(q) => RunStop
                    case _ => RunRelease);
    } else if s.nextPipes != [] {
      l := ByRunner(TakePipe);
    } else if ScannerHolds(s.scanner) {
      l := ByScanner(match s.scanner
                     case Created(q, todo) => RegisterPipe
                     case Offering(q, todo) => OfferPipe
                     case ScanHalting(q, todo) => ScanStop
                     case _ => ScanRelease);
    } else {
      CountPositive(s.workers, w => Owes(w, p));
      assert WgOk(s, p) && s.pipes[p].wg == 0;
      l := ByCleanup(p, match s.pipes[p].stage
                        case Waiting => Flush(true)
                        case Flushed => ReadErrors
                        case NoErrors => ReadStopped
                        case Pausing => PauseRow(true)
                        case Finishing => ReadRow(true)
                        case Marking => FinishRow(true)
                        case _ => Unregister);
    }
  }

  function Weights(s: State): seq<nat> {
    seq(|s.pipes|, p requires 0 <= p < |s.pipes| => PipeWeight(s, p))
  }

  function TotalWeight(s: State): nat {
    Sum(Weights(s), x => x) + LineWeight(s.queue, s.workers, None)
  }

  lemma {:induction false} SumDrops(xs: seq<nat>, ys: seq<nat>, o: int)
    requires |xs| == |ys| && forall k | 0 <= k < |xs| :: ys[k] + (if o == k then 1 else 0) <= xs[k]
    ensures Sum(ys, x => x) + (if 0 <= o < |xs| then 1 else 0) <= Sum(xs, x => x)
  {
    if xs != [] {
      SumDrops(xs[1..], ys[1..], o - 1);
    }
  }

  lemma TotalStep(cfg: Config, s: State, l: Label)
    requires Inv(cfg, s) && Enabled(cfg, s, l) && Working(l)
    ensures TotalWeight(Apply(cfg, s, l)) < TotalWeight(s)
  {
    PipesDrop(cfg, s, l);
    TestLineDrops(cfg, s, l);
    OwnerExists(cfg, s, l);
  }

  /** The weights of the pipes go down by one if the step is taken for one of them, and do not rise otherwise. */
  lemma PipesDrop(cfg: Config, s: State, l: Label)
    requires Inv(cfg, s) && Enabled(cfg, s, l) && Working(l)
    ensures var o := OwnerOf(cfg, s, l);
      Sum(Weights(Apply(cfg, s, l)), x => x) + (if o.Some? && HasPipe(s, o.value) then 1 else 0)
      <= Sum(Weights(s), x => x)
  {
    var t := Apply(cfg, s, l);
    var o := OwnerOf(cfg, s, l);
    PipesGrow(cfg, s, l);
    forall p | 0 <= p < |s.pipes| ensures PipeWeight(t, p) <= PipeWeight(s, p) - if o == Some(p) then 1 else 0 {
      WeightStep(cfg, s, l, p);
    }
    SumDrops(Weights(s), Weights(t), if o.Some? then o.value else -1);
  }

  /** The same for the test messages, which belong to no pipe. */
  lemma TestLineDrops(cfg: Config, s: State, l: Label)
    requires Inv(cfg, s) && Enabled(cfg, s, l) && Working(l)
    ensures var t := Apply(cfg, s, l);
      LineWeight(t.queue, t.workers, None) + (if l.ByWorker? && OwnerOf(cfg, s, l).None? then 1 else 0)
      <= LineWeight(s.queue, s.workers, None)
  {
    match l
    case ByWorker(w, a) => LineByWorker(cfg, s, w, a, None);
    case ByRunner(a) =>
      if a.Send? {
        var m := Msg(s.pipes[s.runner.pipe].camp, s.runner.id, Some(s.runner.pipe));
        SumAppended(s.queue, m, m => QueueWeight(m, None));
      }
    case _ =>
  }

  lemma OwnerExists(cfg: Config, s: State, l: Label)
    requires Inv(cfg, s) && Enabled(cfg, s, l) && Working(l)
    ensures var o := OwnerOf(cfg, s, l);
      if o.Some? then HasPipe(s, o.value) else l.ByWorker?
  {}

  /** Working steps alone come to an end. */
  lemma {:induction false} WorkIsFinite(cfg: Config, s: State, ls: seq<Label>)
    requires Inv(cfg, s) && IsRun(cfg, s, ls) && forall i | 0 <= i < |ls| :: Working(ls[i])
    ensures |ls| + TotalWeight(After(cfg, s, ls)) <= TotalWeight(s)
    decreases |ls|
  {
    if ls != [] {
      assert Working(ls[0]);
      InvStep(cfg, s, ls[0]);
      TotalStep(cfg, s, ls[0]);
      WorkIsFinite(cfg, Apply(cfg, s, ls[0]), ls[1..]);
    }
  }

  /** Once no working step is left, stopped or not, every pipe has been cleaned up and nothing is registered. */
  lemma EveryPipeIsCleanedUp(cfg: Config, s: State)
    requires ValidConfig(cfg) && Inv(cfg, s)
    requires forall l: Label | Working(l) :: !Enabled(cfg, s, l)
    ensures forall p | 0 <= p < |s.pipes| :: s.pipes[p].stage.Gone?
    ensures forall c :: c !in s.registry
  {
    forall c | c in s.registry ensures false {
      var l := NeverStuck(cfg, s, s.registry[c]);
    }
    forall p | 0 <= p < |s.pipes| ensures s.pipes[p].stage.Gone? {
      if Live(s, p) { var l := NeverStuck(cfg, s, p); }
    }
  }

  /** From every reachable state the working steps lead there. */
  lemma {:induction false} CleanupIsReached(cfg: Config, s: State) returns (ls: seq<Label>)
    requires ValidConfig(cfg) && Inv(cfg, s)
    ensures IsRun(cfg, s, ls) && |ls| <= TotalWeight(s) && (forall i | 0 <= i < |ls| :: Working(ls[i]))
    ensures forall p | 0 <= p < |After(cfg, s, ls).pipes| :: After(cfg, s, ls).pipes[p].stage.Gone?
    decreases TotalWeight(s)
  {
    if p :| 0 <= p < |s.pipes| && Live(s, p) {
      var l := NeverStuck(cfg, s, p);
      InvStep(cfg, s, l);
      TotalStep(cfg, s, l);
      var rest := CleanupIsReached(cfg, Apply(cfg, s, l));
      ls := [l] + rest;
      assert ls[1..] == rest;
    } else {
      forall p | 0 <= p < |s.pipes| ensures s.pipes[p].stage.Gone? { assert !Live(s, p); }
      ls := [];
    }
  }
}
