/**
  Structure of the reachable states: what is registered, who holds the count a
  pipe is created with, and what the WaitGroup of a pipe counts.
*/
module CampaignWaitGroup {
  import opened Wrappers
  import opened Counting
  import opened CampaignModel

  // ---------------------------------------------------------------- what the WaitGroup counts

  predicate Of(m: Msg, p: nat) { m.pipe == Some(p) }

  /** The worker holds a message of `p` whose `Done` is still to come. */
  predicate Owes(w: Worker, p: nat) {
    (w.Held? || w.Cleared? || w.Dropping? || w.Pushed?) && Of(w.msg, p)
  }

  function OwedByWorkers(ws: seq<Worker>, p: nat): nat { Count(ws, w => Owes(w, p)) }

  function OwedInQueue(q: seq<Msg>, p: nat): nat { Count(q, m => Of(m, p)) }

  function OwedByProducer(r: Runner, p: nat): nat { if r.Handing? && r.pipe == p then 1 else 0 }

  /** Messages of `p` that exist and are not done: with the producer, queued, or with a worker. */
  function Owed(s: State, p: nat): nat {
    OwedByProducer(s.runner, p) + OwedInQueue(s.queue, p) + OwedByWorkers(s.workers, p)
  }

  function ScannerToken(c: Scanner, p: nat): nat { if ScannerHolds(c) && c.pipe == p then 1 else 0 }

  function RunnerToken(r: Runner, p: nat): nat { if !r.Ready? && r.pipe == p then 1 else 0 }

  function ChannelTokens(ps: seq<nat>, p: nat): nat { Count(ps, q => q == p) }

  /** How many places hold the count that `p` was created with. */
  function Tokens(s: State, p: nat): nat {
    ScannerToken(s.scanner, p) + ChannelTokens(s.nextPipes, p) + RunnerToken(s.runner, p)
  }

  lemma WorkerReplaced(ws: seq<Worker>, i: nat, w: Worker, p: nat)
    requires i < |ws|
    ensures OwedByWorkers(ws[i := w], p) + (if Owes(ws[i], p) then 1 else 0)
         == OwedByWorkers(ws, p) + if Owes(w, p) then 1 else 0
    ensures Owes(ws[i], p) ==> OwedByWorkers(ws, p) >= 1
  {
    CountReplaced(ws, i, w, w => Owes(w, p));
    CountPositive(ws, w => Owes(w, p));
  }

  lemma QueueAppended(q: seq<Msg>, m: Msg, p: nat)
    ensures OwedInQueue(q + [m], p) == OwedInQueue(q, p) + if Of(m, p) then 1 else 0
  {
    CountAppended(q, m, m => Of(m, p));
  }

  lemma ChannelAppended(ps: seq<nat>, x: nat, p: nat)
    ensures ChannelTokens(ps + [x], p) == ChannelTokens(ps, p) + if x == p then 1 else 0
  {
    CountAppended(ps, x, q => q == p);
  }

  // ---------------------------------------------------------------- shape and registry

  /** Every reference points at a pipe, and every campaign mentioned has a row. */
  predicate Shape(cfg: Config, s: State) {
    && s.books.Keys == s.rows.Keys
    && |s.workers| == cfg.workers
    && (forall p | 0 <= p < |s.pipes| :: s.pipes[p].camp in s.rows)
    && (forall i | 0 <= i < |s.nextPipes| :: HasPipe(s, s.nextPipes[i]))
    && (!s.runner.Ready? ==> HasPipe(s, s.runner.pipe))
    && (ScannerHolds(s.scanner) ==> HasPipe(s, s.scanner.pipe))
    && (forall i | 0 <= i < |s.queue| :: MsgOk(s, s.queue[i]))
    && (forall w | 0 <= w < |s.workers| ::
          if s.workers[w].Free? then true
          else if s.workers[w].Raising? then HasPipe(s, s.workers[w].pipe)
          else MsgOk(s, s.workers[w].msg) && (s.workers[w].Tallying? ==> s.workers[w].msg.pipe.Some?))
  }

  /** A pipe is live from its creation until its cleanup has removed it from the registry. */
  predicate Live(s: State, p: nat) {
    HasPipe(s, p) && !s.pipes[p].stage.Gone?
  }

  function Todo(c: Scanner): seq<int> {
    if c.Asleep? || c.Snapped? then [] else c.todo
  }

  predicate InScanner(c: Scanner, p: nat) { c.Created? && c.pipe == p }

  /** Live pipes are the registered ones, plus the one the scanner has created and not yet registered. */
  predicate Registry(s: State) {
    && (forall c | c in s.registry :: Live(s, s.registry[c]) && s.pipes[s.registry[c]].camp == c)
    && (forall p | 0 <= p < |s.pipes| && Live(s, p) :: Registered(s, p) || InScanner(s.scanner, p))
    && (s.scanner.Snapped? ==> s.registry.Keys <= s.scanner.ids)
    && Distinct(Todo(s.scanner))
    && (forall i | 0 <= i < |Todo(s.scanner)| ::
          Todo(s.scanner)[i] in s.rows && Todo(s.scanner)[i] !in s.registry)
    && (s.scanner.Created? ==>
          Live(s, s.scanner.pipe)
          && s.pipes[s.scanner.pipe].camp !in s.registry
          && s.pipes[s.scanner.pipe].camp !in s.scanner.todo)
  }

  // ---------------------------------------------------------------- the count

  predicate WgOk(s: State, p: nat)
    requires HasPipe(s, p)
  {
    && s.pipes[p].wg == Tokens(s, p) + Owed(s, p)
    && Tokens(s, p) <= 1
    && (s.pipes[p].stage != Waiting ==> s.pipes[p].wg == 0)
  }

  predicate Inv(cfg: Config, s: State) {
    Shape(cfg, s) && Registry(s) && forall p | 0 <= p < |s.pipes| :: WgOk(s, p)
  }

  // ---------------------------------------------------------------- preservation: shape and registry

  /** No step removes a row, forgets a pipe or moves one to another campaign. */
  predicate Keeps(s: State, t: State) {
    && t.rows.Keys == s.rows.Keys && t.books.Keys == s.books.Keys
    && |s.pipes| <= |t.pipes|
    && (forall p | 0 <= p < |s.pipes| :: t.pipes[p].camp == s.pipes[p].camp)
  }

  /** Neither the registry nor the scanner nor the life of a pipe changes. */
  predicate SameLife(s: State, t: State) {
    && t.registry == s.registry && t.scanner == s.scanner && t.rows.Keys == s.rows.Keys
    && |t.pipes| == |s.pipes|
    && (forall p | 0 <= p < |s.pipes| ::
          t.pipes[p].camp == s.pipes[p].camp && t.pipes[p].stage.Gone? == s.pipes[p].stage.Gone?)
  }

  lemma RegistryKept(s: State, t: State)
    requires Registry(s) && SameLife(s, t)
    ensures Registry(t)
  {}

  lemma RunnerFrame(cfg: Config, s: State, a: RunAct)
    requires Shape(cfg, s) && RunEnabled(cfg, s, a)
    ensures var t := RunApply(cfg, s, a); Keeps(s, t) && SameLife(s, t) && t.workers == s.workers
  {}

  lemma WorkerFrame(cfg: Config, s: State, w: nat, a: WorkAct)
    requires Shape(cfg, s) && WorkEnabled(cfg, s, w, a)
    ensures var t := WorkApply(cfg, s, w, a); Keeps(s, t) && SameLife(s, t)
    ensures var t := WorkApply(cfg, s, w, a); t.runner == s.runner && t.nextPipes == s.nextPipes
  {}

  lemma ApiFrame(cfg: Config, s: State, a: ApiAct)
    requires Shape(cfg, s) && ApiEnabled(cfg, s, a)
    ensures var t := ApiApply(cfg, s, a); Keeps(s, t) && SameLife(s, t)
  {}

  lemma CleanupFrame(cfg: Config, s: State, p: nat, a: CleanAct)
    requires Shape(cfg, s) && CleanEnabled(cfg, s, p, a)
    ensures var t := CleanApply(cfg, s, p, a);
      Keeps(s, t) && t.runner == s.runner && t.nextPipes == s.nextPipes
      && t.workers == s.workers && t.queue == s.queue && t.scanner == s.scanner
  {}

  lemma ScannerFrame(cfg: Config, s: State, a: ScanAct)
    requires Shape(cfg, s) && Registry(s) && ScanEnabled(cfg, s, a)
    ensures var t := ScanApply(cfg, s, a);
      Keeps(s, t) && t.runner == s.runner && t.workers == s.workers && t.queue == s.queue
  {}

  lemma ShapeByScanner(cfg: Config, s: State, a: ScanAct)
    requires Shape(cfg, s) && Registry(s) && ScanEnabled(cfg, s, a)
    ensures Shape(cfg, ScanApply(cfg, s, a))
  {
    ScannerFrame(cfg, s, a);
  }

  lemma ShapeByRunner(cfg: Config, s: State, a: RunAct)
    requires Shape(cfg, s) && RunEnabled(cfg, s, a)
    ensures Shape(cfg, RunApply(cfg, s, a))
  {
    RunnerFrame(cfg, s, a);
    var t := RunApply(cfg, s, a);
    forall i | 0 <= i < |t.queue| ensures MsgOk(t, t.queue[i]) {
      if i < |s.queue| { assert MsgOk(s, s.queue[i]); }
    }
    forall w | 0 <= w < |t.workers| && t.workers[w].Held? ensures MsgOk(t, t.workers[w].msg) {
      assert MsgOk(s, s.workers[w].msg);
    }
  }

  lemma ShapeByWorker(cfg: Config, s: State, w: nat, a: WorkAct)
    requires Shape(cfg, s) && WorkEnabled(cfg, s, w, a)
    ensures Shape(cfg, WorkApply(cfg, s, w, a))
  {
    WorkerFrame(cfg, s, w, a);
  }

  lemma ShapeByCleanup(cfg: Config, s: State, p: nat, a: CleanAct)
    requires Shape(cfg, s) && CleanEnabled(cfg, s, p, a)
    ensures Shape(cfg, CleanApply(cfg, s, p, a))
  {}

  lemma ShapeByApi(cfg: Config, s: State, a: ApiAct)
    requires Shape(cfg, s) && ApiEnabled(cfg, s, a)
    ensures Shape(cfg, ApiApply(cfg, s, a))
  {}

  /** The steps that create a pipe and that register it. */
  lemma RegistryByLaunch(cfg: Config, s: State, a: ScanAct)
    requires Shape(cfg, s) && Registry(s) && ScanEnabled(cfg, s, a) && (a.CreatePipe? || a.RegisterPipe?)
    ensures Registry(ScanApply(cfg, s, a))
  {
    ScannerFrame(cfg, s, a);
    var t := ScanApply(cfg, s, a);
    forall p | 0 <= p < |t.pipes| && Live(t, p) ensures Registered(t, p) || InScanner(t.scanner, p) {
      if p < |s.pipes| { assert Live(s, p); }
    }
  }

  lemma RegistryByScanner(cfg: Config, s: State, a: ScanAct)
    requires Shape(cfg, s) && Registry(s) && ScanEnabled(cfg, s, a)
    ensures Registry(ScanApply(cfg, s, a))
  {
    if a.CreatePipe? || a.RegisterPipe? {
      RegistryByLaunch(cfg, s, a);
    } else {
      ScannerFrame(cfg, s, a);
      var t := ScanApply(cfg, s, a);
      forall p | 0 <= p < |t.pipes| && Live(t, p) ensures Registered(t, p) || InScanner(t.scanner, p) {
        assert Live(s, p);
      }
    }
  }

  lemma RegistryByCleanup(cfg: Config, s: State, p: nat, a: CleanAct)
    requires Shape(cfg, s) && Registry(s) && CleanEnabled(cfg, s, p, a) && WgOk(s, p)
    ensures Registry(CleanApply(cfg, s, p, a))
  {
    CleanupFrame(cfg, s, p, a);
    var t := CleanApply(cfg, s, p, a);
    if a != Unregister {
      assert SameLife(s, t);
      RegistryKept(s, t);
    } else {
      assert !InScanner(s.scanner, p);
      assert Registered(s, p);
      forall q | 0 <= q < |t.pipes| && Live(t, q) ensures Registered(t, q) || InScanner(t.scanner, q) {
        assert Live(s, q) && q != p;
      }
    }
  }

  // ---------------------------------------------------------------- preservation: the count

  /** Nothing holds a message of a pipe that does not exist yet. */
  lemma FreshPipe(cfg: Config, s: State, p: nat)
    requires Shape(cfg, s) && !HasPipe(s, p)
    ensures Tokens(s, p) == 0 && Owed(s, p) == 0
  {
    CountPositive(s.nextPipes, q => q == p);
    CountPositive(s.workers, w => Owes(w, p));
    CountPositive(s.queue, m => Of(m, p));
  }

  lemma WgByScanner(cfg: Config, s: State, a: ScanAct, p: nat)
    requires Shape(cfg, s) && ScanEnabled(cfg, s, a)
    requires HasPipe(ScanApply(cfg, s, a), p)
    requires HasPipe(s, p) ==> WgOk(s, p)
    ensures WgOk(ScanApply(cfg, s, a), p)
  {
    if a.OfferPipe? {
      ChannelAppended(s.nextPipes, s.scanner.pipe, p);
    } else if a.CreatePipe? && p == |s.pipes| {
      FreshPipe(cfg, s, p);
    }
  }

  lemma WgByRunner(cfg: Config, s: State, a: RunAct, p: nat)
    requires RunEnabled(cfg, s, a)
    requires HasPipe(s, p) && WgOk(s, p)
    ensures WgOk(RunApply(cfg, s, a), p)
  {
    if a.OfferAgain? {
      ChannelAppended(s.nextPipes, s.runner.pipe, p);
    } else if a.Send? {
      QueueAppended(s.queue, Msg(s.pipes[s.runner.pipe].camp, s.runner.id, Some(s.runner.pipe)), p);
    }
  }

  lemma WgByWorker(cfg: Config, s: State, w: nat, a: WorkAct, p: nat)
    requires WorkEnabled(cfg, s, w, a)
    requires HasPipe(s, p) && WgOk(s, p)
    ensures WgOk(WorkApply(cfg, s, w, a), p)
  {
    WorkerReplaced(s.workers, w, WorkApply(cfg, s, w, a).workers[w], p);
  }

  lemma WgByCleanup(cfg: Config, s: State, q: nat, a: CleanAct, p: nat)
    requires CleanEnabled(cfg, s, q, a)
    requires HasPipe(s, p) && WgOk(s, p)
    ensures WgOk(CleanApply(cfg, s, q, a), p)
  {}

  lemma WgByApi(cfg: Config, s: State, a: ApiAct, p: nat)
    requires ApiEnabled(cfg, s, a)
    requires HasPipe(s, p) && WgOk(s, p)
    ensures WgOk(ApiApply(cfg, s, a), p)
  {
    if a.PushTest? { QueueAppended(s.queue, Msg(a.camp, a.id, None), p); }
  }

  // ---------------------------------------------------------------- every run

  lemma InvInit(cfg: Config, s: State)
    requires Init(cfg, s)
    ensures Inv(cfg, s)
  {}

  lemma InvStep(cfg: Config, s: State, l: Label)
    requires Inv(cfg, s) && Enabled(cfg, s, l)
    ensures Inv(cfg, Apply(cfg, s, l))
  {
    var t := Apply(cfg, s, l);
    match l {
      case ByScanner(a) =>
        ShapeByScanner(cfg, s, a);
        RegistryByScanner(cfg, s, a);
        forall p | 0 <= p < |t.pipes| ensures WgOk(t, p) { WgByScanner(cfg, s, a, p); }
      case ByRunner(a) =>
        ShapeByRunner(cfg, s, a);
        RunnerFrame(cfg, s, a);
        RegistryKept(s, t);
        forall p | 0 <= p < |t.pipes| ensures WgOk(t, p) { WgByRunner(cfg, s, a, p); }
      case ByWorker(w, a) =>
        ShapeByWorker(cfg, s, w, a);
        WorkerFrame(cfg, s, w, a);
        RegistryKept(s, t);
        forall p | 0 <= p < |t.pipes| ensures WgOk(t, p) { WgByWorker(cfg, s, w, a, p); }
      case ByCleanup(q, a) =>
        CleanupFrame(cfg, s, q, a);
        ShapeByCleanup(cfg, s, q, a);
        RegistryByCleanup(cfg, s, q, a);
        forall p | 0 <= p < |t.pipes| ensures WgOk(t, p) { WgByCleanup(cfg, s, q, a, p); }
      case ByApi(a) =>
        ShapeByApi(cfg, s, a);
        ApiFrame(cfg, s, a);
        RegistryKept(s, t);
        forall p | 0 <= p < |t.pipes| ensures WgOk(t, p) { WgByApi(cfg, s, a, p); }
    }
  }

  lemma {:induction false} InvRun(cfg: Config, s: State, ls: seq<Label>)
    requires Inv(cfg, s) && IsRun(cfg, s, ls)
    ensures Inv(cfg, After(cfg, s, ls))
    decreases |ls|
  {
    if ls != [] {
      InvStep(cfg, s, ls[0]);
      InvRun(cfg, Apply(cfg, s, ls[0]), ls[1..]);
    }
  }

  lemma RowsKept(cfg: Config, s: State, l: Label)
    requires Inv(cfg, s) && Enabled(cfg, s, l)
    ensures Apply(cfg, s, l).rows.Keys == s.rows.Keys && Apply(cfg, s, l).books.Keys == s.books.Keys
  {
    match l
    case ByScanner(a) => ScannerFrame(cfg, s, a);
    case ByRunner(a) => RunnerFrame(cfg, s, a);
    case ByWorker(w, a) => WorkerFrame(cfg, s, w, a);
    case ByCleanup(q, a) => CleanupFrame(cfg, s, q, a);
    case ByApi(a) => ApiFrame(cfg, s, a);
  }

  predicate Reachable(cfg: Config, s0: State, ls: seq<Label>) { Init(cfg, s0) && IsRun(cfg, s0, ls) }

  lemma InvReachable(cfg: Config, s0: State, ls: seq<Label>)
    requires Reachable(cfg, s0, ls)
    ensures Inv(cfg, After(cfg, s0, ls))
  {
    InvInit(cfg, s0);
    InvRun(cfg, s0, ls);
  }

  // ---------------------------------------------------------------- main results

  /** In every reachable state a pipe's WaitGroup is exactly its first count, if still held, plus
      its messages with the producer, in the queue, or with a worker before `Done`. */
  lemma CountIsExact(cfg: Config, s0: State, ls: seq<Label>, p: nat)
    requires Reachable(cfg, s0, ls) && HasPipe(After(cfg, s0, ls), p)
    ensures var s := After(cfg, s0, ls);
      s.pipes[p].wg == Tokens(s, p) + Owed(s, p) && 0 <= Tokens(s, p) <= 1
  {
    InvReachable(cfg, s0, ls);
    assert WgOk(After(cfg, s0, ls), p);
  }

  lemma ZeroByScanner(cfg: Config, s: State, a: ScanAct, p: nat)
    requires ScanEnabled(cfg, s, a) && HasPipe(s, p) && WgOk(s, p) && s.pipes[p].wg == 0
    ensures HasPipe(ScanApply(cfg, s, a), p) && ScanApply(cfg, s, a).pipes[p].wg == 0
  {}

  lemma ZeroByRunner(cfg: Config, s: State, a: RunAct, p: nat)
    requires RunEnabled(cfg, s, a) && HasPipe(s, p) && WgOk(s, p) && s.pipes[p].wg == 0
    ensures HasPipe(RunApply(cfg, s, a), p) && RunApply(cfg, s, a).pipes[p].wg == 0
  {}

  lemma ZeroByWorker(cfg: Config, s: State, w: nat, a: WorkAct, p: nat)
    requires WorkEnabled(cfg, s, w, a) && HasPipe(s, p) && WgOk(s, p) && s.pipes[p].wg == 0
    ensures HasPipe(WorkApply(cfg, s, w, a), p) && WorkApply(cfg, s, w, a).pipes[p].wg == 0
  {
    CountPositive(s.workers, w => Owes(w, p));
  }

  /** The count is never negative, and once zero it stays zero. */
  lemma CountNeverRises(cfg: Config, s: State, l: Label, p: nat)
    requires Inv(cfg, s) && Enabled(cfg, s, l) && HasPipe(s, p)
    ensures HasPipe(Apply(cfg, s, l), p) && Apply(cfg, s, l).pipes[p].wg >= 0
    ensures s.pipes[p].wg == 0 ==> Apply(cfg, s, l).pipes[p].wg == 0
  {
    InvStep(cfg, s, l);
    PipesGrow(cfg, s, l);
    assert WgOk(s, p) && WgOk(Apply(cfg, s, l), p);
    if s.pipes[p].wg == 0 {
      match l
      case ByScanner(a) => ZeroByScanner(cfg, s, a, p);
      case ByRunner(a) => ZeroByRunner(cfg, s, a, p);
      case ByWorker(w, a) => ZeroByWorker(cfg, s, w, a, p);
      case ByCleanup(q, a) =>
      case ByApi(a) =>
    }
  }

  /** `l` gives back the count that `p` was created with. */
  predicate IsRelease(s: State, l: Label, p: nat) {
    || (l == ByScanner(ScanRelease) && ScannerHolds(s.scanner) && s.scanner.pipe == p)
    || (l == ByRunner(RunRelease) && !s.runner.Ready? && s.runner.pipe == p)
  }

  predicate IsCreation(s: State, l: Label, p: nat) { l == ByScanner(CreatePipe) && p == |s.pipes| }

  lemma TokenByScanner(cfg: Config, s: State, a: ScanAct, p: nat)
    requires ScanEnabled(cfg, s, a)
    ensures Tokens(ScanApply(cfg, s, a), p) + (if IsRelease(s, ByScanner(a), p) then 1 else 0)
         == Tokens(s, p) + if IsCreation(s, ByScanner(a), p) then 1 else 0
  {
    if a.OfferPipe? { ChannelAppended(s.nextPipes, s.scanner.pipe, p); }
  }

  lemma TokenByRunner(cfg: Config, s: State, a: RunAct, p: nat)
    requires RunEnabled(cfg, s, a)
    ensures Tokens(RunApply(cfg, s, a), p) + (if IsRelease(s, ByRunner(a), p) then 1 else 0) == Tokens(s, p)
  {
    if a.OfferAgain? { ChannelAppended(s.nextPipes, s.runner.pipe, p); }
  }

  /** The first count moves between places; only a creation makes it and only a release ends it. */
  lemma TokenStep(cfg: Config, s: State, l: Label, p: nat)
    requires Enabled(cfg, s, l)
    ensures Tokens(Apply(cfg, s, l), p) + (if IsRelease(s, l, p) then 1 else 0)
         == Tokens(s, p) + if IsCreation(s, l, p) then 1 else 0
  {
    match l
    case ByScanner(a) => TokenByScanner(cfg, s, a, p);
    case ByRunner(a) => TokenByRunner(cfg, s, a, p);
    case _ =>
  }

  function Releases(cfg: Config, s: State, ls: seq<Label>, p: nat): nat
    requires IsRun(cfg, s, ls)
    decreases |ls|
  {
    if ls == [] then 0
    else (if IsRelease(s, ls[0], p) then 1 else 0) + Releases(cfg, Apply(cfg, s, ls[0]), ls[1..], p)
  }

  lemma {:induction false} TokenConserved(cfg: Config, s: State, ls: seq<Label>, p: nat)
    requires Inv(cfg, s) && IsRun(cfg, s, ls)
    ensures var t := After(cfg, s, ls);
      |s.pipes| <= |t.pipes| &&
      Tokens(t, p) + Releases(cfg, s, ls, p) == Tokens(s, p) + if !HasPipe(s, p) && HasPipe(t, p) then 1 else 0
    decreases |ls|
  {
    if ls != [] {
      var s1 := Apply(cfg, s, ls[0]);
      InvStep(cfg, s, ls[0]);
      TokenStep(cfg, s, ls[0], p);
      PipesGrow(cfg, s, ls[0]);
      TokenConserved(cfg, s1, ls[1..], p);
    }
  }

  lemma PipesGrow(cfg: Config, s: State, l: Label)
    requires Enabled(cfg, s, l)
    ensures |Apply(cfg, s, l).pipes| == |s.pipes| + if l == ByScanner(CreatePipe) then 1 else 0
  {}

  /** On every path the first count of a pipe is given back exactly once, unless it is still held. */
  lemma ReleasedExactlyOnce(cfg: Config, s0: State, ls: seq<Label>, p: nat)
    requires Reachable(cfg, s0, ls) && HasPipe(After(cfg, s0, ls), p)
    ensures Releases(cfg, s0, ls, p) + Tokens(After(cfg, s0, ls), p) == 1
  {
    InvInit(cfg, s0);
    TokenConserved(cfg, s0, ls, p);
  }

  predicate StartsCleanup(l: Label, p: nat) { l.ByCleanup? && l.pipe == p && l.clean.Flush? }

  function Cleanups(ls: seq<Label>, p: nat): nat {
    Count(ls, (l: Label) => StartsCleanup(l, p))
  }

  lemma {:induction false} CleanupsCounted(cfg: Config, s: State, ls: seq<Label>, p: nat)
    requires Inv(cfg, s) && IsRun(cfg, s, ls)
    ensures var t := After(cfg, s, ls);
      |s.pipes| <= |t.pipes| &&
      Cleanups(ls, p) + (if HasPipe(s, p) && s.pipes[p].stage != Waiting then 1 else 0)
      == if HasPipe(t, p) && t.pipes[p].stage != Waiting then 1 else 0
    decreases |ls|
  {
    if ls != [] {
      InvStep(cfg, s, ls[0]);
      PipesGrow(cfg, s, ls[0]);
      StageStep(cfg, s, ls[0], p);
      CleanupsCounted(cfg, Apply(cfg, s, ls[0]), ls[1..], p);
    }
  }

  lemma StageStep(cfg: Config, s: State, l: Label, p: nat)
    requires Enabled(cfg, s, l)
    ensures var t := Apply(cfg, s, l);
      (if HasPipe(t, p) && t.pipes[p].stage != Waiting then 1 else 0)
      == (if HasPipe(s, p) && s.pipes[p].stage != Waiting then 1 else 0)
         + if StartsCleanup(l, p) then 1 else 0
  {}

  /** Cleanup starts at most once in a run. */
  lemma CleanupAtMostOnce(cfg: Config, s0: State, ls: seq<Label>, p: nat)
    requires Reachable(cfg, s0, ls)
    ensures Cleanups(ls, p) <= 1
    ensures Cleanups(ls, p) == 1 ==> HasPipe(After(cfg, s0, ls), p) && After(cfg, s0, ls).pipes[p].stage != Waiting
  {
    InvInit(cfg, s0);
    CleanupsCounted(cfg, s0, ls, p);
  }

  /** From the moment cleanup may start, nothing of the pipe is in the channel, in the queue,
      or with the scanner, the producer or a worker before `Done`. */
  lemma NothingPendingAtCleanup(cfg: Config, s0: State, ls: seq<Label>, p: nat)
    requires Reachable(cfg, s0, ls) && HasPipe(After(cfg, s0, ls), p)
    requires After(cfg, s0, ls).pipes[p].wg == 0 || After(cfg, s0, ls).pipes[p].stage != Waiting
    ensures var s := After(cfg, s0, ls);
      && p !in s.nextPipes
      && (forall i | 0 <= i < |s.queue| :: !Of(s.queue[i], p))
      && (forall w | 0 <= w < |s.workers| :: !Owes(s.workers[w], p))
      && (!s.runner.Ready? ==> s.runner.pipe != p)
      && (ScannerHolds(s.scanner) ==> s.scanner.pipe != p)
  {
    InvReachable(cfg, s0, ls);
    Quiet(After(cfg, s0, ls), p);
  }

  lemma Quiet(s: State, p: nat)
    requires HasPipe(s, p) && WgOk(s, p) && s.pipes[p].wg == 0
    ensures p !in s.nextPipes
    ensures forall i | 0 <= i < |s.queue| :: !Of(s.queue[i], p)
    ensures forall w | 0 <= w < |s.workers| :: !Owes(s.workers[w], p)
    ensures !s.runner.Ready? ==> s.runner.pipe != p
    ensures ScannerHolds(s.scanner) ==> s.scanner.pipe != p
  {
    CountPositive(s.nextPipes, q => q == p);
    CountPositive(s.queue, m => Of(m, p));
    CountPositive(s.workers, w => Owes(w, p));
  }

  /** At most one live pipe exists per campaign, and once registered it is the registered one. */
  lemma OneLivePipe(cfg: Config, s0: State, ls: seq<Label>, p: nat, q: nat)
    requires Reachable(cfg, s0, ls)
    requires Live(After(cfg, s0, ls), p) && Live(After(cfg, s0, ls), q)
    requires After(cfg, s0, ls).pipes[p].camp == After(cfg, s0, ls).pipes[q].camp
    ensures p == q
    ensures var s := After(cfg, s0, ls); Registered(s, p) || (s.scanner.Created? && s.scanner.pipe == p)
  {
    InvReachable(cfg, s0, ls);
  }

  /** The delete at the end of a cleanup removes the entry of the pipe that is cleaning up, and no other. */
  lemma UnregisterRemovesItself(cfg: Config, s0: State, ls: seq<Label>, p: nat)
    requires Reachable(cfg, s0, ls) && Enabled(cfg, After(cfg, s0, ls), ByCleanup(p, Unregister))
    ensures var s := After(cfg, s0, ls); var t := Apply(cfg, s, ByCleanup(p, Unregister));
      && Registered(s, p)
      && (forall q | HasPipe(s, q) :: Registered(t, q) <==> Registered(s, q) && q != p)
  {
    InvReachable(cfg, s0, ls);
    var s := After(cfg, s0, ls);
    Quiet(s, p);
    assert Live(s, p);
  }
}
