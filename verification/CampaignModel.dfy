/**
  The campaign manager as a state machine.

  One scanner goroutine creates pipes, one runner goroutine fetches batches of
  subscribers and fills a bounded queue, `workers` goroutines drain the queue,
  and one cleanup goroutine per pipe waits for the pipe's WaitGroup to reach
  zero.  API calls may interleave anywhere.

  A step is one access to shared state, except that these are one step each:
  the snapshot of ids and counts taken under the read lock, the counter updates
  of a worker after `Done` (Tally), and the counter reads of a cleanup together
  with the store call that takes them (Flush).  `Done`, the counters after it,
  the store call that receives a snapshot, and the deletion of a pipe from the
  registry are separate steps, so every interleaving between them is a run.

  Fields of `Log` and `Books` are history: no step reads them to decide anything.
*/
module CampaignModel {
  import opened Wrappers
  import opened Counting

  datatype Status = Draft | Running | Scheduled | Paused | Cancelled | Finished

  /** The columns of a campaign's database row that the manager reads or writes. */
  datatype Row = Row(status: Status, checkpoint: nat, max: nat, sent: nat)

  datatype Config = Config(workers: nat, queueCap: nat, pipeCap: nat, maxErrors: int, batch: nat)

  predicate ValidConfig(cfg: Config) {
    cfg.workers >= 1 && cfg.queueCap >= 1 && cfg.pipeCap >= 1 && cfg.batch >= 1
  }

  /** The configuration that `New` derives from the settings: a setting below one is replaced, and the queue has room
      for two seconds' messages of all workers. */
  function NewConfig(concurrency: int, messageRate: int, batchSize: int, maxErrors: int): (cfg: Config)
    ensures ValidConfig(cfg)
    ensures concurrency >= 1 ==> cfg.workers == concurrency
    ensures concurrency < 1 ==> cfg.workers == 1
    ensures batchSize >= 1 ==> cfg.batch == batchSize
    ensures batchSize < 1 ==> cfg.batch == 1000
    ensures messageRate >= 1 ==> cfg.queueCap == 2 * cfg.workers * messageRate
    ensures messageRate < 1 ==> cfg.queueCap == 2 * cfg.workers
    ensures cfg.pipeCap == 1000 && cfg.maxErrors == maxErrors
  {
    var n := if concurrency < 1 then 1 else concurrency;
    var r := if messageRate < 1 then 1 else messageRate;
    assert n * r >= 1;
    Config(n, n * r * 2, 1000, maxErrors, if batchSize < 1 then 1000 else batchSize)
  }

  /** A queued message.  Messages sent as a test from the API belong to no pipe. */
  datatype Msg = Msg(camp: int, id: nat, pipe: Option<nat>)

  /** Why a pipe gave up the count it was created with. */
  datatype Release = NotYet | Exhausted | NotRunning | FetchFailed | Overflow

  /** Where the cleanup goroutine of a pipe stands. */
  datatype Outcome = PausedByErrors | Halted | Unread | Ended | MarkedFinished | MarkFailed
  datatype Stage = Waiting | Flushed | NoErrors | Pausing | Finishing | Marking
                 | Deleting(outcome: Outcome) | Gone(outcome: Outcome)

  datatype Log = Log(
    start: nat,                  // the row's checkpoint when the pipe was created
    fetched: seq<nat>,           // ids returned by the store, in order
    audiences: seq<set<nat>>,    // ids matching the campaign at each fetch that found it running
    cap: nat,                    // the row's maximum id at the last such fetch
    unrendered: seq<nat>,   // ids whose message failed to render
    dropped: seq<nat>,      // ids discarded because the pipe was stopped
    succeeded: seq<nat>,    // ids handed to the messenger without an error
    failed: seq<nat>,       // ids whose push returned an error
    release: Release,
    flushed: nat)                // part of `sent` already stored by cleanup

  datatype Pipe = Pipe(camp: int, wg: int, sent: nat, lastID: nat, errors: nat,
                       stopped: bool, withErrors: bool, stage: Stage, log: Log)

  datatype Scanner =
    | Asleep
    | Snapped(ids: set<int>, counts: map<int, nat>)
    | Starting(todo: seq<int>)
    | Created(pipe: nat, todo: seq<int>)
    | Offering(pipe: nat, todo: seq<int>)
    | ScanHalting(pipe: nat, todo: seq<int>)
    | ScanReleasing(pipe: nat, todo: seq<int>)

  datatype Runner =
    | Ready
    | Fetching(pipe: nat)
    | Sending(pipe: nat, rest: seq<nat>)
    | Handing(pipe: nat, id: nat, rest: seq<nat>)
    | Requeueing(pipe: nat)
    | RunHalting(pipe: nat)
    | RunReleasing(pipe: nat)

  datatype Worker =
    | Free
    | Held(msg: Msg)
    | Cleared(msg: Msg)
    | Dropping(msg: Msg)
    | Pushed(msg: Msg, ok: bool)
    | Tallying(msg: Msg, ok: bool)
    | Raising(pipe: nat)

  /** Per campaign history. */
  datatype Books = Books(
    base: nat,               // the row's sent count at the start
    wins: seq<nat>,     // every id pushed successfully by any pipe of the campaign
    lost: nat,               // counted successes that no store call will ever receive
    doubled: nat,            // successes whose count was given to the store a second time
    early: bool)             // some flush stored a checkpoint below an uncounted success

  datatype State = State(
    rows: map<int, Row>,
    books: map<int, Books>,
    pipes: seq<Pipe>,            // every pipe ever created, by identity
    registry: map<int, nat>,     // m.pipes: campaign id to pipe
    nextPipes: seq<nat>,
    queue: seq<Msg>,
    scanner: Scanner,
    runner: Runner,
    workers: seq<Worker>)

  predicate Init(cfg: Config, s: State) {
    && s.books.Keys == s.rows.Keys
    && (forall c | c in s.rows :: s.books[c] == Books(s.rows[c].sent, [], 0, 0, false))
    && s.pipes == [] && s.registry == map[] && s.nextPipes == [] && s.queue == []
    && s.scanner == Asleep && s.runner == Ready
    && |s.workers| == cfg.workers
    && (forall w | 0 <= w < |s.workers| :: s.workers[w] == Free)
  }

  // ---------------------------------------------------------------- helpers

  function NewPipe(camp: int, checkpoint: nat): Pipe {
    Pipe(camp, 1, 0, 0, 0, false, false, Waiting,
         Log(checkpoint, [], [], 0, [], [], [], [], NotYet, 0))
  }

  predicate HasPipe(s: State, p: nat) { p < |s.pipes| }

  predicate Registered(s: State, p: nat) {
    HasPipe(s, p) && s.pipes[p].camp in s.registry && s.registry[s.pipes[p].camp] == p
  }

  // ---------------------------------------------------------------- scanner

  datatype ScanAct =
    | Snapshot
    | Scan(found: seq<int>, stored: set<int>, touched: map<int, nat>)
    | ScanError(stored: set<int>, touched: map<int, nat>)
    | CreatePipe
    | RejectCampaign(cancel: bool)
    | RegisterPipe
    | OfferPipe
    | ScanStop
    | ScanRelease
    | ScanDone

  /** The rows after NextCampaigns, which visits the active tenants in turn: counts are added, and campaigns that
      are not being processed may start running with a new maximum id. */
  function ScannedRows(rows: map<int, Row>, counts: map<int, nat>, touched: map<int, nat>): map<int, Row> {
    map c | c in rows ::
      rows[c].(sent := rows[c].sent + (if c in counts then counts[c] else 0),
               status := if c in touched then Running else rows[c].status,
               max := if c in touched then touched[c] else rows[c].max)
  }

  function Snapped0(s: State, i: nat): Pipe
    requires HasPipe(s, i)
  {
    if Registered(s, i) then s.pipes[i].(sent := 0, log := s.pipes[i].log.(flushed := 0)) else s.pipes[i]
  }

  function SnapCounts(s: State): map<int, nat> {
    map c | c in s.registry :: if HasPipe(s, s.registry[c]) then s.pipes[s.registry[c]].sent else 0
  }

  function SnapBooks(s: State): map<int, Books> {
    map c | c in s.books ::
      if c in s.registry && HasPipe(s, s.registry[c])
      then s.books[c].(doubled := s.books[c].doubled + s.pipes[s.registry[c]].log.flushed)
      else s.books[c]
  }

  /** Counts that NextCampaigns did not store are gone, whether it failed or did not visit the tenant. */
  function LoseCounts(books: map<int, Books>, counts: map<int, nat>, stored: set<int>): map<int, Books> {
    map c | c in books ::
      if c in counts && c !in stored then books[c].(lost := books[c].lost + counts[c]) else books[c]
  }

  predicate Active(r: Row) { r.status == Running || r.status == Scheduled }

  predicate Distinct<T(==)>(xs: seq<T>) { forall i, j | 0 <= i < j < |xs| :: xs[i] != xs[j] }

  predicate ScanEnabled(cfg: Config, s: State, a: ScanAct) {
    (ScannerHolds(s.scanner) ==> HasPipe(s, s.scanner.pipe)) &&
    match a
    case Snapshot => s.scanner.Asleep?
    case Scan(found, stored, touched) =>
      && s.scanner.Snapped?
      && stored <= s.rows.Keys
      && Distinct(found)
      && (forall i | 0 <= i < |found| :: found[i] in s.rows && Active(s.rows[found[i]]) && found[i] !in s.scanner.ids)
      && (forall c | c in touched :: c in s.rows && Active(s.rows[c]) && c !in s.scanner.ids)
    case ScanError(stored, touched) =>
      && s.scanner.Snapped?
      && stored <= s.rows.Keys
      && (forall c | c in touched :: c in s.rows && Active(s.rows[c]) && c !in s.scanner.ids)
    case CreatePipe => s.scanner.Starting? && s.scanner.todo != [] && s.scanner.todo[0] in s.rows
    case RejectCampaign(cancel) => s.scanner.Starting? && s.scanner.todo != [] && s.scanner.todo[0] in s.rows
    case RegisterPipe => s.scanner.Created?
    case OfferPipe => s.scanner.Offering?
    case ScanStop => s.scanner.ScanHalting?
    case ScanRelease => s.scanner.ScanReleasing?
    case ScanDone => s.scanner.Starting? && s.scanner.todo == []
  }

  /** The pipe that the scanner has in hand. */
  predicate ScannerHolds(c: Scanner) { c.Created? || c.Offering? || c.ScanHalting? || c.ScanReleasing? }

  predicate Room(cfg: Config, s: State) { |s.nextPipes| < cfg.pipeCap }

  function NextScanner(cfg: Config, s: State, a: ScanAct): Scanner
    requires ScanEnabled(cfg, s, a)
  {
    var c := s.scanner;
    match a
    case Snapshot => Snapped(s.registry.Keys, SnapCounts(s))
    case Scan(found, stored, touched) => Starting(found)
    case ScanError(stored, touched) => Asleep
    case CreatePipe => Created(|s.pipes|, c.todo[1..])
    case RejectCampaign(cancel) => Starting(c.todo[1..])
    case RegisterPipe => Offering(c.pipe, c.todo)
    // A full channel makes the scanner stop the pipe and give its count back.
    case OfferPipe => if Room(cfg, s) then Starting(c.todo) else ScanHalting(c.pipe, c.todo)
    case ScanStop => ScanReleasing(c.pipe, c.todo)
    case ScanRelease => Starting(c.todo)
    case ScanDone => Asleep
  }

  /** What a scanner step does to the pipe in its hand. */
  function ScanPipe(cfg: Config, s: State, x: Pipe, a: ScanAct): Pipe {
    match a
    case OfferPipe => if Room(cfg, s) then x else x.(log := x.log.(release := Overflow))
    case ScanStop => x.(stopped := true)
    case ScanRelease => x.(wg := x.wg - 1)
    case _ => x
  }

  function ScanPipes(cfg: Config, s: State, a: ScanAct): seq<Pipe>
    requires ScanEnabled(cfg, s, a)
  {
    if a.Snapshot? then seq(|s.pipes|, i requires 0 <= i < |s.pipes| => Snapped0(s, i))
    else if a.CreatePipe? then s.pipes + [NewPipe(s.scanner.todo[0], s.rows[s.scanner.todo[0]].checkpoint)]
    else if ScannerHolds(s.scanner) then s.pipes[s.scanner.pipe := ScanPipe(cfg, s, s.pipes[s.scanner.pipe], a)]
    else s.pipes
  }

  function ScanRows(cfg: Config, s: State, a: ScanAct): map<int, Row>
    requires ScanEnabled(cfg, s, a)
  {
    match a
    case Scan(found, stored, touched) => ScannedRows(s.rows, StoredCounts(s.scanner.counts, stored), touched)
    case ScanError(stored, touched) => ScannedRows(s.rows, StoredCounts(s.scanner.counts, stored), touched)
    // A campaign with an unknown messenger is cancelled; the other failures leave its row alone.
    case RejectCampaign(cancel) =>
      var c := s.scanner.todo[0];
      if cancel then s.rows[c := s.rows[c].(status := Cancelled)] else s.rows
    case _ => s.rows
  }

  function StoredCounts(counts: map<int, nat>, stored: set<int>): map<int, nat> {
    map c | c in counts && c in stored :: counts[c]
  }

  function ScanApply(cfg: Config, s: State, a: ScanAct): State
    requires ScanEnabled(cfg, s, a)
  {
    s.(scanner := NextScanner(cfg, s, a),
       pipes := ScanPipes(cfg, s, a),
       rows := ScanRows(cfg, s, a),
       books := if a.Snapshot? then SnapBooks(s)
                else if a.Scan? || a.ScanError? then LoseCounts(s.books, s.scanner.counts, a.stored) else s.books,
       registry := if a.RegisterPipe? then s.registry[s.pipes[s.scanner.pipe].camp := s.scanner.pipe] else s.registry,
       nextPipes := if a.OfferPipe? && Room(cfg, s) then s.nextPipes + [s.scanner.pipe] else s.nextPipes)
  }

  // ---------------------------------------------------------------- runner

  datatype RunAct =
    | TakePipe
    | Fetch(audience: set<nat>, batch: seq<nat>)
    | FetchError
    | Render(ok: bool)
    | Send
    | EndBatch
    | OfferAgain
    | RunStop
    | RunRelease

  /** What the store's query returns: the ids of `audience` in (low, high], in
      ascending order, the smallest first, at most `limit` of them. */
  predicate IsPage(batch: seq<nat>, audience: set<nat>, low: nat, high: nat, limit: nat) {
    && Ascending(batch)
    && |batch| <= limit
    && (forall i | 0 <= i < |batch| :: batch[i] in audience && low < batch[i] <= high)
    && (forall a | a in audience && low < a <= high ::
          a in batch || (|batch| == limit && forall i | 0 <= i < |batch| :: batch[i] < a))
  }

  predicate RunEnabled(cfg: Config, s: State, a: RunAct) {
    (s.runner.Ready? || HasPipe(s, s.runner.pipe)) &&
    match a
    case TakePipe => s.runner.Ready? && s.nextPipes != [] && HasPipe(s, s.nextPipes[0])
    case Fetch(audience, batch) =>
      && s.runner.Fetching? && s.pipes[s.runner.pipe].camp in s.rows
      && var r := s.rows[s.pipes[s.runner.pipe].camp];
         if r.status == Running then IsPage(batch, audience, r.checkpoint, r.max, cfg.batch) else batch == []
    case FetchError => s.runner.Fetching?
    case Render(ok) => s.runner.Sending? && s.runner.rest != []
    case Send => s.runner.Handing? && |s.queue| < cfg.queueCap
    case EndBatch => s.runner.Sending? && s.runner.rest == []
    case OfferAgain => s.runner.Requeueing?
    case RunStop => s.runner.RunHalting?
    case RunRelease => s.runner.RunReleasing?
  }

  function Fetched(x: Pipe, r: Row, audience: set<nat>, batch: seq<nat>): Pipe {
    var running := r.status == Running;
    x.(log := x.log.(
         fetched := x.log.fetched + batch,
         audiences := if running then x.log.audiences + [audience] else x.log.audiences,
         cap := if running then r.max else x.log.cap,
         release := if batch != [] then x.log.release else if running then Exhausted else NotRunning))
  }

  function NextRunner(cfg: Config, s: State, a: RunAct): Runner
    requires RunEnabled(cfg, s, a)
  {
    var r := s.runner;
    match a
    case TakePipe => Fetching(s.nextPipes[0])
    case Fetch(audience, batch) => if batch == [] then RunReleasing(r.pipe) else Sending(r.pipe, batch)
    case FetchError => RunHalting(r.pipe)
    case Render(ok) => if ok then Handing(r.pipe, r.rest[0], r.rest[1..]) else Sending(r.pipe, r.rest[1..])
    case Send => Sending(r.pipe, r.rest)
    case EndBatch => Requeueing(r.pipe)
    // A full channel makes the runner stop the pipe and give its count back.
    case OfferAgain => if Room(cfg, s) then Ready else RunHalting(r.pipe)
    case RunStop => RunReleasing(r.pipe)
    case RunRelease => Ready
  }

  /** What a runner step does to the pipe in its hand. */
  function RunPipe(cfg: Config, s: State, x: Pipe, a: RunAct): Pipe
    requires RunEnabled(cfg, s, a)
  {
    match a
    case Fetch(audience, batch) => Fetched(x, s.rows[s.pipes[s.runner.pipe].camp], audience, batch)
    case FetchError => x.(log := x.log.(release := FetchFailed))
    case Render(ok) =>
      if ok then x.(wg := x.wg + 1)
      else x.(log := x.log.(unrendered := x.log.unrendered + [s.runner.rest[0]]))
    case OfferAgain => if Room(cfg, s) then x else x.(log := x.log.(release := Overflow))
    case RunStop => x.(stopped := true)
    case RunRelease => x.(wg := x.wg - 1)
    case _ => x
  }

  function RunRows(cfg: Config, s: State, a: RunAct): map<int, Row>
    requires RunEnabled(cfg, s, a)
  {
    if a.Fetch? && a.batch != [] then
      var c := s.pipes[s.runner.pipe].camp;
      s.rows[c := s.rows[c].(checkpoint := a.batch[|a.batch| - 1])]
    else s.rows
  }

  function RunApply(cfg: Config, s: State, a: RunAct): State
    requires RunEnabled(cfg, s, a)
  {
    s.(runner := NextRunner(cfg, s, a),
       pipes := if s.runner.Ready? then s.pipes
                else s.pipes[s.runner.pipe := RunPipe(cfg, s, s.pipes[s.runner.pipe], a)],
       rows := RunRows(cfg, s, a),
       nextPipes := if a.TakePipe? then s.nextPipes[1..]
                    else if a.OfferAgain? && Room(cfg, s) then s.nextPipes + [s.runner.pipe] else s.nextPipes,
       queue := if a.Send? then s.queue + [Msg(s.pipes[s.runner.pipe].camp, s.runner.id, Some(s.runner.pipe))]
                else s.queue)
  }

  // ---------------------------------------------------------------- workers

  datatype WorkAct = Dequeue | CheckStop | Push(ok: bool) | MarkDone | Tally | RaiseStop

  predicate MsgOk(s: State, m: Msg) {
    m.pipe.Some? ==> HasPipe(s, m.pipe.value) && s.pipes[m.pipe.value].camp == m.camp && m.camp in s.books
  }

  predicate WorkEnabled(cfg: Config, s: State, w: nat, a: WorkAct) {
    w < |s.workers| &&
    var x := s.workers[w];
    (x.Free? || x.Raising? || MsgOk(s, x.msg)) &&
    match a
    case Dequeue => x.Free? && s.queue != []
    case CheckStop => x.Held?
    case Push(ok) => x.Cleared?
    case MarkDone => x.Dropping? || x.Pushed?
    case Tally => x.Tallying? && x.msg.pipe.Some?
    case RaiseStop => x.Raising? && HasPipe(s, x.pipe)
  }

  /** The pipe that worker `w` is acting for. */
  function Target(x: Worker): Option<nat> {
    if x.Free? then None else if x.Raising? then Some(x.pipe) else x.msg.pipe
  }

  /** OnError reaches the threshold and finds the pipe not yet stopped. */
  predicate Trips(cfg: Config, x: Pipe) {
    cfg.maxErrors >= 1 && x.errors + 1 >= cfg.maxErrors && !x.stopped
  }

  function NextWorker(cfg: Config, s: State, x: Worker, a: WorkAct): Worker
    requires x.Free? || x.Raising? || MsgOk(s, x.msg)
    requires a.Dequeue? ==> s.queue != []
    requires a.CheckStop? ==> x.Held?
    requires a.Push? ==> x.Cleared?
    requires a.MarkDone? ==> x.Dropping? || x.Pushed?
    requires a.Tally? ==> x.Tallying? && x.msg.pipe.Some?
  {
    match a
    case Dequeue => Held(s.queue[0])
    case CheckStop =>
      if x.msg.pipe.Some? && s.pipes[x.msg.pipe.value].stopped then Dropping(x.msg) else Cleared(x.msg)
    case Push(ok) => Pushed(x.msg, ok)
    case MarkDone => if x.Pushed? && x.msg.pipe.Some? then Tallying(x.msg, x.ok) else Free
    case Tally => if !x.ok && Trips(cfg, s.pipes[x.msg.pipe.value]) then Raising(x.msg.pipe.value) else Free
    case RaiseStop => Free
  }

  /** Counter updates after a successful push. */
  function CountSuccess(x: Pipe, id: nat): Pipe {
    x.(lastID := if id > x.lastID then id else x.lastID, sent := x.sent + 1)
  }

  /** OnError up to the store of `stopped`, which is a step of its own. */
  function CountError(cfg: Config, x: Pipe): Pipe {
    if cfg.maxErrors < 1 then x
    else x.(errors := x.errors + 1, withErrors := x.withErrors || Trips(cfg, x))
  }

  function Logged(x: Pipe, id: nat, ok: bool): Pipe {
    if ok then x.(log := x.log.(succeeded := x.log.succeeded + [id]))
    else x.(log := x.log.(failed := x.log.failed + [id]))
  }

  /** What a worker step does to the pipe it acts for. */
  function WorkPipe(cfg: Config, y: Pipe, x: Worker, a: WorkAct): Pipe
    requires a.CheckStop? || a.Push? || a.Tally? ==> !x.Free? && !x.Raising?
    requires a.Tally? ==> x.Tallying?
  {
    match a
    case Dequeue => y
    case CheckStop => if y.stopped then y.(log := y.log.(dropped := y.log.dropped + [x.msg.id])) else y
    case Push(ok) => Logged(y, x.msg.id, ok)
    case MarkDone => y.(wg := y.wg - 1)
    case Tally => if x.ok then CountSuccess(y, x.msg.id) else CountError(cfg, y)
    case RaiseStop => y.(stopped := true)
  }

  function WorkBooks(cfg: Config, s: State, x: Worker, a: WorkAct): map<int, Books>
    requires x.Free? || x.Raising? || MsgOk(s, x.msg)
    requires a.Push? ==> x.Cleared?
    requires a.Tally? ==> x.Tallying? && x.msg.pipe.Some?
  {
    if a == Push(true) && x.msg.pipe.Some? then
      var b := s.books[x.msg.camp];
      s.books[x.msg.camp := b.(wins := b.wins + [x.msg.id])]
    else if a.Tally? && x.ok && !Registered(s, x.msg.pipe.value) then
      var b := s.books[x.msg.camp];
      s.books[x.msg.camp := b.(lost := b.lost + 1)]
    else s.books
  }

  function WorkApply(cfg: Config, s: State, w: nat, a: WorkAct): State
    requires WorkEnabled(cfg, s, w, a)
  {
    var x := s.workers[w];
    s.(workers := s.workers[w := NextWorker(cfg, s, x, a)],
       queue := if a.Dequeue? then s.queue[1..] else s.queue,
       pipes := match Target(x)
                case None => s.pipes
                case Some(p) => s.pipes[p := WorkPipe(cfg, s.pipes[p], x, a)],
       books := WorkBooks(cfg, s, x, a))
  }

  // ---------------------------------------------------------------- cleanup

  datatype CleanAct =
    | Flush(ok: bool)
    | ReadErrors
    | ReadStopped
    | PauseRow(ok: bool)
    | ReadRow(ok: bool)
    | FinishRow(ok: bool)
    | Unregister

  predicate CleanEnabled(cfg: Config, s: State, p: nat, a: CleanAct) {
    HasPipe(s, p) && s.pipes[p].camp in s.rows && s.pipes[p].camp in s.books &&
    match a
    case Flush(ok) => s.pipes[p].stage == Waiting && s.pipes[p].wg == 0
    case ReadErrors => s.pipes[p].stage == Flushed
    case ReadStopped => s.pipes[p].stage == NoErrors
    case PauseRow(ok) => s.pipes[p].stage == Pausing
    case ReadRow(ok) => s.pipes[p].stage == Finishing
    case FinishRow(ok) => s.pipes[p].stage == Marking
    case Unregister => s.pipes[p].stage.Deleting?
  }

  /** UpdateCampaignCounts: the count is added, and the checkpoint replaced unless the given id is 0. */
  function CountsStored(r: Row, sent: nat, lastID: nat): Row {
    r.(sent := r.sent + sent, checkpoint := if lastID > 0 then lastID else r.checkpoint)
  }

  /** A worker has pushed `p`'s message `id` successfully but has not counted it. */
  predicate HoldsUncounted(w: Worker, p: nat, low: nat) {
    (w.Pushed? || w.Tallying?) && w.ok && w.msg.pipe == Some(p) && w.msg.id > low
  }

  /** A flush of `p` would set the checkpoint below an uncounted success.  With nothing counted it leaves the
      checkpoint alone. */
  predicate FlushesEarly(s: State, p: nat)
    requires HasPipe(s, p)
  {
    s.pipes[p].lastID > 0 &&
    exists w | 0 <= w < |s.workers| :: HoldsUncounted(s.workers[w], p, s.pipes[p].lastID)
  }

  function NextStage(cfg: Config, s: State, p: nat, a: CleanAct): Stage
    requires CleanEnabled(cfg, s, p, a)
  {
    var x := s.pipes[p];
    match a
    case Flush(ok) => Flushed
    case ReadErrors => if x.withErrors then Pausing else NoErrors
    case ReadStopped => if x.stopped then Deleting(Halted) else Finishing
    case PauseRow(ok) => Deleting(PausedByErrors)
    case ReadRow(ok) =>
      if !ok then Deleting(Unread) else if Active(s.rows[x.camp]) then Marking else Deleting(Ended)
    case FinishRow(ok) => Deleting(if ok then MarkedFinished else MarkFailed)
    case Unregister => Gone(x.stage.outcome)
  }

  function CleanRow(cfg: Config, s: State, p: nat, a: CleanAct): Row
    requires CleanEnabled(cfg, s, p, a)
  {
    var x := s.pipes[p];
    var r := s.rows[x.camp];
    match a
    case Flush(ok) => if ok then CountsStored(r, x.sent, x.lastID) else r
    case PauseRow(ok) => if ok then r.(status := Paused) else r
    case FinishRow(ok) => if ok then r.(status := Finished) else r
    case _ => r
  }

  /** What the pipe holds that neither a flush nor a snapshot has taken. */
  function Unflushed(x: Pipe): nat {
    if x.sent >= x.log.flushed then x.sent - x.log.flushed else 0
  }

  function CleanBooks(cfg: Config, s: State, p: nat, a: CleanAct): Books
    requires CleanEnabled(cfg, s, p, a)
  {
    var x := s.pipes[p];
    var b := s.books[x.camp];
    if a == Flush(true) then b.(early := b.early || FlushesEarly(s, p))
    else if a.Unregister? then b.(lost := b.lost + Unflushed(x))
    else b
  }

  function CleanApply(cfg: Config, s: State, p: nat, a: CleanAct): State
    requires CleanEnabled(cfg, s, p, a)
  {
    var x := s.pipes[p];
    s.(pipes := s.pipes[p := x.(stage := NextStage(cfg, s, p, a),
                                log := x.log.(flushed := if a == Flush(true) then x.sent else x.log.flushed))],
       rows := s.rows[x.camp := CleanRow(cfg, s, p, a)],
       books := s.books[x.camp := CleanBooks(cfg, s, p, a)],
       registry := if a.Unregister? then s.registry - {x.camp} else s.registry)
  }

  // ---------------------------------------------------------------- API

  datatype ApiAct =
    | StopCampaign(camp: int)
    | SetStatus(camp: int, status: Status)
    | PushTest(camp: int, id: nat)

  predicate ApiEnabled(cfg: Config, s: State, a: ApiAct) {
    match a
    case StopCampaign(c) => c in s.registry ==> HasPipe(s, s.registry[c])
    case SetStatus(c, st) => c in s.rows
    case PushTest(c, id) => |s.queue| < cfg.queueCap
  }

  function ApiApply(cfg: Config, s: State, a: ApiAct): State
    requires ApiEnabled(cfg, s, a)
  {
    match a
    case StopCampaign(c) =>
      if c in s.registry then
        s.(pipes := s.pipes[s.registry[c] := s.pipes[s.registry[c]].(stopped := true)])
      else s
    case SetStatus(c, st) => s.(rows := s.rows[c := s.rows[c].(status := st)])
    case PushTest(c, id) => s.(queue := s.queue + [Msg(c, id, None)])
  }

  // ---------------------------------------------------------------- runs

  datatype Label =
    | ByScanner(scan: ScanAct)
    | ByRunner(run: RunAct)
    | ByWorker(worker: nat, work: WorkAct)
    | ByCleanup(pipe: nat, clean: CleanAct)
    | ByApi(api: ApiAct)

  predicate Enabled(cfg: Config, s: State, l: Label) {
    match l
    case ByScanner(a) => ScanEnabled(cfg, s, a)
    case ByRunner(a) => RunEnabled(cfg, s, a)
    case ByWorker(w, a) => WorkEnabled(cfg, s, w, a)
    case ByCleanup(p, a) => CleanEnabled(cfg, s, p, a)
    case ByApi(a) => ApiEnabled(cfg, s, a)
  }

  function Apply(cfg: Config, s: State, l: Label): State
    requires Enabled(cfg, s, l)
  {
    match l
    case ByScanner(a) => ScanApply(cfg, s, a)
    case ByRunner(a) => RunApply(cfg, s, a)
    case ByWorker(w, a) => WorkApply(cfg, s, w, a)
    case ByCleanup(p, a) => CleanApply(cfg, s, p, a)
    case ByApi(a) => ApiApply(cfg, s, a)
  }

  /** `ls` is a run of the manager from `s`. */
  predicate IsRun(cfg: Config, s: State, ls: seq<Label>)
    decreases |ls|
  {
    ls == [] || (Enabled(cfg, s, ls[0]) && IsRun(cfg, Apply(cfg, s, ls[0]), ls[1..]))
  }

  function After(cfg: Config, s: State, ls: seq<Label>): State
    requires IsRun(cfg, s, ls)
    decreases |ls|
  {
    if ls == [] then s else After(cfg, Apply(cfg, s, ls[0]), ls[1..])
  }

  /** Every step of the run satisfies `f`. */
  predicate Along(cfg: Config, s: State, ls: seq<Label>, f: (State, Label) -> bool)
    requires IsRun(cfg, s, ls)
    decreases |ls|
  {
    ls == [] || (f(s, ls[0]) && Along(cfg, Apply(cfg, s, ls[0]), ls[1..], f))
  }
}
