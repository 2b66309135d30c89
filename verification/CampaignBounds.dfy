/**
  The bounded channels and the pages that the store returns.
*/
module CampaignBounds {
  import opened Wrappers
  import opened CampaignModel

  // ---------------------------------------------------------------- channels

  predicate WithinRoom(cfg: Config, s: State) { |s.queue| <= cfg.queueCap && |s.nextPipes| <= cfg.pipeCap }

  lemma RoomStep(cfg: Config, s: State, l: Label)
    requires WithinRoom(cfg, s) && Enabled(cfg, s, l)
    ensures WithinRoom(cfg, Apply(cfg, s, l))
  {}

  lemma {:induction false} RoomRun(cfg: Config, s: State, ls: seq<Label>)
    requires WithinRoom(cfg, s) && IsRun(cfg, s, ls)
    ensures WithinRoom(cfg, After(cfg, s, ls))
    decreases |ls|
  {
    if ls != [] {
      RoomStep(cfg, s, ls[0]);
      RoomRun(cfg, Apply(cfg, s, ls[0]), ls[1..]);
    }
  }

  /** In no reachable state do the channels hold more than they were made for. */
  lemma ChannelsAreBounded(cfg: Config, s0: State, ls: seq<Label>)
    requires Init(cfg, s0) && IsRun(cfg, s0, ls)
    ensures |After(cfg, s0, ls).queue| <= cfg.queueCap && |After(cfg, s0, ls).nextPipes| <= cfg.pipeCap
  {
    RoomRun(cfg, s0, ls);
  }

  /** A send waits exactly while the queue is full, and then adds its message to the end. */
  lemma SendWaits(cfg: Config, s: State, p: nat, id: nat, rest: seq<nat>)
    requires s.runner == Handing(p, id, rest) && HasPipe(s, p)
    ensures Enabled(cfg, s, ByRunner(Send)) <==> |s.queue| < cfg.queueCap
    ensures |s.queue| < cfg.queueCap ==>
      var t := Apply(cfg, s, ByRunner(Send));
      t.queue[..|s.queue|] == s.queue && |t.queue| == |s.queue| + 1 && t.queue[|s.queue|].id == id
  {}

  /** A pipe is offered to the runner without waiting: it joins the end of the channel if there is room, and is given up
      exactly when the channel is full. */
  lemma OfferDoesNotWait(cfg: Config, s: State, p: nat)
    requires WithinRoom(cfg, s) && HasPipe(s, p)
    ensures s.runner == Requeueing(p) ==>
      && Enabled(cfg, s, ByRunner(OfferAgain))
      && var t := Apply(cfg, s, ByRunner(OfferAgain));
         if |s.nextPipes| == cfg.pipeCap then t.runner == RunHalting(p) && t.nextPipes == s.nextPipes
         else t.runner == Ready && t.nextPipes == s.nextPipes + [p]
    ensures s.scanner.Offering? && s.scanner.pipe == p ==>
      && Enabled(cfg, s, ByScanner(OfferPipe))
      && var t := Apply(cfg, s, ByScanner(OfferPipe));
         if |s.nextPipes| == cfg.pipeCap then t.scanner == ScanHalting(p, s.scanner.todo) && t.nextPipes == s.nextPipes
         else t.scanner == Starting(s.scanner.todo) && t.nextPipes == s.nextPipes + [p]
  {}

  /** A worker that takes a message looks at the stop flag once: of a stopped pipe it drops it, and of no other. */
  lemma StopIsSeen(cfg: Config, s: State, w: nat, p: nat)
    requires w < |s.workers| && s.workers[w].Held? && s.workers[w].msg.pipe == Some(p) && MsgOk(s, s.workers[w].msg)
    ensures Enabled(cfg, s, ByWorker(w, CheckStop))
    ensures var t := Apply(cfg, s, ByWorker(w, CheckStop)); var id := s.workers[w].msg.id;
      if s.pipes[p].stopped
      then t.workers[w].Dropping? && t.pipes[p].log.dropped == s.pipes[p].log.dropped + [id]
      else t.workers[w].Cleared? && t.pipes[p] == s.pipes[p]
  {}

  // ---------------------------------------------------------------- pages

  lemma {:induction false} Least(xs: set<nat>) returns (m: nat)
    requires xs != {}
    ensures m in xs && forall x | x in xs :: m <= x
    decreases xs
  {
    m :| m in xs;
    var below := set x | x in xs && x < m;
    if x :| x in below {
      assert m !in below;
      var least := Least(below);
      assert forall y | y in xs :: y in below || m <= y;
      m := least;
    } else {
      assert forall y | y in xs && y < m :: y in below;
    }
  }

  /** Whoever matches, there is a page, */
  lemma {:induction false} PageExists(audience: set<nat>, low: nat, high: nat, limit: nat) returns (batch: seq<nat>)
    ensures IsPage(batch, audience, low, high, limit)
    decreases limit
  {
    var above := set a | a in audience && low < a <= high;
    if limit == 0 || above == {} {
      batch := [];
      assert forall a | a in audience && low < a <= high :: a in above;
    } else {
      var m := Least(above);
      var rest := PageExists(audience, m, high, limit - 1);
      batch := [m] + rest;
      forall a | a in audience && low < a <= high
        ensures a in batch || (|batch| == limit && forall i | 0 <= i < |batch| :: batch[i] < a)
      {
        assert a in above;
      }
    }
  }

  /** and only one: the smallest of the matching ids in the range, up to the limit. */
  lemma {:induction false} PageIsUnique(a: seq<nat>, b: seq<nat>, audience: set<nat>, low: nat, high: nat, limit: nat)
    requires IsPage(a, audience, low, high, limit) && IsPage(b, audience, low, high, limit)
    ensures a == b
    decreases limit
  {
    SameFirst(a, b, audience, low, high, limit);
    if a != [] {
      PageRest(a, audience, low, high, limit);
      PageRest(b, audience, low, high, limit);
      PageIsUnique(a[1..], b[1..], audience, a[0], high, limit - 1);
      assert a == [a[0]] + a[1..] && b == [b[0]] + b[1..];
    }
  }

  lemma FirstIsLeast(a: seq<nat>, b: seq<nat>, audience: set<nat>, low: nat, high: nat, limit: nat)
    requires IsPage(a, audience, low, high, limit) && IsPage(b, audience, low, high, limit) && b != []
    ensures a != [] && a[0] <= b[0]
  {
    var x := b[0];
    assert x in audience && low < x <= high;
    if x in a {
      var i :| 0 <= i < |a| && a[i] == x;
      assert i == 0 || a[0] < a[i];
    }
  }

  lemma SameFirst(a: seq<nat>, b: seq<nat>, audience: set<nat>, low: nat, high: nat, limit: nat)
    requires IsPage(a, audience, low, high, limit) && IsPage(b, audience, low, high, limit)
    ensures if a == [] then b == [] else b != [] && a[0] == b[0]
  {
    if a != [] { FirstIsLeast(b, a, audience, low, high, limit); }
    if b != [] { FirstIsLeast(a, b, audience, low, high, limit); }
  }

  lemma PageRest(a: seq<nat>, audience: set<nat>, low: nat, high: nat, limit: nat)
    requires IsPage(a, audience, low, high, limit) && a != []
    ensures limit > 0 && IsPage(a[1..], audience, a[0], high, limit - 1)
  {
    var rest := a[1..];
    forall x | x in audience && a[0] < x <= high
      ensures x in rest || (|rest| == limit - 1 && forall i | 0 <= i < |rest| :: rest[i] < x)
    {
      assert x in a ==> x in rest;
    }
  }

  // ---------------------------------------------------------------- what may happen

  /** Whatever the store, the renderer and the messenger answer, the manager has a step for it. */
  lemma EveryAnswerIsPossible(cfg: Config, s: State, who: set<nat>) returns (page: seq<nat>)
    requires s.runner.Fetching? && HasPipe(s, s.runner.pipe) && s.pipes[s.runner.pipe].camp in s.rows
    ensures Enabled(cfg, s, ByRunner(FetchError))
    ensures s.rows[s.pipes[s.runner.pipe].camp].status == Running ==> Enabled(cfg, s, ByRunner(Fetch(who, page)))
    ensures s.rows[s.pipes[s.runner.pipe].camp].status != Running ==> Enabled(cfg, s, ByRunner(Fetch(who, [])))
  {
    var r := s.rows[s.pipes[s.runner.pipe].camp];
    page := PageExists(who, r.checkpoint, r.max, cfg.batch);
  }

  lemma BothAnswersArePossible(cfg: Config, s: State, w: nat, p: nat, ok: bool)
    requires HasPipe(s, p) && s.pipes[p].camp in s.rows && s.pipes[p].camp in s.books
    ensures s.runner.Sending? && HasPipe(s, s.runner.pipe) && s.runner.rest != [] ==>
      Enabled(cfg, s, ByRunner(Render(ok)))
    ensures w < |s.workers| && s.workers[w].Cleared? && MsgOk(s, s.workers[w].msg) ==>
      Enabled(cfg, s, ByWorker(w, Push(ok)))
    ensures s.pipes[p].stage == Waiting && s.pipes[p].wg == 0 ==> Enabled(cfg, s, ByCleanup(p, Flush(ok)))
    ensures s.pipes[p].stage == Pausing ==> Enabled(cfg, s, ByCleanup(p, PauseRow(ok)))
    ensures s.pipes[p].stage == Finishing ==> Enabled(cfg, s, ByCleanup(p, ReadRow(ok)))
    ensures s.pipes[p].stage == Marking ==> Enabled(cfg, s, ByCleanup(p, FinishRow(ok)))
  {}

  /** A scan may store any of the counts and find any of the due campaigns, or fail having stored any of the counts; a
      campaign found may be refused; and the API may be called at any time. */
  lemma ScansAndCallsAreFree(cfg: Config, s: State, stored: set<int>, c: int, status: Status, id: nat, cancel: bool)
    ensures s.scanner.Asleep? ==> Enabled(cfg, s, ByScanner(Snapshot))
    ensures s.scanner.Snapped? && stored <= s.rows.Keys ==>
      Enabled(cfg, s, ByScanner(Scan([], stored, map[]))) && Enabled(cfg, s, ByScanner(ScanError(stored, map[])))
    ensures s.scanner.Starting? && s.scanner.todo != [] && s.scanner.todo[0] in s.rows ==>
      Enabled(cfg, s, ByScanner(CreatePipe)) && Enabled(cfg, s, ByScanner(RejectCampaign(cancel)))
    ensures c in s.rows ==> Enabled(cfg, s, ByApi(SetStatus(c, status)))
    ensures (c in s.registry ==> HasPipe(s, s.registry[c])) ==> Enabled(cfg, s, ByApi(StopCampaign(c)))
    ensures |s.queue| < cfg.queueCap ==> Enabled(cfg, s, ByApi(PushTest(c, id)))
  {}
}
