/** Pieces of runs: what the manager does from launching a pipe to counting a message, a few steps at a time. */
module CampaignPhases {
  import opened Wrappers
  import opened CampaignModel
  import opened CampaignOrder

  /** No flush of campaign 1 in the run leaves dropped messages behind the checkpoint. */
  predicate Careful(cfg: Config, s0: State, ls: seq<Label>) {
    IsRun(cfg, s0, ls) && Along(cfg, s0, ls, (s, l) => !StrandsDropped(s, l, 1))
  }

  lemma {:induction false} RunExtended(cfg: Config, s: State, ls: seq<Label>, l: Label)
    requires IsRun(cfg, s, ls) && Enabled(cfg, After(cfg, s, ls), l)
    ensures IsRun(cfg, s, ls + [l]) && After(cfg, s, ls + [l]) == Apply(cfg, After(cfg, s, ls), l)
    ensures Careful(cfg, s, ls) && !StrandsDropped(After(cfg, s, ls), l, 1) ==> Careful(cfg, s, ls + [l])
    decreases |ls|
  {
    if ls == [] {
      assert ls + [l] == [l];
    } else {
      RunExtended(cfg, Apply(cfg, s, ls[0]), ls[1..], l);
      assert (ls + [l])[1..] == ls[1..] + [l];
    }
  }

  /** A run from `s0` that has reached `s`. */
  predicate At(cfg: Config, s0: State, ls: seq<Label>, s: State) { IsRun(cfg, s0, ls) && After(cfg, s0, ls) == s }

  /** The longer run is as careful as the shorter one. */
  predicate AsCareful(cfg: Config, s0: State, ls: seq<Label>, ls': seq<Label>) {
    Careful(cfg, s0, ls) ==> Careful(cfg, s0, ls')
  }

  lemma Go(cfg: Config, s0: State, ls: seq<Label>, s: State, l: Label) returns (ls': seq<Label>, t: State)
    requires At(cfg, s0, ls, s) && Enabled(cfg, s, l)
    ensures At(cfg, s0, ls', t) && t == Apply(cfg, s, l)
    ensures !StrandsDropped(s, l, 1) ==> AsCareful(cfg, s0, ls, ls')
  {
    RunExtended(cfg, s0, ls, l);
    ls', t := ls + [l], Apply(cfg, s, l);
  }

  /** The scanner takes the counts of no pipe. */
  lemma SnapNothing(cfg: Config, s0: State, ls: seq<Label>, s: State) returns (ls': seq<Label>, t: State)
    requires At(cfg, s0, ls, s) && s.scanner == Asleep && s.registry == map[]
    ensures At(cfg, s0, ls', t) && t == s.(scanner := Snapped({}, map[]))
    ensures AsCareful(cfg, s0, ls, ls')
  {
    ls', t := Go(cfg, s0, ls, s, ByScanner(Snapshot));
    assert t.books == s.books && t.pipes == s.pipes;
    assert SnapCounts(s) == map[] && s.registry.Keys == {};
  }

  /** The scanner looks for campaigns and finds `found`. */
  lemma ScanFinds(cfg: Config, s0: State, ls: seq<Label>, s: State, found: seq<int>)
    returns (ls': seq<Label>, t: State)
    requires At(cfg, s0, ls, s) && s.scanner == Asleep && s.registry == map[]
    requires found == [] || (|found| == 1 && found[0] in s.rows && Active(s.rows[found[0]]))
    ensures At(cfg, s0, ls', t) && t == s.(scanner := Starting(found))
    ensures AsCareful(cfg, s0, ls, ls')
  {
    var u: State;
    ls', u := SnapNothing(cfg, s0, ls, s);
    ls', t := Go(cfg, s0, ls', u, ByScanner(Scan(found, {}, map[])));
    NothingToStore(s.rows);
    NothingToLose(s.books);
  }

  lemma NothingToStore(rows: map<int, Row>)
    ensures ScannedRows(rows, StoredCounts(map[], {}), map[]) == rows
  {
    var t := ScannedRows(rows, StoredCounts(map[], {}), map[]);
    assert forall c | c in rows :: c in t && t[c] == rows[c];
  }

  lemma NothingToLose(books: map<int, Books>)
    ensures LoseCounts(books, map[], {}) == books
  {}

  /** A pipe is created for campaign `c`, registered and offered. */
  lemma Launch(cfg: Config, s0: State, ls: seq<Label>, s: State, c: int) returns (ls': seq<Label>, t: State)
    requires ValidConfig(cfg) && At(cfg, s0, ls, s) && s.scanner == Starting([c]) && c in s.rows && s.nextPipes == []
    ensures At(cfg, s0, ls', t)
    ensures t == s.(pipes := s.pipes + [NewPipe(c, s.rows[c].checkpoint)], registry := s.registry[c := |s.pipes|],
                    nextPipes := [|s.pipes|], scanner := Starting([]))
    ensures AsCareful(cfg, s0, ls, ls')
  {
    var u: State;
    ls', u := Go(cfg, s0, ls, s, ByScanner(CreatePipe));
    assert [c][1..] == [];
    var p := |s.pipes|;
    assert u == s.(pipes := s.pipes + [NewPipe(c, s.rows[c].checkpoint)], scanner := Created(p, []));
    var v: State;
    ls', v := Go(cfg, s0, ls', u, ByScanner(RegisterPipe));
    assert v.pipes == u.pipes;
    ls', t := Go(cfg, s0, ls', v, ByScanner(OfferPipe));
    assert t.pipes == u.pipes && v.nextPipes + [p] == [p];
  }

  function WithQueued(x: Pipe, id: nat, who: set<nat>, cap: nat): Pipe {
    x.(wg := x.wg + 1,
       log := x.log.(fetched := x.log.fetched + [id], audiences := x.log.audiences + [who], cap := cap))
  }

  /** The runner takes pipe `p`. */
  lemma TakeOffered(cfg: Config, s0: State, ls: seq<Label>, s: State, p: nat) returns (ls': seq<Label>, t: State)
    requires At(cfg, s0, ls, s) && s.runner == Ready && s.nextPipes == [p] && HasPipe(s, p)
    ensures At(cfg, s0, ls', t) && t == s.(runner := Fetching(p), nextPipes := [])
    ensures AsCareful(cfg, s0, ls, ls')
  {
    ls', t := Go(cfg, s0, ls, s, ByRunner(TakePipe));
  }

  /** The runner fetches subscriber `x`, the first of those who match. */
  lemma FetchOne(cfg: Config, s0: State, ls: seq<Label>, s: State, p: nat, who: set<nat>, x: nat)
    returns (ls': seq<Label>, t: State)
    requires ValidConfig(cfg) && At(cfg, s0, ls, s) && s.runner == Ready && s.nextPipes == [p] && HasPipe(s, p)
    requires s.pipes[p].camp in s.rows && s.rows[s.pipes[p].camp].status == Running
    requires IsPage([x], who, s.rows[s.pipes[p].camp].checkpoint, s.rows[s.pipes[p].camp].max, cfg.batch)
    ensures var c := s.pipes[p].camp;
      At(cfg, s0, ls', t) &&
      t == s.(runner := Sending(p, [x]), nextPipes := [],
              pipes := s.pipes[p := Fetched(s.pipes[p], s.rows[c], who, [x])],
              rows := s.rows[c := s.rows[c].(checkpoint := x)])
    ensures AsCareful(cfg, s0, ls, ls')
  {
    var u: State;
    ls', u := TakeOffered(cfg, s0, ls, s, p);
    ls', t := Go(cfg, s0, ls', u, ByRunner(Fetch(who, [x])));
  }

  /** The runner fetches subscriber `x` for pipe `p`, queues its message and offers the pipe again. */
  lemma QueueOne(cfg: Config, s0: State, ls: seq<Label>, s: State, p: nat, who: set<nat>, x: nat)
    returns (ls': seq<Label>, t: State)
    requires ValidConfig(cfg) && At(cfg, s0, ls, s) && s.runner == Ready && s.nextPipes == [p] && HasPipe(s, p)
    requires s.pipes[p].camp in s.rows && s.rows[s.pipes[p].camp].status == Running && s.queue == []
    requires IsPage([x], who, s.rows[s.pipes[p].camp].checkpoint, s.rows[s.pipes[p].camp].max, cfg.batch)
    ensures var c := s.pipes[p].camp;
      At(cfg, s0, ls', t) &&
      t == s.(pipes := s.pipes[p := WithQueued(s.pipes[p], x, who, s.rows[c].max)],
              rows := s.rows[c := s.rows[c].(checkpoint := x)],
              queue := [Msg(c, x, Some(p))])
    ensures AsCareful(cfg, s0, ls, ls')
  {
    var u: State;
    ls', u := FetchOne(cfg, s0, ls, s, p, who, x);
    ls', u := Go(cfg, s0, ls', u, ByRunner(Render(true)));
    ls', t := QueueRendered(cfg, s0, ls', u, p, x);
  }

  /** Nobody but `x` matches. */
  lemma QueueNext(cfg: Config, s0: State, ls: seq<Label>, s: State, p: nat, x: nat) returns (ls': seq<Label>, t: State)
    requires ValidConfig(cfg) && At(cfg, s0, ls, s) && s.runner == Ready && s.nextPipes == [p] && HasPipe(s, p)
    requires s.pipes[p].camp in s.rows && s.rows[s.pipes[p].camp].status == Running && s.queue == []
    requires s.rows[s.pipes[p].camp].checkpoint < x <= s.rows[s.pipes[p].camp].max
    ensures var c := s.pipes[p].camp;
      At(cfg, s0, ls', t) &&
      t == s.(pipes := s.pipes[p := WithQueued(s.pipes[p], x, {x}, s.rows[c].max)],
              rows := s.rows[c := s.rows[c].(checkpoint := x)],
              queue := [Msg(c, x, Some(p))])
    ensures AsCareful(cfg, s0, ls, ls')
  {
    ls', t := QueueOne(cfg, s0, ls, s, p, {x}, x);
  }

  lemma SendRendered(cfg: Config, s0: State, ls: seq<Label>, s: State, p: nat, x: nat)
    returns (ls': seq<Label>, t: State)
    requires ValidConfig(cfg) && At(cfg, s0, ls, s) && s.runner == Handing(p, x, []) && HasPipe(s, p) && s.queue == []
    ensures At(cfg, s0, ls', t)
    ensures t == s.(runner := Sending(p, []), queue := [Msg(s.pipes[p].camp, x, Some(p))])
    ensures AsCareful(cfg, s0, ls, ls')
  {
    ls', t := Go(cfg, s0, ls, s, ByRunner(Send));
    assert t.pipes == s.pipes;
  }

  lemma QueueRendered(cfg: Config, s0: State, ls: seq<Label>, s: State, p: nat, x: nat)
    returns (ls': seq<Label>, t: State)
    requires ValidConfig(cfg) && At(cfg, s0, ls, s) && s.runner == Handing(p, x, []) && s.nextPipes == []
    requires HasPipe(s, p) && s.queue == []
    ensures At(cfg, s0, ls', t)
    ensures t == s.(runner := Ready, nextPipes := [p], queue := [Msg(s.pipes[p].camp, x, Some(p))])
    ensures AsCareful(cfg, s0, ls, ls')
  {
    var u: State;
    ls', u := SendRendered(cfg, s0, ls, s, p, x);
    ls', u := Go(cfg, s0, ls', u, ByRunner(EndBatch));
    ls', t := Go(cfg, s0, ls', u, ByRunner(OfferAgain));
    assert t.pipes == s.pipes;
  }

  /** Worker `w` takes the only message of the queue. */
  lemma TakeOne(cfg: Config, s0: State, ls: seq<Label>, s: State, w: nat) returns (ls': seq<Label>, t: State)
    requires At(cfg, s0, ls, s) && w < |s.workers| && s.workers[w] == Free && |s.queue| == 1
    ensures At(cfg, s0, ls', t)
    ensures t == s.(queue := [], workers := s.workers[w := Held(s.queue[0])])
    ensures AsCareful(cfg, s0, ls, ls')
  {
    ls', t := Go(cfg, s0, ls, s, ByWorker(w, Dequeue));
  }

  lemma CheckAndPush(cfg: Config, s0: State, ls: seq<Label>, s: State, w: nat, p: nat, x: nat)
    returns (ls': seq<Label>, t: State)
    requires At(cfg, s0, ls, s) && w < |s.workers| && HasPipe(s, p) && !s.pipes[p].stopped
    requires s.workers[w] == Held(Msg(s.pipes[p].camp, x, Some(p))) && s.pipes[p].camp in s.books
    ensures var y := s.pipes[p]; var b := s.books[y.camp];
      At(cfg, s0, ls', t) &&
      t == s.(workers := s.workers[w := Pushed(Msg(y.camp, x, Some(p)), true)],
              pipes := s.pipes[p := y.(log := y.log.(succeeded := y.log.succeeded + [x]))],
              books := s.books[y.camp := b.(wins := b.wins + [x])])
    ensures AsCareful(cfg, s0, ls, ls')
  {
    var u: State;
    ls', u := Go(cfg, s0, ls, s, ByWorker(w, CheckStop));
    ls', t := Go(cfg, s0, ls', u, ByWorker(w, Push(true)));
  }

  /** Worker `w` pushes the message in its hand successfully, up to `Done`. */
  lemma PushOne(cfg: Config, s0: State, ls: seq<Label>, s: State, w: nat, p: nat, x: nat)
    returns (ls': seq<Label>, t: State)
    requires At(cfg, s0, ls, s) && w < |s.workers| && HasPipe(s, p) && !s.pipes[p].stopped
    requires s.workers[w] == Held(Msg(s.pipes[p].camp, x, Some(p))) && s.pipes[p].camp in s.books
    ensures var y := s.pipes[p]; var b := s.books[y.camp];
      At(cfg, s0, ls', t) &&
      t == s.(workers := s.workers[w := Tallying(Msg(y.camp, x, Some(p)), true)],
              pipes := s.pipes[p := y.(wg := y.wg - 1, log := y.log.(succeeded := y.log.succeeded + [x]))],
              books := s.books[y.camp := b.(wins := b.wins + [x])])
    ensures AsCareful(cfg, s0, ls, ls')
  {
    var u: State;
    ls', u := CheckAndPush(cfg, s0, ls, s, w, p, x);
    ls', t := Go(cfg, s0, ls', u, ByWorker(w, MarkDone));
  }

  /** Worker `w` counts the message that it pushed successfully. */
  lemma CountOne(cfg: Config, s0: State, ls: seq<Label>, s: State, w: nat, p: nat, x: nat)
    returns (ls': seq<Label>, t: State)
    requires At(cfg, s0, ls, s) && w < |s.workers| && HasPipe(s, p) && Registered(s, p)
    requires s.workers[w] == Tallying(Msg(s.pipes[p].camp, x, Some(p)), true) && s.pipes[p].camp in s.books
    ensures At(cfg, s0, ls', t)
    ensures t == s.(workers := s.workers[w := Free], pipes := s.pipes[p := CountSuccess(s.pipes[p], x)])
    ensures AsCareful(cfg, s0, ls, ls')
  {
    ls', t := Go(cfg, s0, ls, s, ByWorker(w, Tally));
  }

  lemma FetchNobody(cfg: Config, s0: State, ls: seq<Label>, s: State, p: nat) returns (ls': seq<Label>, t: State)
    requires At(cfg, s0, ls, s) && s.runner == Fetching(p) && HasPipe(s, p) && s.pipes[p].camp in s.rows
    ensures At(cfg, s0, ls', t)
    ensures t == s.(runner := RunReleasing(p),
                    pipes := s.pipes[p := Fetched(s.pipes[p], s.rows[s.pipes[p].camp], {}, [])])
    ensures AsCareful(cfg, s0, ls, ls')
  {
    ls', t := Go(cfg, s0, ls, s, ByRunner(Fetch({}, [])));
  }

  /** The runner finds nobody left for pipe `p` and gives its first count back. */
  lemma LastFetch(cfg: Config, s0: State, ls: seq<Label>, s: State, p: nat) returns (ls': seq<Label>, t: State)
    requires At(cfg, s0, ls, s) && s.runner == Ready && s.nextPipes == [p] && HasPipe(s, p)
    requires s.pipes[p].camp in s.rows
    ensures var y := Fetched(s.pipes[p], s.rows[s.pipes[p].camp], {}, []);
      At(cfg, s0, ls', t) && t == s.(nextPipes := [], pipes := s.pipes[p := y.(wg := y.wg - 1)])
    ensures AsCareful(cfg, s0, ls, ls')
  {
    var u, v: State;
    ls', u := TakeOffered(cfg, s0, ls, s, p);
    ls', v := FetchNobody(cfg, s0, ls', u, p);
    ls', t := Go(cfg, s0, ls', v, ByRunner(RunRelease));
  }
}
