/**
  What is handed to the manager and taken up: the campaigns that a scan finds, and the test messages of the API.
*/
module CampaignHandover {
  import opened Wrappers
  import opened Counting
  import opened CampaignModel

  // ---------------------------------------------------------------- the campaigns of a scan

  predicate Loops(c: Scanner) { !c.Asleep? && !c.Snapped? }

  function BegunBy(s: State, l: Label): seq<int> {
    if l == ByScanner(CreatePipe) && s.scanner.Starting? && s.scanner.todo != [] then [s.scanner.todo[0]] else []
  }

  function RefusedBy(s: State, l: Label): seq<int> {
    if l.ByScanner? && l.scan.RejectCampaign? && s.scanner.Starting? && s.scanner.todo != [] then [s.scanner.todo[0]]
    else []
  }

  /** The campaigns that the loop of a scan makes a pipe for, in order. */
  function Begun(cfg: Config, s: State, ls: seq<Label>): seq<int>
    requires IsRun(cfg, s, ls)
    decreases |ls|
  {
    if ls == [] then [] else BegunBy(s, ls[0]) + Begun(cfg, Apply(cfg, s, ls[0]), ls[1..])
  }

  /** The campaigns that the loop of a scan makes a pipe for or refuses, in order. */
  function Tried(cfg: Config, s: State, ls: seq<Label>): seq<int>
    requires IsRun(cfg, s, ls)
    decreases |ls|
  {
    if ls == [] then []
    else BegunBy(s, ls[0]) + RefusedBy(s, ls[0]) + Tried(cfg, Apply(cfg, s, ls[0]), ls[1..])
  }

  function Camps(ps: seq<Pipe>): seq<int> { seq(|ps|, i requires 0 <= i < |ps| => ps[i].camp) }

  lemma CampsKept(ps: seq<Pipe>, qs: seq<Pipe>)
    requires |qs| == |ps| && forall i | 0 <= i < |ps| :: qs[i].camp == ps[i].camp
    ensures Camps(qs) == Camps(ps)
  {}

  lemma CampsStep(cfg: Config, s: State, l: Label)
    requires Enabled(cfg, s, l)
    ensures Camps(Apply(cfg, s, l).pipes) == Camps(s.pipes) + BegunBy(s, l)
  {
    if l != ByScanner(CreatePipe) { CampsKept(s.pipes, Apply(cfg, s, l).pipes); }
  }

  lemma TodoStep(cfg: Config, s: State, l: Label)
    requires Loops(s.scanner) && Enabled(cfg, s, l) && l != ByScanner(ScanDone)
    ensures Loops(Apply(cfg, s, l).scanner)
    ensures BegunBy(s, l) + RefusedBy(s, l) + Apply(cfg, s, l).scanner.todo == s.scanner.todo
  {
    var todo := s.scanner.todo;
    if l.ByScanner? && (l.scan.CreatePipe? || l.scan.RejectCampaign?) {
      assert BegunBy(s, l) + RefusedBy(s, l) == [todo[0]];
      assert [todo[0]] + todo[1..] == todo;
    } else {
      assert BegunBy(s, l) + RefusedBy(s, l) == [];
    }
  }

  lemma Regroup(a: seq<int>, b: seq<int>, c: seq<int>)
    ensures (a + b) + c == a + (b + c)
  {}

  lemma {:induction false} CampsRun(cfg: Config, s: State, ls: seq<Label>)
    requires IsRun(cfg, s, ls)
    ensures Camps(After(cfg, s, ls).pipes) == Camps(s.pipes) + Begun(cfg, s, ls)
    decreases |ls|
  {
    if ls == [] {
      assert Begun(cfg, s, ls) == [];
    } else {
      var t := Apply(cfg, s, ls[0]);
      CampsStep(cfg, s, ls[0]);
      CampsRun(cfg, t, ls[1..]);
      Regroup(Camps(s.pipes), BegunBy(s, ls[0]), Begun(cfg, t, ls[1..]));
    }
  }

  lemma {:induction false} TriedRun(cfg: Config, s: State, ls: seq<Label>)
    requires Loops(s.scanner) && IsRun(cfg, s, ls) && ByScanner(ScanDone) !in ls
    ensures Loops(After(cfg, s, ls).scanner)
    ensures Tried(cfg, s, ls) + After(cfg, s, ls).scanner.todo == s.scanner.todo
    decreases |ls|
  {
    if ls == [] {
      assert Tried(cfg, s, ls) == [];
    } else {
      var t := Apply(cfg, s, ls[0]);
      assert ls[0] in ls && forall l | l in ls[1..] :: l in ls;
      TodoStep(cfg, s, ls[0]);
      TriedRun(cfg, t, ls[1..]);
      Regroup(BegunBy(s, ls[0]) + RefusedBy(s, ls[0]), Tried(cfg, t, ls[1..]), After(cfg, t, ls[1..]).scanner.todo);
    }
  }

  /** Until it ends, a scan goes through the campaigns that it found, in order and without leaving one out; it can end
      only after the last.  The pipes that come to be meanwhile are those that it makes. */
  lemma FoundAreTried(cfg: Config, s: State, found: seq<int>, stored: set<int>, touched: map<int, nat>, ls: seq<Label>)
    requires Enabled(cfg, s, ByScanner(Scan(found, stored, touched)))
    requires IsRun(cfg, Apply(cfg, s, ByScanner(Scan(found, stored, touched))), ls) && ByScanner(ScanDone) !in ls
    ensures var b := Apply(cfg, s, ByScanner(Scan(found, stored, touched))); var t := After(cfg, b, ls);
      && Loops(t.scanner)
      && Tried(cfg, b, ls) + t.scanner.todo == found
      && (Enabled(cfg, t, ByScanner(ScanDone)) ==> Tried(cfg, b, ls) == found)
      && Camps(t.pipes) == Camps(s.pipes) + Begun(cfg, b, ls)
  {
    var b := Apply(cfg, s, ByScanner(Scan(found, stored, touched)));
    CampsRun(cfg, b, ls);
    TriedRun(cfg, b, ls);
  }

  /** A scan that is over, or whose query failed, rests until the next one and has made no pipe in that step. */
  lemma ScanEnds(cfg: Config, s: State, a: ScanAct)
    requires ScanEnabled(cfg, s, a) && (a.ScanDone? || a.ScanError?)
    ensures var t := Apply(cfg, s, ByScanner(a));
      t.scanner == Asleep && t.pipes == s.pipes && t.registry == s.registry && t.nextPipes == s.nextPipes
  {}

  // ---------------------------------------------------------------- test messages

  predicate IsTest(m: Msg) { m.pipe.None? }

  predicate HoldsTest(w: Worker) { (w.Held? || w.Cleared?) && IsTest(w.msg) }

  predicate AsksTest(l: Label) { l.ByApi? && l.api.PushTest? }

  predicate PushesTest(s: State, l: Label) {
    l.ByWorker? && l.work.Push? && l.worker < |s.workers| && s.workers[l.worker].Cleared?
    && IsTest(s.workers[l.worker].msg)
  }

  /** The pushes of test messages in a run. */
  function TestPushes(cfg: Config, s: State, ls: seq<Label>): nat
    requires IsRun(cfg, s, ls)
    decreases |ls|
  {
    if ls == [] then 0
    else (if PushesTest(s, ls[0]) then 1 else 0) + TestPushes(cfg, Apply(cfg, s, ls[0]), ls[1..])
  }

  /** The test messages that wait for their push. */
  function TestsWaiting(s: State): nat { Count(s.queue, IsTest) + Count(s.workers, HoldsTest) }

  lemma TestsByWorker(cfg: Config, s: State, w: nat, a: WorkAct)
    requires WorkEnabled(cfg, s, w, a)
    ensures TestsWaiting(WorkApply(cfg, s, w, a)) + (if PushesTest(s, ByWorker(w, a)) then 1 else 0) == TestsWaiting(s)
  {
    CountReplaced(s.workers, w, WorkApply(cfg, s, w, a).workers[w], HoldsTest);
  }

  lemma TestsStep(cfg: Config, s: State, l: Label)
    requires Enabled(cfg, s, l)
    ensures TestsWaiting(Apply(cfg, s, l)) + (if PushesTest(s, l) then 1 else 0)
      == TestsWaiting(s) + if AsksTest(l) then 1 else 0
  {
    match l
    case ByWorker(w, a) => TestsByWorker(cfg, s, w, a);
    case ByRunner(a) =>
      if a.Send? { CountAppended(s.queue, Msg(s.pipes[s.runner.pipe].camp, s.runner.id, Some(s.runner.pipe)), IsTest); }
    case ByApi(a) => if a.PushTest? { CountAppended(s.queue, Msg(a.camp, a.id, None), IsTest); }
    case _ =>
  }

  lemma {:induction false} TestsRun(cfg: Config, s: State, ls: seq<Label>)
    requires IsRun(cfg, s, ls)
    ensures TestsWaiting(After(cfg, s, ls)) + TestPushes(cfg, s, ls) == TestsWaiting(s) + Count(ls, AsksTest)
    decreases |ls|
  {
    if ls != [] {
      TestsStep(cfg, s, ls[0]);
      TestsRun(cfg, Apply(cfg, s, ls[0]), ls[1..]);
    }
  }

  /** Every test message is pushed once: at every moment of every run those asked for are those pushed and those that
      wait in the queue or with a worker, whatever was stopped meanwhile. */
  lemma TestsArePushed(cfg: Config, s0: State, ls: seq<Label>)
    requires Init(cfg, s0) && IsRun(cfg, s0, ls)
    ensures Count(ls, AsksTest) == TestPushes(cfg, s0, ls) + TestsWaiting(After(cfg, s0, ls))
  {
    TestsRun(cfg, s0, ls);
    CountPositive(s0.workers, HoldsTest);
  }
}
