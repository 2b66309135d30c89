/**
  The sliding window limit on the rate at which messages are queued, shared by
  all campaigns of a manager.  Times are nanoseconds.
*/
module SlidingWindow {
  import opened Counting

  /** `span` is the window duration, `rate` the number of messages allowed in it. */
  datatype Limit = Limit(span: nat, rate: nat)

  /** The limit applies only to a positive rate and a window longer than a second. */
  predicate Valid(l: Limit) { l.span > 1_000_000_000 && l.rate > 0 }

  /** `start` and `count` are the manager's fields; no clock reading comes before `ready`. */
  datatype Window = Window(start: nat, count: nat, ready: nat)

  /** The two clock readings of a check; the second is taken only when the window has expired. */
  datatype Tick = Tick(read: nat, now: nat)

  predicate Expired(l: Limit, w: Window, t: Tick) { t.read >= w.start + l.span }

  /** The check after a message: `diff` is read before a reset and used for the wait after it. */
  function Check(l: Limit, w: Window, t: Tick): Window
    requires t.read >= w.start
  {
    var diff := t.read - w.start;
    var start := if diff >= l.span then t.now else w.start;
    var count := (if diff >= l.span then 0 else w.count) + 1;
    var last := if diff >= l.span then t.now else t.read;
    if count >= l.rate then
      // A wait that is not positive ends at once.
      Window(start, 0, if diff < l.span then last + (l.span - diff) else last)
    else Window(start, count, last)
  }

  /** The clock never runs backwards and a wait lasts at least as long as asked. */
  predicate Timed(l: Limit, w: Window, ts: seq<Tick>)
    requires w.start <= w.ready
    decreases |ts|
  {
    ts == [] ||
    (w.ready <= ts[0].read <= ts[0].now && Timed(l, Check(l, w, ts[0]), ts[1..]))
  }

  /** The value of `start` under which each message was checked. */
  function Starts(l: Limit, w: Window, ts: seq<Tick>): seq<nat>
    requires w.start <= w.ready && Timed(l, w, ts)
    decreases |ts|
  {
    if ts == [] then [] else [Check(l, w, ts[0]).start] + Starts(l, Check(l, w, ts[0]), ts[1..])
  }

  function Final(l: Limit, w: Window, ts: seq<Tick>): Window
    requires w.start <= w.ready && Timed(l, w, ts)
    decreases |ts|
  {
    if ts == [] then w else Final(l, Check(l, w, ts[0]), ts[1..])
  }

  /** Batches follow each other: the checks of one go on where the checks of the other ended. */
  lemma {:induction false} TimedConcat(l: Limit, w: Window, ts: seq<Tick>, us: seq<Tick>)
    requires w.start <= w.ready && Timed(l, w, ts)
    requires Final(l, w, ts).start <= Final(l, w, ts).ready && Timed(l, Final(l, w, ts), us)
    ensures Timed(l, w, ts + us) && Final(l, w, ts + us) == Final(l, Final(l, w, ts), us)
    decreases |ts|
  {
    if ts == [] {
      assert ts + us == us;
    } else {
      TimedConcat(l, Check(l, w, ts[0]), ts[1..], us);
      assert (ts + us)[1..] == ts[1..] + us;
    }
  }

  /** The most messages checked under one start: a rate of 1 lets a second message through, because
      the message that finds the window expired waits by the stale difference, which is no wait. */
  function Burst(l: Limit): nat { if l.rate < 2 then 2 else l.rate }

  /** `used` messages have been checked under the current start. */
  predicate Within(l: Limit, w: Window, used: nat) {
    && w.start <= w.ready && w.count < l.rate
    && used <= Burst(l)
    && (w.ready >= w.start + l.span || used <= (if l.rate == 1 then 1 else w.count))
  }

  lemma CheckWithin(l: Limit, w: Window, used: nat, t: Tick)
    requires Valid(l) && Within(l, w, used) && w.ready <= t.read <= t.now
    ensures Within(l, Check(l, w, t), if Expired(l, w, t) then 1 else used + 1)
    ensures Check(l, w, t).start >= w.start
    ensures Expired(l, w, t) ==> Check(l, w, t).start >= w.start + l.span
    ensures !Expired(l, w, t) ==> Check(l, w, t).start == w.start && used < Burst(l)
  {}

  /** Starts never go back, and two different ones are at least a window apart. */
  lemma {:induction false} StartsApart(l: Limit, w: Window, ts: seq<Tick>, i: nat, j: nat)
    requires Valid(l) && w.start <= w.ready && Timed(l, w, ts) && i <= j < |ts|
    ensures var ss := Starts(l, w, ts);
      && |ss| == |ts|
      && w.start <= ss[i] <= ss[j]
      && (ss[i] != w.start ==> ss[i] >= w.start + l.span)
      && (ss[i] != ss[j] ==> ss[j] >= ss[i] + l.span)
    decreases |ts|
  {
    var w1 := Check(l, w, ts[0]);
    if i > 0 {
      StartsApart(l, w1, ts[1..], i - 1, j - 1);
    } else if j > 0 {
      StartsApart(l, w1, ts[1..], j - 1, j - 1);
    } else {
      StartsLength(l, w1, ts[1..]);
    }
  }

  lemma {:induction false} StartsLength(l: Limit, w: Window, ts: seq<Tick>)
    requires w.start <= w.ready && Timed(l, w, ts)
    ensures |Starts(l, w, ts)| == |ts|
    decreases |ts|
  {
    if ts != [] {
      StartsLength(l, Check(l, w, ts[0]), ts[1..]);
    }
  }

  lemma {:induction false} BurstFrom(l: Limit, w: Window, used: nat, ts: seq<Tick>, v: nat)
    requires Valid(l) && Within(l, w, used) && Timed(l, w, ts)
    ensures Times(Starts(l, w, ts), v) + (if v == w.start then used else 0) <= Burst(l)
    ensures v < w.start ==> Times(Starts(l, w, ts), v) == 0
    decreases |ts|
  {
    if ts != [] {
      CheckWithin(l, w, used, ts[0]);
      BurstFrom(l, Check(l, w, ts[0]), if Expired(l, w, ts[0]) then 1 else used + 1, ts[1..], v);
    }
  }

  /** At most `Burst` messages are checked under one value of `start`, from the manager's creation on. */
  lemma AtMostBurstPerWindow(l: Limit, created: nat, ts: seq<Tick>, v: nat)
    requires Valid(l) && Timed(l, Window(created, 0, created), ts)
    ensures Times(Starts(l, Window(created, 0, created), ts), v) <= Burst(l)
  {
    BurstFrom(l, Window(created, 0, created), 0, ts, v);
  }

  /** Messages checked no later than `end`. */
  function Until(ts: seq<Tick>, end: nat): nat { Count(ts, (t: Tick) => t.read <= end) }

  lemma {:induction false} NothingBefore(l: Limit, w: Window, ts: seq<Tick>, end: nat)
    requires w.start <= w.ready && Timed(l, w, ts) && end < w.ready
    ensures Until(ts, end) == 0
    decreases |ts|
  {
    if ts != [] {
      NothingBefore(l, Check(l, w, ts[0]), ts[1..], end);
    }
  }

  /** What is left of the current window, and a burst for each of the `k - 1` further ones. */
  function Allowance(l: Limit, used: nat, k: nat): nat
    requires used <= Burst(l)
  {
    if k == 0 then 0 else Burst(l) - used + Burst(l) * (k - 1)
  }

  lemma AllowanceOpened(l: Limit, used: nat, k: nat)
    requires used <= Burst(l) && k >= 2
    ensures 1 + Allowance(l, 1, k - 1) <= Allowance(l, used, k)
  {}

  lemma {:induction false} UntilBounded(l: Limit, w: Window, used: nat, ts: seq<Tick>, end: nat, k: nat)
    requires Valid(l) && Within(l, w, used) && Timed(l, w, ts)
    requires end < w.start + k * l.span
    ensures Until(ts, end) <= Allowance(l, used, k)
    decreases |ts|
  {
    if end < w.ready {
      NothingBefore(l, w, ts, end);
    } else if ts != [] {
      var t, w1 := ts[0], Check(l, w, ts[0]);
      CheckWithin(l, w, used, t);
      if t.read > end {
        NothingBefore(l, w1, ts[1..], end);
      } else if Expired(l, w, t) {
        assert k * l.span == (k - 1) * l.span + l.span;
        assert k == 1 ==> k * l.span == l.span;
        UntilBounded(l, w1, 1, ts[1..], end, k - 1);
        AllowanceOpened(l, used, k);
      } else {
        UntilBounded(l, w1, used + 1, ts[1..], end, k);
      }
    }
  }

  /** In the first `t` nanoseconds of the manager at most `Burst` messages per window begun are checked. */
  lemma ThroughputBounded(l: Limit, created: nat, ts: seq<Tick>, t: nat)
    requires Valid(l) && Timed(l, Window(created, 0, created), ts)
    ensures Until(ts, created + t) <= Burst(l) * (t / l.span + 1)
  {
    var k := t / l.span + 1;
    assert t == (k - 1) * l.span + t % l.span;
    assert k * l.span == (k - 1) * l.span + l.span;
    UntilBounded(l, Window(created, 0, created), 0, ts, created + t, k);
    assert Burst(l) * k == Burst(l) * (k - 1) + Burst(l);
  }

  /** A rate of 1 reaches the burst of 2, in every window length. */
  lemma RateOneLetsTwoThrough(l: Limit, created: nat) returns (ts: seq<Tick>)
    requires Valid(l) && l.rate == 1
    ensures Timed(l, Window(created, 0, created), ts)
    ensures Times(Starts(l, Window(created, 0, created), ts), created + l.span) == 2
  {
    var w := Window(created, 0, created);
    var at := created + l.span;
    ts := [Tick(at, at), Tick(at, at)];
    var w1 := Check(l, w, ts[0]);
    assert w1 == Window(at, 0, at);
    assert ts[1..] == [Tick(at, at)] && ts[1..][1..] == [];
    assert Timed(l, w1, ts[1..]);
    assert Starts(l, w1, ts[1..]) == [at];
    assert Starts(l, w, ts) == [at, at];
    TimesAppended([], at, at);
    TimesAppended([at], at, at);
    assert [] + [at] == [at] && [at] + [at] == [at, at];
  }

  /** In whatever sequence of checks, no more than `rate` messages are checked under one start. */
  ghost predicate KeepsRate(l: Limit) {
    forall created: nat, ts: seq<Tick>, v: nat | Timed(l, Window(created, 0, created), ts) ::
      Times(Starts(l, Window(created, 0, created), ts), v) <= l.rate
  }

  /** The limit allows `rate` messages in a window exactly when the rate is at least 2. */
  lemma RateKeptFromTwo(l: Limit)
    requires Valid(l)
    ensures KeepsRate(l) <==> l.rate >= 2
  {
    if l.rate >= 2 {
      forall created: nat, ts: seq<Tick>, v: nat | Timed(l, Window(created, 0, created), ts)
        ensures Times(Starts(l, Window(created, 0, created), ts), v) <= l.rate
      {
        AtMostBurstPerWindow(l, created, ts, v);
      }
    } else {
      var ts := RateOneLetsTwoThrough(l, 0);
      assert Times(Starts(l, Window(0, 0, 0), ts), 0 + l.span) == 2;
    }
  }

  // ---------------------------------------------------------------- the rate is available

  /** Clock readings within one window, none before `ready`. */
  predicate InWindow(l: Limit, w: Window, rs: seq<nat>) {
    && (forall i | 0 <= i < |rs| :: w.ready <= rs[i] < w.start + l.span)
    && (forall i, j | 0 <= i < j < |rs| :: rs[i] <= rs[j])
  }

  function Ticks(rs: seq<nat>): seq<Tick> { seq(|rs|, i requires 0 <= i < |rs| => Tick(rs[i], rs[i])) }

  lemma {:induction false} WindowFills(l: Limit, w: Window, rs: seq<nat>)
    requires Valid(l) && w.start <= w.ready && InWindow(l, w, rs) && rs != [] && w.count + |rs| <= l.rate
    ensures Timed(l, w, Ticks(rs))
    ensures forall s | s in Starts(l, w, Ticks(rs)) :: s == w.start
    ensures Final(l, w, Ticks(rs)) ==
      if w.count + |rs| == l.rate then Window(w.start, 0, w.start + l.span)
      else Window(w.start, w.count + |rs|, rs[|rs| - 1])
    decreases |rs|
  {
    var w1 := Check(l, w, Tick(rs[0], rs[0]));
    assert Ticks(rs)[1..] == Ticks(rs[1..]);
    if |rs| > 1 {
      assert w1 == Window(w.start, w.count + 1, rs[0]);
      WindowFills(l, w1, rs[1..]);
    } else {
      assert Ticks(rs[1..]) == [];
    }
  }

  /** A new manager lets `rate` messages through without any wait, at whatever times of its first window, all under the
      start of the manager; the next message is checked from the end of the window on, and not before. */
  lemma RateIsAvailable(l: Limit, created: nat, rs: seq<nat>, t: Tick)
    requires Valid(l) && InWindow(l, Window(created, 0, created), rs) && |rs| == l.rate
    ensures Timed(l, Window(created, 0, created), Ticks(rs))
    ensures forall s | s in Starts(l, Window(created, 0, created), Ticks(rs)) :: s == created
    ensures Timed(l, Window(created, 0, created), Ticks(rs) + [t]) <==> created + l.span <= t.read <= t.now
  {
    var w := Window(created, 0, created);
    WindowFills(l, w, rs);
    assert [t][1..] == [];
    if created + l.span <= t.read <= t.now {
      TimedConcat(l, w, Ticks(rs), [t]);
    }
    if Timed(l, w, Ticks(rs) + [t]) {
      TimedSplit(l, w, Ticks(rs), [t]);
    }
  }

  lemma {:induction false} TimedSplit(l: Limit, w: Window, ts: seq<Tick>, us: seq<Tick>)
    requires w.start <= w.ready && Timed(l, w, ts + us)
    ensures Timed(l, w, ts)
    ensures Final(l, w, ts).start <= Final(l, w, ts).ready && Timed(l, Final(l, w, ts), us)
    decreases |ts|
  {
    if ts == [] {
      assert ts + us == us;
    } else {
      assert (ts + us)[0] == ts[0] && (ts + us)[1..] == ts[1..] + us;
      TimedSplit(l, Check(l, w, ts[0]), ts[1..], us);
    }
  }

  /** In particular `rate` messages may be checked at the moment of creation, and no further one then. */
  lemma RateAtOnce(l: Limit, created: nat)
    requires Valid(l)
    ensures var ts := Ticks(seq(l.rate, _ => created));
      && |ts| == l.rate && (forall i | 0 <= i < |ts| :: ts[i] == Tick(created, created))
      && Timed(l, Window(created, 0, created), ts)
      && (forall s | s in Starts(l, Window(created, 0, created), ts) :: s == created)
      && !Timed(l, Window(created, 0, created), ts + [Tick(created, created)])
  {
    RateIsAvailable(l, created, seq(l.rate, _ => created), Tick(created, created));
  }

  /** A message that finds the window over opens the next one at the time it reads then, counted as its first. */
  lemma NextWindowOpens(l: Limit, w: Window, t: Tick)
    requires Valid(l) && w.start <= w.ready && w.ready <= t.read <= t.now && t.read >= w.start + l.span
    ensures Timed(l, w, [t]) && Starts(l, w, [t]) == [t.now] && Final(l, w, [t]).ready == t.now
    ensures Final(l, w, [t]).count == if l.rate == 1 then 0 else 1
  {
    assert [t][1..] == [];
  }
}
