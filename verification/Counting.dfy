/** How many elements of a sequence have a property. */
module Counting {
  function Count<T>(xs: seq<T>, f: T -> bool): nat {
    if xs == [] then 0 else (if f(xs[0]) then 1 else 0) + Count(xs[1..], f)
  }

  lemma {:induction false} CountReplaced<T>(xs: seq<T>, i: nat, x: T, f: T -> bool)
    requires i < |xs|
    ensures Count(xs[i := x], f) + (if f(xs[i]) then 1 else 0) == Count(xs, f) + if f(x) then 1 else 0
  {
    if i == 0 {
      assert xs[i := x][1..] == xs[1..];
    } else {
      CountReplaced(xs[1..], i - 1, x, f);
      assert xs[i := x][1..] == xs[1..][i - 1 := x];
    }
  }

  lemma {:induction false} CountAppended<T>(xs: seq<T>, x: T, f: T -> bool)
    ensures Count(xs + [x], f) == Count(xs, f) + if f(x) then 1 else 0
  {
    if xs == [] {
      assert xs + [x] == [x];
    } else {
      CountAppended(xs[1..], x, f);
      assert (xs + [x])[1..] == xs[1..] + [x];
    }
  }

  /** The count is positive exactly when some element has the property. */
  lemma {:induction false} CountPositive<T>(xs: seq<T>, f: T -> bool)
    ensures Count(xs, f) > 0 <==> exists i :: 0 <= i < |xs| && f(xs[i])
  {
    if xs != [] {
      CountPositive(xs[1..], f);
      if Count(xs[1..], f) > 0 {
        var i :| 0 <= i < |xs[1..]| && f(xs[1..][i]);
        assert f(xs[i + 1]);
      }
      if i :| 0 <= i < |xs| && f(xs[i]) {
        if i > 0 { assert f(xs[1..][i - 1]); }
      }
    }
  }

  /** How often a value occurs. */
  function Times(xs: seq<nat>, x: nat): nat { Count(xs, y => y == x) }

  lemma TimesAppended(xs: seq<nat>, y: nat, x: nat)
    ensures Times(xs + [y], x) == Times(xs, x) + if y == x then 1 else 0
  {
    CountAppended(xs, y, y => y == x);
  }

  lemma {:induction false} TimesConcat(xs: seq<nat>, ys: seq<nat>, x: nat)
    ensures Times(xs + ys, x) == Times(xs, x) + Times(ys, x)
    decreases |ys|
  {
    if ys == [] {
      assert xs + ys == xs;
    } else {
      TimesAppended(xs, ys[0], x);
      TimesConcat(xs + [ys[0]], ys[1..], x);
      assert xs + ys == (xs + [ys[0]]) + ys[1..];
    }
  }

  lemma TimesPositive(xs: seq<nat>, x: nat)
    ensures Times(xs, x) > 0 <==> x in xs
  {
    CountPositive(xs, y => y == x);
  }

  predicate Ascending(xs: seq<nat>) { forall i, j | 0 <= i < j < |xs| :: xs[i] < xs[j] }

  lemma {:induction false} AscendingOnce(xs: seq<nat>, x: nat)
    requires Ascending(xs)
    ensures Times(xs, x) <= 1
  {
    if xs != [] {
      AscendingOnce(xs[1..], x);
      TimesPositive(xs[1..], x);
    }
  }

  function Sum<T>(xs: seq<T>, f: T -> nat): nat {
    if xs == [] then 0 else f(xs[0]) + Sum(xs[1..], f)
  }

  lemma {:induction false} SumReplaced<T>(xs: seq<T>, i: nat, x: T, f: T -> nat)
    requires i < |xs|
    ensures Sum(xs[i := x], f) + f(xs[i]) == Sum(xs, f) + f(x)
  {
    if i == 0 {
      assert xs[i := x][1..] == xs[1..];
    } else {
      SumReplaced(xs[1..], i - 1, x, f);
      assert xs[i := x][1..] == xs[1..][i - 1 := x];
    }
  }

  lemma {:induction false} SumAppended<T>(xs: seq<T>, x: T, f: T -> nat)
    ensures Sum(xs + [x], f) == Sum(xs, f) + f(x)
  {
    if xs == [] {
      assert xs + [x] == [x];
    } else {
      SumAppended(xs[1..], x, f);
      assert (xs + [x])[1..] == xs[1..] + [x];
    }
  }
}
