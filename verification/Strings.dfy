/** Splitting and joining strings at a one-character separator. */
module Strings {
  /** The pieces of a string between separators; there is always at least one. */
  function Split(s: string, sep: char): (r: seq<string>)
    ensures |r| >= 1
  {
    if s == "" then [""]
    else if s[0] == sep then [""] + Split(s[1..], sep)
    else
      var r := Split(s[1..], sep);
      [[s[0]] + r[0]] + r[1..]
  }

  function Join(es: seq<string>, sep: char): string {
    if es == [] then "" else if |es| == 1 then es[0] else es[0] + [sep] + Join(es[1..], sep)
  }

  ghost predicate Unbroken(es: seq<string>, sep: char) {
    forall i | 0 <= i < |es| :: sep !in es[i]
  }

  lemma {:induction false} SplitUnbroken(s: string, sep: char)
    ensures Unbroken(Split(s, sep), sep)
    ensures forall i, c | 0 <= i < |Split(s, sep)| && c in Split(s, sep)[i] :: c in s
  {
    if s != "" {
      SplitUnbroken(s[1..], sep);
      assert forall c | c in s[1..] :: c in s;
    }
  }

  lemma {:induction false} SplitPiece(e: string, rest: string, sep: char)
    requires sep !in e
    ensures Split(e, sep) == [e] && Split(e + [sep] + rest, sep) == [e] + Split(rest, sep)
    decreases |e|
  {
    if e == "" {
      assert e + [sep] + rest == [sep] + rest;
    } else {
      SplitPiece(e[1..], rest, sep);
      assert [e[0]] + e[1..] == e;
      var joint := e + [sep] + rest;
      assert joint[0] == e[0] && joint[1..] == e[1..] + [sep] + rest;
      var r := Split(joint[1..], sep);
      assert r[0] == e[1..] && r[1..] == Split(rest, sep);
    }
  }

  lemma {:induction false} SplitJoin(es: seq<string>, sep: char)
    requires es != [] && Unbroken(es, sep)
    ensures Split(Join(es, sep), sep) == es
  {
    if |es| == 1 {
      SplitPiece(es[0], "", sep);
    } else {
      SplitJoin(es[1..], sep);
      SplitPiece(es[0], Join(es[1..], sep), sep);
    }
  }

  lemma {:induction false} JoinChars(es: seq<string>, sep: char, c: char)
    requires c in Join(es, sep)
    ensures c == sep || exists i :: 0 <= i < |es| && c in es[i]
  {
    if |es| > 1 && c !in es[0] && c != sep {
      JoinChars(es[1..], sep, c);
      var i :| 0 <= i < |es[1..]| && c in es[1..][i];
      assert c in es[i + 1];
    }
  }
}
