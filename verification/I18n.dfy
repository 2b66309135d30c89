/**
  Translation strings.  A string is a sequence of literal characters and braced groups; a language
  map may mention other keys in braces, and `subAllParams` substitutes them in passes until none
  is left.
*/
module I18n {
  import opened Wrappers

  datatype Token = Lit(c: char) | Param(key: string)

  type Text = seq<Token>

  type LangMap = map<string, Text>

  function Literal(s: string): Text { seq(|s|, i requires 0 <= i < |s| => Lit(s[i])) }

  /** The keys that the parameter pattern matches: letters, digits, dash and dot; in either case, which takes in the
      long s and the Kelvin sign. */
  predicate IsName(key: string) {
    key != [] && forall c | c in key ::
      'a' <= c <= 'z' || 'A' <= c <= 'Z' || '0' <= c <= '9' || c == '-' || c == '.'
      || c == '\U{017F}' || c == '\U{212A}'
  }

  predicate IsParam(t: Token) { t.Param? && IsName(t.key) }

  /** White space in Unicode. */
  predicate IsSpace(c: char) {
    var n := c as int;
    9 <= n <= 13 || n == 32 || 0x2000 <= n <= 0x200A
    || n in {0x85, 0xA0, 0x1680, 0x2028, 0x2029, 0x202F, 0x205F, 0x3000}
  }

  function TrimLeft(t: Text): Text {
    if t != [] && t[0].Lit? && IsSpace(t[0].c) then TrimLeft(t[1..]) else t
  }

  function TrimRight(t: Text): Text {
    if t != [] && t[|t| - 1].Lit? && IsSpace(t[|t| - 1].c) then TrimRight(t[..|t| - 1]) else t
  }

  function BeforeBar(t: Text): Text
    requires Lit('|') in t
  {
    if t[0] == Lit('|') then [] else [t[0]] + BeforeBar(t[1..])
  }

  /** The part before the first bar, trimmed; a string without a bar stays as it is. */
  function GetSingular(t: Text): Text {
    if Lit('|') !in t then t else TrimLeft(TrimRight(BeforeBar(t)))
  }

  /** A key that is not in the map translates to itself. */
  function T(m: LangMap, key: string): Text {
    if key in m then GetSingular(m[key]) else Literal(key)
  }

  /** The keys of the parameters of a text, in order, with repeats. */
  function Params(t: Text): seq<string> {
    if t == [] then [] else (if IsParam(t[0]) then [t[0].key] else []) + Params(t[1..])
  }

  function ReplaceAll(t: Text, key: string, val: Text): Text {
    if t == [] then [] else (if t[0] == Param(key) then val else [t[0]]) + ReplaceAll(t[1..], key, val)
  }

  // ---------------------------------------------------------------- direct recursive expansion

  /** Every parameter of a translation has a smaller rank than its key. */
  ghost predicate Ranked(m: LangMap, rank: string -> nat) {
    forall k: string, x: Token | x in T(m, k) && IsParam(x) :: rank(x.key) < rank(k)
  }

  ghost predicate BelowRank(t: Text, rank: string -> nat, r: nat) {
    forall x: Token | x in t && IsParam(x) :: rank(x.key) < r
  }

  /** The text with every parameter of rank below `r` replaced by its expanded translation. */
  ghost function ExpandBelow(m: LangMap, rank: string -> nat, r: nat, t: Text): Text
    decreases r, |t|
  {
    if t == [] then [] else ExpandToken(m, rank, r, t[0]) + ExpandBelow(m, rank, r, t[1..])
  }

  ghost function ExpandToken(m: LangMap, rank: string -> nat, r: nat, x: Token): Text
    decreases r, 0
  {
    if IsParam(x) && rank(x.key) < r then ExpandBelow(m, rank, rank(x.key), T(m, x.key)) else [x]
  }

  /** The number of substitutions that the expansion takes. */
  ghost function WeightBelow(m: LangMap, rank: string -> nat, r: nat, t: Text): nat
    decreases r, |t|
  {
    if t == [] then 0 else WeighToken(m, rank, r, t[0]) + WeightBelow(m, rank, r, t[1..])
  }

  ghost function WeighToken(m: LangMap, rank: string -> nat, r: nat, x: Token): nat
    decreases r, 0
  {
    if IsParam(x) && rank(x.key) < r then 1 + WeightBelow(m, rank, rank(x.key), T(m, x.key)) else 0
  }

  /** One more than the highest rank of a parameter. */
  ghost function Height(t: Text, rank: string -> nat): (r: nat)
    ensures BelowRank(t, rank, r)
  {
    if t == [] then 0
    else
      var r := Height(t[1..], rank);
      if IsParam(t[0]) && rank(t[0].key) >= r then rank(t[0].key) + 1 else r
  }

  ghost function Expand(m: LangMap, rank: string -> nat, t: Text): Text {
    ExpandBelow(m, rank, Height(t, rank), t)
  }

  ghost function Weight(m: LangMap, rank: string -> nat, t: Text): nat {
    WeightBelow(m, rank, Height(t, rank), t)
  }

  lemma {:induction false} BoundIsFree(m: LangMap, rank: string -> nat, r: nat, q: nat, t: Text)
    requires BelowRank(t, rank, r) && BelowRank(t, rank, q)
    ensures ExpandBelow(m, rank, r, t) == ExpandBelow(m, rank, q, t)
    ensures WeightBelow(m, rank, r, t) == WeightBelow(m, rank, q, t)
    decreases |t|
  {
    if t != [] {
      BoundIsFree(m, rank, r, q, t[1..]);
    }
  }

  lemma {:induction false} ExpandConcat(m: LangMap, rank: string -> nat, r: nat, a: Text, b: Text)
    ensures ExpandBelow(m, rank, r, a + b) == ExpandBelow(m, rank, r, a) + ExpandBelow(m, rank, r, b)
    ensures WeightBelow(m, rank, r, a + b) == WeightBelow(m, rank, r, a) + WeightBelow(m, rank, r, b)
    decreases |a|
  {
    if a == [] {
      assert a + b == b;
    } else {
      assert (a + b)[1..] == a[1..] + b;
      ExpandConcat(m, rank, r, a[1..], b);
    }
  }

  lemma ExpandWithin(m: LangMap, rank: string -> nat, t: Text, part: Text)
    requires forall x | x in part :: x in t
    ensures ExpandBelow(m, rank, Height(t, rank), part) == Expand(m, rank, part)
  {
    BoundIsFree(m, rank, Height(t, rank), Height(part, rank), part);
  }

  /** Expansion is the homomorphism that unfolds a parameter into its expanded translation. */
  lemma ExpandUnfolds(m: LangMap, rank: string -> nat, a: Text, x: Token, b: Text)
    requires Ranked(m, rank)
    ensures Expand(m, rank, a + [x] + b)
      == Expand(m, rank, a) + (if IsParam(x) then Expand(m, rank, T(m, x.key)) else [x]) + Expand(m, rank, b)
  {
    var t := a + [x] + b;
    var r := Height(t, rank);
    ExpandWithin(m, rank, t, a);
    ExpandWithin(m, rank, t, b);
    ExpandConcat(m, rank, r, a + [x], b);
    ExpandConcat(m, rank, r, a, [x]);
    ExpandOne(m, rank, t, x);
  }

  lemma ExpandOne(m: LangMap, rank: string -> nat, t: Text, x: Token)
    requires Ranked(m, rank) && x in t
    ensures ExpandBelow(m, rank, Height(t, rank), [x]) == if IsParam(x) then Expand(m, rank, T(m, x.key)) else [x]
  {
    var r := Height(t, rank);
    assert ExpandBelow(m, rank, r, [x]) == ExpandToken(m, rank, r, x) + ExpandBelow(m, rank, r, []);
    if IsParam(x) {
      BoundIsFree(m, rank, rank(x.key), Height(T(m, x.key), rank), T(m, x.key));
    }
  }

  /** The ranking only shows that the expansion ends: it does not change it. */
  lemma {:induction false} RankIsFree(m: LangMap, rank: string -> nat, r: nat, other: string -> nat, q: nat, t: Text)
    requires Ranked(m, rank) && Ranked(m, other)
    requires BelowRank(t, rank, r) && BelowRank(t, other, q)
    ensures ExpandBelow(m, rank, r, t) == ExpandBelow(m, other, q, t)
    decreases r, |t|
  {
    if t != [] {
      var x := t[0];
      if IsParam(x) {
        RankIsFree(m, rank, rank(x.key), other, other(x.key), T(m, x.key));
      }
      RankIsFree(m, rank, r, other, q, t[1..]);
    }
  }

  lemma {:induction false} NoParamsLeft(m: LangMap, rank: string -> nat, r: nat, t: Text)
    requires Ranked(m, rank) && BelowRank(t, rank, r)
    ensures forall x | x in ExpandBelow(m, rank, r, t) :: !IsParam(x)
    decreases r, |t|
  {
    if t != [] {
      if IsParam(t[0]) {
        NoParamsLeft(m, rank, rank(t[0].key), T(m, t[0].key));
      }
      NoParamsLeft(m, rank, r, t[1..]);
    }
  }

  lemma {:induction false} ParamsOf(t: Text)
    ensures forall k :: k in Params(t) <==> Param(k) in t && IsName(k)
  {
    if t != [] {
      ParamsOf(t[1..]);
    }
  }

  lemma {:induction false} PlainStays(m: LangMap, rank: string -> nat, r: nat, t: Text)
    requires Params(t) == []
    ensures ExpandBelow(m, rank, r, t) == t
  {
    if t != [] {
      PlainStays(m, rank, r, t[1..]);
    }
  }

  // ---------------------------------------------------------------- one substitution

  lemma {:induction false} ReplacedFrom(t: Text, key: string, val: Text, x: Token)
    requires x in ReplaceAll(t, key, val)
    ensures x in t || (Param(key) in t && x in val)
  {
    if t != [] {
      var head := if t[0] == Param(key) then val else [t[0]];
      if x !in head {
        ReplacedFrom(t[1..], key, val, x);
      }
    }
  }

  /** Replacing a parameter by its translation keeps the expansion and makes it cheaper. */
  lemma {:induction false} ReplaceBelow(m: LangMap, rank: string -> nat, r: nat, t: Text, key: string)
    requires Ranked(m, rank) && BelowRank(t, rank, r) && IsName(key)
    ensures BelowRank(ReplaceAll(t, key, T(m, key)), rank, r)
    ensures ExpandBelow(m, rank, r, ReplaceAll(t, key, T(m, key))) == ExpandBelow(m, rank, r, t)
    ensures WeightBelow(m, rank, r, ReplaceAll(t, key, T(m, key))) <= WeightBelow(m, rank, r, t)
    ensures Param(key) in t
      ==> WeightBelow(m, rank, r, ReplaceAll(t, key, T(m, key))) < WeightBelow(m, rank, r, t)
    decreases |t|
  {
    if t != [] {
      var val := T(m, key);
      ReplaceBelow(m, rank, r, t[1..], key);
      if t[0] == Param(key) {
        BoundIsFree(m, rank, r, rank(key), val);
        ExpandConcat(m, rank, r, val, ReplaceAll(t[1..], key, val));
      } else {
        ExpandConcat(m, rank, r, [t[0]], ReplaceAll(t[1..], key, val));
        assert ExpandBelow(m, rank, r, [t[0]]) == ExpandToken(m, rank, r, t[0]) + ExpandBelow(m, rank, r, []);
      }
    }
  }

  lemma ReplaceKeeps(m: LangMap, rank: string -> nat, t: Text, key: string)
    requires Ranked(m, rank) && IsName(key)
    ensures Expand(m, rank, ReplaceAll(t, key, T(m, key))) == Expand(m, rank, t)
    ensures Weight(m, rank, ReplaceAll(t, key, T(m, key))) <= Weight(m, rank, t)
    ensures Param(key) in t ==> Weight(m, rank, ReplaceAll(t, key, T(m, key))) < Weight(m, rank, t)
  {
    var u := ReplaceAll(t, key, T(m, key));
    var r := Height(t, rank);
    ReplaceBelow(m, rank, r, t, key);
    BoundIsFree(m, rank, Height(u, rank), r, u);
  }

  // ---------------------------------------------------------------- keys that never resolve

  ghost predicate Mentions(t: Text, keys: set<string>) {
    exists k | k in keys :: Param(k) in t && IsName(k)
  }

  /** Keys whose translations all mention one of them again. */
  ghost predicate Trap(m: LangMap, keys: set<string>) {
    forall k {:trigger T(m, k)} | k in keys :: Mentions(T(m, k), keys)
  }

  /** A ranking of all keys outside `open`, none of which leads into it. */
  ghost predicate RankedOutside(m: LangMap, rank: string -> nat, open: set<string>) {
    forall k: string, x: Token | k !in open && x in T(m, k) && IsParam(x) :: x.key !in open && rank(x.key) < rank(k)
  }

  /** The map with the translations of some keys emptied. */
  function Muted(m: LangMap, keys: set<string>): LangMap { map k | k in m :: if k in keys then [] else m[k] }

  lemma MutedIsRanked(m: LangMap, rank: string -> nat, keys: set<string>)
    requires RankedOutside(m, rank, keys) && keys <= m.Keys
    ensures Ranked(Muted(m, keys), rank)
    ensures forall k | k !in keys :: T(Muted(m, keys), k) == T(m, k)
  {
    var n := Muted(m, keys);
    forall k: string ensures T(n, k) == if k in keys then [] else T(m, k) {}
  }

  /** Replacing by translations of keys outside a set never brings one of them in. */
  lemma ReplaceStaysOutside(m: LangMap, rank: string -> nat, keys: set<string>, t: Text, key: string)
    requires RankedOutside(m, rank, keys) && !Mentions(t, keys) && key !in keys
    ensures !Mentions(ReplaceAll(t, key, T(m, key)), keys)
  {
    if Mentions(ReplaceAll(t, key, T(m, key)), keys) {
      var k :| k in keys && Param(k) in ReplaceAll(t, key, T(m, key)) && IsName(k);
      ReplacedFrom(t, key, T(m, key), Param(k));
    }
  }

  // ---------------------------------------------------------------- the instance

  class Translator {
    var langMap: LangMap

    constructor (m: LangMap)
      ensures langMap == m
    {
      langMap := m;
    }

    /** Overwrites the conflicting keys; a document that does not parse changes nothing. */
    method Load(parsed: Option<LangMap>) returns (ok: bool)
      modifies this
      ensures ok <==> parsed.Some?
      ensures langMap == if ok then old(langMap) + parsed.value else old(langMap)
    {
      if parsed.None? {
        return false;
      }
      var l := parsed.value;
      var keys := l.Keys;
      while keys != {}
        invariant keys <= l.Keys
        invariant langMap == old(langMap) + (map k | k in l.Keys - keys :: l[k])
      {
        var k :| k in keys;
        langMap := langMap[k := l[k]];
        keys := keys - {k};
      }
      assert (map k | k in l.Keys - keys :: l[k]) == l;
      return true;
    }

    /** For a text that mentions none of the keys that never resolve, the passes end, leave no parameter, and give
        the direct expansion. */
    method SubAllParams(s: Text, ghost rank: string -> nat, ghost trap: set<string>) returns (r: Text)
      requires RankedOutside(langMap, rank, trap) && trap <= langMap.Keys && !Mentions(s, trap)
      ensures r == Expand(Muted(langMap, trap), rank, s)
      ensures forall x | x in r :: !IsParam(x)
      decreases Weight(Muted(langMap, trap), rank, s)
    {
      ghost var m := Muted(langMap, trap);
      MutedIsRanked(langMap, rank, trap);
      var parts := Params(s);
      ParamsOf(s);
      if |parts| < 1 {
        PlainStays(m, rank, Height(s, rank), s);
        return s;
      }
      var u := s;
      var n := 0;
      while n < |parts|
        invariant 0 <= n <= |parts| && !Mentions(u, trap)
        invariant Expand(m, rank, u) == Expand(m, rank, s)
        invariant n == 0 ==> u == s
        invariant n > 0 ==> Weight(m, rank, u) < Weight(m, rank, s)
      {
        assert parts[n] in parts;
        assert parts[n] !in trap;
        ReplaceKeeps(m, rank, u, parts[n]);
        ReplaceStaysOutside(langMap, rank, trap, u, parts[n]);
        u := ReplaceAll(u, parts[n], T(langMap, parts[n]));
        n := n + 1;
      }
      r := SubAllParams(u, rank, trap);
      NoParamsLeft(m, rank, Height(s, rank), s);
    }

    /** One substitution after the other comes to replacing every argument at once. */
    method Ts(key: string, params: seq<Text>, ghost rank: string -> nat, ghost trap: set<string>) returns (r: Text)
      requires RankedOutside(langMap, rank, trap) && trap <= langMap.Keys
      requires |params| % 2 == 0 && key in langMap ==> forall i | 0 <= i < |params| :: !Mentions(params[i], trap)
      ensures |params| % 2 != 0 ==> r == Literal(key + ": Invalid arguments")
      ensures |params| % 2 == 0 && key !in langMap ==> r == Literal(key)
      ensures |params| % 2 == 0 && key in langMap
        ==> r == Substituted(GetSingular(langMap[key]), Values(Muted(langMap, trap), rank, params))
    {
      if |params| % 2 != 0 {
        return Literal(key + ": Invalid arguments");
      }
      if key !in langMap {
        return Literal(key);
      }
      r := SubstituteValues(GetSingular(langMap[key]), params, rank, trap);
    }

    /** The loop of `Ts` over its pairs. */
    method SubstituteValues(t: Text, params: seq<Text>, ghost rank: string -> nat, ghost trap: set<string>)
      returns (s: Text)
      requires RankedOutside(langMap, rank, trap) && trap <= langMap.Keys && |params| % 2 == 0
      requires forall i | 0 <= i < |params| :: !Mentions(params[i], trap)
      ensures s == Substituted(t, Values(Muted(langMap, trap), rank, params))
    {
      s := t;
      var n := 0;
      ghost var m := Muted(langMap, trap);
      ghost var goal := SubstitutedFrom(m, rank, t, params, 0);
      SubstitutedByPairs(m, rank, t, params, 0);
      assert params[0..] == params;
      while n < |params|
        invariant 0 <= n <= |params| && n % 2 == 0
        invariant SubstitutedFrom(m, rank, s, params, n) == goal
      {
        var val := SubAllParams(params[n + 1], rank, trap);
        s := ReplaceAll(s, Name(params[n]), val);
        n := n + 2;
      }
    }
  }

  // ---------------------------------------------------------------- arguments

  /** The characters of an argument name. */
  function Name(t: Text): string {
    if t == [] then "" else (if t[0].Lit? then [t[0].c] else "{" + t[0].key + "}") + Name(t[1..])
  }

  /** The arguments of `Ts` as pairs of a name and an expanded value. */
  ghost function Values(m: LangMap, rank: string -> nat, params: seq<Text>): seq<(string, Text)> {
    if |params| < 2 then [] else [(Name(params[0]), Expand(m, rank, params[1]))] + Values(m, rank, params[2..])
  }

  /** What the pairs from the `n`-th argument on make of a text. */
  ghost function SubstitutedFrom(m: LangMap, rank: string -> nat, t: Text, params: seq<Text>, n: nat): Text
    decreases |params| - n
  {
    if n + 1 >= |params| then t
    else SubstitutedFrom(m, rank, ReplaceAll(t, Name(params[n]), Expand(m, rank, params[n + 1])), params, n + 2)
  }

  lemma {:induction false} SubstitutedByPairs(m: LangMap, rank: string -> nat, t: Text, params: seq<Text>, n: nat)
    requires n <= |params|
    ensures SubstitutedFrom(m, rank, t, params, n) == Substituted(t, Values(m, rank, params[n..]))
    decreases |params| - n
  {
    if n + 1 < |params| {
      var val := Expand(m, rank, params[n + 1]);
      SubstitutedByPairs(m, rank, ReplaceAll(t, Name(params[n]), val), params, n + 2);
      assert params[n..][2..] == params[n + 2..];
      assert Values(m, rank, params[n..])[1..] == Values(m, rank, params[n + 2..]);
    }
  }

  function Substituted(t: Text, args: seq<(string, Text)>): Text
    decreases |args|
  {
    if args == [] then t else Substituted(ReplaceAll(t, args[0].0, args[0].1), args[1..])
  }

  /** The value of the first pair with that name. */
  function Lookup(key: string, args: seq<(string, Text)>): Option<Text> {
    if args == [] then None else if args[0].0 == key then Some(args[0].1) else Lookup(key, args[1..])
  }

  function AtOnce(t: Text, args: seq<(string, Text)>): Text {
    if t == [] then []
    else
      (if t[0].Param? && Lookup(t[0].key, args).Some? then Lookup(t[0].key, args).value else [t[0]])
      + AtOnce(t[1..], args)
  }

  ghost predicate PlainValues(args: seq<(string, Text)>) {
    forall i, x | 0 <= i < |args| && x in args[i].1 :: !IsParam(x)
  }

  ghost predicate NamesOnly(args: seq<(string, Text)>) {
    forall i | 0 <= i < |args| :: IsName(args[i].0)
  }

  lemma {:induction false} AtOnceConcat(a: Text, b: Text, args: seq<(string, Text)>)
    ensures AtOnce(a + b, args) == AtOnce(a, args) + AtOnce(b, args)
    decreases |a|
  {
    if a == [] {
      assert a + b == b;
    } else {
      assert (a + b)[1..] == a[1..] + b;
      AtOnceConcat(a[1..], b, args);
    }
  }

  lemma {:induction false} OnlyNamesFound(key: string, args: seq<(string, Text)>)
    requires NamesOnly(args) && !IsName(key)
    ensures Lookup(key, args).None?
  {
    if args != [] {
      assert IsName(args[0].0);
      assert forall i | 0 <= i < |args[1..]| :: args[1..][i] == args[i + 1];
      OnlyNamesFound(key, args[1..]);
    }
  }

  lemma {:induction false} PlainUntouched(t: Text, args: seq<(string, Text)>)
    requires NamesOnly(args) && forall x | x in t :: !IsParam(x)
    ensures AtOnce(t, args) == t
  {
    if t != [] {
      PlainUntouched(t[1..], args);
      assert t[0] in t;
      if t[0].Param? {
        OnlyNamesFound(t[0].key, args);
      }
    }
  }

  lemma {:induction false} FirstReplaced(t: Text, args: seq<(string, Text)>)
    requires args != [] && NamesOnly(args) && PlainValues(args)
    ensures AtOnce(ReplaceAll(t, args[0].0, args[0].1), args[1..]) == AtOnce(t, args)
    decreases |t|
  {
    if t != [] {
      var head := if t[0] == Param(args[0].0) then args[0].1 else [t[0]];
      var tail := ReplaceAll(t[1..], args[0].0, args[0].1);
      FirstReplaced(t[1..], args);
      AtOnceConcat(head, tail, args[1..]);
      if t[0] == Param(args[0].0) {
        assert forall i | 0 <= i < |args[1..]| :: args[1..][i] == args[i + 1];
        PlainUntouched(args[0].1, args[1..]);
      } else {
        var found := if t[0].Param? then Lookup(t[0].key, args[1..]) else None;
        assert AtOnce(head, args[1..]) == (if found.Some? then found.value else [t[0]]) + AtOnce([], args[1..]);
      }
    }
  }

  /** Arguments do not see each other's values: the first pair of a name decides. */
  lemma {:induction false} ArgumentsAtOnce(t: Text, args: seq<(string, Text)>)
    requires NamesOnly(args) && PlainValues(args)
    ensures Substituted(t, args) == AtOnce(t, args)
    decreases |args|
  {
    if args == [] {
      NothingAtOnce(t);
    } else {
      assert forall i | 0 <= i < |args[1..]| :: args[1..][i] == args[i + 1];
      ArgumentsAtOnce(ReplaceAll(t, args[0].0, args[0].1), args[1..]);
      FirstReplaced(t, args);
    }
  }

  /** The values of a call of `Ts` are expanded, so its substitutions amount to a simultaneous one. */
  lemma TsIsSimultaneous(m: LangMap, rank: string -> nat, t: Text, params: seq<Text>)
    requires Ranked(m, rank) && NamesOnly(Values(m, rank, params))
    ensures Substituted(t, Values(m, rank, params)) == AtOnce(t, Values(m, rank, params))
  {
    ValuesArePlain(m, rank, params);
    ArgumentsAtOnce(t, Values(m, rank, params));
  }

  lemma {:induction false} NothingAtOnce(t: Text)
    ensures AtOnce(t, []) == t
  {
    if t != [] {
      NothingAtOnce(t[1..]);
    }
  }

  lemma {:induction false} ValuesArePlain(m: LangMap, rank: string -> nat, params: seq<Text>)
    requires Ranked(m, rank)
    ensures PlainValues(Values(m, rank, params))
    decreases |params|
  {
    if |params| >= 2 {
      ValuesArePlain(m, rank, params[2..]);
      NoParamsLeft(m, rank, Height(params[1], rank), params[1]);
    }
  }

  // ---------------------------------------------------------------- when the passes end

  function PassOver(m: LangMap, t: Text, parts: seq<string>): Text
    decreases |parts|
  {
    if parts == [] then t else PassOver(m, ReplaceAll(t, parts[0], T(m, parts[0])), parts[1..])
  }

  /** The text after `n` calls of `subAllParams`, each substituting what it found at its start. */
  function Passes(m: LangMap, t: Text, n: nat): Text
    decreases n
  {
    if n == 0 then t else Passes(m, PassOver(m, t, Params(t)), n - 1)
  }

  lemma {:induction false} ReplaceHas(t: Text, key: string, val: Text, x: Token)
    requires (x in t && x != Param(key)) || (Param(key) in t && x in val)
    ensures x in ReplaceAll(t, key, val)
  {
    var head := if t[0] == Param(key) then val else [t[0]];
    if x !in head {
      ReplaceHas(t[1..], key, val, x);
    }
  }

  lemma {:induction false} TrapPass(m: LangMap, keys: set<string>, t: Text, parts: seq<string>)
    requires Trap(m, keys) && Mentions(t, keys)
    ensures Mentions(PassOver(m, t, parts), keys)
    decreases |parts|
  {
    if parts != [] {
      var k :| k in keys && Param(k) in t && IsName(k);
      var key := parts[0];
      if k == key {
        var j :| j in keys && Param(j) in T(m, key) && IsName(j);
        ReplaceHas(t, key, T(m, key), Param(j));
      } else {
        ReplaceHas(t, key, T(m, key), Param(k));
      }
      TrapPass(m, keys, ReplaceAll(t, key, T(m, key)), parts[1..]);
    }
  }

  /** A text that mentions a trap never runs out of parameters, so the recursion has no end. */
  lemma {:induction false} TrapNeverEnds(m: LangMap, keys: set<string>, t: Text, n: nat)
    requires Trap(m, keys) && Mentions(t, keys)
    ensures Params(Passes(m, t, n)) != []
    decreases n
  {
    if n == 0 {
      ParamsOf(t);
    } else {
      TrapPass(m, keys, t, Params(t));
      TrapNeverEnds(m, keys, PassOver(m, t, Params(t)), n - 1);
    }
  }

  /** The largest trap: what is left when keys are ranked as long as one leads to ranked keys only. */
  lemma {:induction false} RankOrTrap(m: LangMap, open: set<string>, rank: string -> nat)
    returns (full: string -> nat, keys: set<string>)
    requires RankedOutside(m, rank, open)
    ensures keys <= open && RankedOutside(m, full, keys) && Trap(m, keys)
    decreases |open|
  {
    full, keys := rank, open;
    if k :| k in open && !Mentions(T(m, k), open) {
      var top := Height(T(m, k), rank);
      full, keys := RankOrTrap(m, open - {k}, (j: string) => if j == k then top else rank(j));
    }
  }

  lemma {:induction false} PassKeeps(m: LangMap, rank: string -> nat, t: Text, parts: seq<string>)
    requires Ranked(m, rank) && forall k | k in parts :: IsName(k)
    ensures Expand(m, rank, PassOver(m, t, parts)) == Expand(m, rank, t)
    ensures Weight(m, rank, PassOver(m, t, parts)) <= Weight(m, rank, t)
    ensures parts != [] && Param(parts[0]) in t ==> Weight(m, rank, PassOver(m, t, parts)) < Weight(m, rank, t)
    decreases |parts|
  {
    if parts != [] {
      ReplaceKeeps(m, rank, t, parts[0]);
      PassKeeps(m, rank, ReplaceAll(t, parts[0], T(m, parts[0])), parts[1..]);
    }
  }

  lemma {:induction false} PassesEnd(m: LangMap, rank: string -> nat, t: Text) returns (n: nat)
    requires Ranked(m, rank)
    ensures Params(Passes(m, t, n)) == [] && Passes(m, t, n) == Expand(m, rank, t)
    decreases Weight(m, rank, t)
  {
    n := 0;
    if Params(t) == [] {
      PlainStays(m, rank, Height(t, rank), t);
    } else {
      ParamsOf(t);
      assert Params(t)[0] in Params(t);
      PassKeeps(m, rank, t, Params(t));
      n := PassesEnd(m, rank, PassOver(m, t, Params(t)));
      n := n + 1;
    }
  }

  ghost predicate Ends(m: LangMap, t: Text) {
    exists n: nat :: Params(Passes(m, t, n)) == []
  }

  lemma TrapLoops(m: LangMap, keys: set<string>, t: Text)
    requires Trap(m, keys) && Mentions(t, keys)
    ensures !Ends(m, t)
  {
    forall n: nat ensures Params(Passes(m, t, n)) != [] {
      TrapNeverEnds(m, keys, t, n);
    }
  }

  lemma {:induction false} PassAgrees(m: LangMap, rank: string -> nat, keys: set<string>, t: Text, parts: seq<string>)
    requires RankedOutside(m, rank, keys) && keys <= m.Keys && !Mentions(t, keys) && forall k | k in parts :: k !in keys
    ensures PassOver(Muted(m, keys), t, parts) == PassOver(m, t, parts) && !Mentions(PassOver(m, t, parts), keys)
    decreases |parts|
  {
    if parts != [] {
      MutedIsRanked(m, rank, keys);
      ReplaceStaysOutside(m, rank, keys, t, parts[0]);
      PassAgrees(m, rank, keys, ReplaceAll(t, parts[0], T(m, parts[0])), parts[1..]);
    }
  }

  /** A text outside a trap does not see it. */
  lemma {:induction false} PassesAgree(m: LangMap, rank: string -> nat, keys: set<string>, t: Text, n: nat)
    requires RankedOutside(m, rank, keys) && keys <= m.Keys && !Mentions(t, keys)
    ensures Passes(Muted(m, keys), t, n) == Passes(m, t, n)
    decreases n
  {
    if n > 0 {
      ParamsOf(t);
      PassAgrees(m, rank, keys, t, Params(t));
      PassesAgree(m, rank, keys, PassOver(m, t, Params(t)), n - 1);
    }
  }

  /** Substitution ends on a text exactly when the text mentions no trap. */
  lemma EndsExactlyOutsideTraps(m: LangMap, t: Text)
    ensures Ends(m, t) <==> forall keys | Trap(m, keys) :: !Mentions(t, keys)
  {
    if keys :| Trap(m, keys) && Mentions(t, keys) {
      TrapLoops(m, keys, t);
    } else {
      var rank, keys := RankOrTrap(m, m.Keys, (k: string) => 0);
      MutedIsRanked(m, rank, keys);
      var n := PassesEnd(Muted(m, keys), rank, t);
      PassesAgree(m, rank, keys, t, n);
    }
  }

  /** It ends on every text exactly when no keys are trapped among themselves. */
  lemma EndsExactlyWithoutTrap(m: LangMap)
    ensures (forall t: Text :: Ends(m, t)) <==> (forall keys | Trap(m, keys) :: keys == {})
  {
    if keys :| Trap(m, keys) && keys != {} {
      var k :| k in keys;
      assert Mentions(T(m, k), keys);
      TrapLoops(m, keys, T(m, k));
    } else {
      forall t: Text ensures Ends(m, t) {
        EndsExactlyOutsideTraps(m, t);
      }
    }
  }

  // ---------------------------------------------------------------- what is shown of a translation

  predicate Blank(x: Token) { x.Lit? && IsSpace(x.c) }

  lemma {:induction false} LeftTrimmed(t: Text) returns (i: nat)
    ensures i <= |t| && TrimLeft(t) == t[i..] && (forall k | 0 <= k < i :: Blank(t[k])) && (i < |t| ==> !Blank(t[i]))
  {
    i := 0;
    if t != [] && Blank(t[0]) {
      var j := LeftTrimmed(t[1..]);
      i := j + 1;
      assert t[1..][j..] == t[i..];
      forall k | 0 <= k < i ensures Blank(t[k]) { assert k == 0 || t[k] == t[1..][k - 1]; }
    }
  }

  lemma {:induction false} RightTrimmed(t: Text) returns (j: nat)
    ensures j <= |t| && TrimRight(t) == t[..j]
    ensures (forall k | j <= k < |t| :: Blank(t[k])) && (j > 0 ==> !Blank(t[j - 1]))
  {
    j := |t|;
    if t != [] && Blank(t[|t| - 1]) {
      j := RightTrimmed(t[..|t| - 1]);
      assert t[..|t| - 1][..j] == t[..j];
    }
  }

  lemma {:induction false} HeadBeforeBar(a: Text, b: Text)
    requires Lit('|') !in a
    ensures BeforeBar(a + [Lit('|')] + b) == a
    decreases |a|
  {
    var t := a + [Lit('|')] + b;
    assert t[|a|] == Lit('|');
    if a != [] {
      assert t[0] == a[0] && t[1..] == a[1..] + [Lit('|')] + b;
      HeadBeforeBar(a[1..], b);
    }
  }

  /** What is shown of a translation: all of it when it has no bar; else the part before the first bar without the white
      space at its ends. */
  lemma ShownIsHead(m: LangMap, key: string, a: Text, b: Text) returns (i: nat, j: nat)
    requires key in m && Lit('|') !in a && m[key] == a + [Lit('|')] + b
    ensures i <= j <= |a| && T(m, key) == a[i..j]
    ensures forall k | 0 <= k < i || j <= k < |a| :: a[k].Lit? && IsSpace(a[k].c)
    ensures i < j ==> !(a[i].Lit? && IsSpace(a[i].c)) && !(a[j - 1].Lit? && IsSpace(a[j - 1].c))
  {
    SingularOfHead(a, b);
    i, j := Trimmed(a);
  }

  lemma SingularOfHead(a: Text, b: Text)
    requires Lit('|') !in a
    ensures GetSingular(a + [Lit('|')] + b) == TrimLeft(TrimRight(a))
  {
    HeadBeforeBar(a, b);
    assert (a + [Lit('|')] + b)[|a|] == Lit('|');
  }

  /** Trimming takes white space off both ends and nothing else. */
  lemma Trimmed(a: Text) returns (i: nat, j: nat)
    ensures i <= j <= |a| && TrimLeft(TrimRight(a)) == a[i..j]
    ensures forall k | 0 <= k < i || j <= k < |a| :: Blank(a[k])
    ensures i < j ==> !Blank(a[i]) && !Blank(a[j - 1])
  {
    j := RightTrimmed(a);
    i := LeftTrimmed(a[..j]);
    WithinHead(a, i, j);
  }

  lemma WithinHead(a: Text, i: nat, j: nat)
    requires i <= j <= |a|
    ensures a[..j][i..] == a[i..j] && (forall k | 0 <= k < i :: a[k] == a[..j][k]) && (i < j ==> a[..j][i] == a[i])
  {}

  /** A translation without a bar is shown as it is, and a missing key as its own characters. */
  lemma ShownAsIs(m: LangMap, key: string)
    ensures key in m && Lit('|') !in m[key] ==> T(m, key) == m[key]
    ensures key !in m ==> |T(m, key)| == |key| && forall i | 0 <= i < |key| :: T(m, key)[i] == Lit(key[i])
  {}

  /** An argument's name is its characters, and the arguments are taken two by two: a name and a value to expand. */
  lemma {:induction false} NameOfLiteral(s: string)
    ensures Name(Literal(s)) == s
  {
    if s != "" {
      assert Literal(s)[1..] == Literal(s[1..]);
      NameOfLiteral(s[1..]);
    }
  }

  lemma {:induction false} ValuesByPairs(m: LangMap, rank: string -> nat, params: seq<Text>)
    ensures |Values(m, rank, params)| == |params| / 2
    ensures forall i | 0 <= i < |params| / 2 ::
      Values(m, rank, params)[i] == (Name(params[2 * i]), Expand(m, rank, params[2 * i + 1]))
    decreases |params|
  {
    if |params| >= 2 {
      var rest := params[2..];
      ValuesByPairs(m, rank, rest);
      forall i | 0 <= i < |params| / 2
        ensures Values(m, rank, params)[i] == (Name(params[2 * i]), Expand(m, rank, params[2 * i + 1]))
      {
        if i > 0 {
          assert Values(m, rank, params)[i] == Values(m, rank, rest)[i - 1];
          assert rest[2 * (i - 1)] == params[2 * i] && rest[2 * (i - 1) + 1] == params[2 * i + 1];
        }
      }
    }
  }

  /** A name is made of the characters that the pattern allows, one at least. */
  lemma NamesAre(a: string, b: string, c: char)
    ensures !IsName("")
    ensures IsName([c]) <==>
      'a' <= c <= 'z' || 'A' <= c <= 'Z' || '0' <= c <= '9' || c == '-' || c == '.'
      || c == '\U{017F}' || c == '\U{212A}'
    ensures a != "" && b != "" ==> (IsName(a + b) <==> IsName(a) && IsName(b))
  {
    assert forall x :: x in a + b <==> x in a || x in b;
    if a != "" { assert (a + b)[0] == a[0]; }
    var one := [c];
    assert one[0] == c && c in one && forall x | x in one :: x == c;
  }
}
