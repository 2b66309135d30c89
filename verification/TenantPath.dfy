/**
  Media keys: rooted path cleaning and the ownership check on the first UUID-shaped component.
  The UUID test is a parameter.
*/
module TenantPath {
  import opened Strings

  datatype Result = Ok(key: string) | InvalidKey | OtherTenant | NoTenant

  /** One component of a rooted path, read from the left: `..` at the root stays at the root. */
  function Visit(stack: seq<string>, c: string): seq<string> {
    if c == "" || c == "." then stack
    else if c == ".." then if stack == [] then [] else stack[..|stack| - 1]
    else stack + [c]
  }

  function VisitAll(stack: seq<string>, cs: seq<string>): seq<string>
    decreases |cs|
  {
    if cs == [] then stack else VisitAll(Visit(stack, cs[0]), cs[1..])
  }

  function Components(raw: string): seq<string> { VisitAll([], Split(raw, '/')) }

  /** `path.Clean` of a rooted path. */
  function CleanRooted(raw: string): string { "/" + Join(Components(raw), '/') }

  function TrimSlash(s: string): string { if s != "" && s[0] == '/' then s[1..] else s }

  function FirstUuid(cs: seq<string>, tenantID: string, clean: string, isUuid: string -> bool): Result {
    if cs == [] then NoTenant
    else if isUuid(cs[0]) then if cs[0] == tenantID then Ok(clean) else OtherTenant
    else FirstUuid(cs[1..], tenantID, clean, isUuid)
  }

  function ValidateTenantPath(raw: string, tenantID: string, isUuid: string -> bool): Result {
    if '\\' in raw then InvalidKey
    else
      var clean := TrimSlash(CleanRooted(raw));
      if clean == "." || clean == "" || clean == ".." || "../" <= clean then InvalidKey
      else if tenantID == "" then Ok(clean)
      else FirstUuid(Split(clean, '/'), tenantID, clean, isUuid)
  }

  // ---------------------------------------------------------------- the rules that cleaning applies

  predicate Proper(c: string) { c != "" && c != "." && c != ".." }

  predicate AllProper(cs: seq<string>) { forall i | 0 <= i < |cs| :: Proper(cs[i]) }

  function Without(cs: seq<string>, i: nat, n: nat): seq<string>
    requires i + n <= |cs|
  {
    cs[..i] + cs[i + n..]
  }

  /** One rule at place `i`: drop an empty or `.` component, a component with the `..` after it, or a leading `..`. */
  ghost predicate Reduces(cs: seq<string>, i: nat, ds: seq<string>) {
    || (i < |cs| && (cs[i] == "" || cs[i] == ".") && ds == Without(cs, i, 1))
    || (i + 1 < |cs| && Proper(cs[i]) && cs[i + 1] == ".." && ds == Without(cs, i, 2))
    || (i == 0 < |cs| && cs[0] == ".." && ds == Without(cs, 0, 1))
  }

  ghost predicate Derives(cs: seq<string>, ds: seq<string>, n: nat) {
    if n == 0 then cs == ds
    else exists i: nat, mid :: Reduces(cs, i, mid) && Derives(mid, ds, n - 1)
  }

  ghost predicate Irreducible(cs: seq<string>) {
    forall i: nat, ds :: !Reduces(cs, i, ds)
  }

  lemma {:induction false} VisitConcat(stack: seq<string>, a: seq<string>, b: seq<string>)
    ensures VisitAll(stack, a + b) == VisitAll(VisitAll(stack, a), b)
    decreases |a|
  {
    if a == [] {
      assert a + b == b;
    } else {
      assert (a + b)[1..] == a[1..] + b;
      VisitConcat(Visit(stack, a[0]), a[1..], b);
    }
  }

  lemma VisitDropped(stack: seq<string>, dropped: seq<string>)
    requires || (|dropped| == 1 && (dropped[0] == "" || dropped[0] == "." || (dropped[0] == ".." && stack == [])))
             || (|dropped| == 2 && Proper(dropped[0]) && dropped[1] == "..")
    ensures VisitAll(stack, dropped) == stack
  {
    if |dropped| == 1 {
      assert VisitAll(stack, dropped) == VisitAll(Visit(stack, dropped[0]), dropped[1..]);
    } else {
      var s := Visit(stack, dropped[0]);
      assert VisitAll(stack, dropped) == VisitAll(s, dropped[1..]);
      assert VisitAll(s, dropped[1..]) == VisitAll(Visit(s, ".."), dropped[1..][1..]);
      assert Visit(s, "..") == stack;
    }
  }

  lemma ReduceKeeps(cs: seq<string>, i: nat, ds: seq<string>)
    requires Reduces(cs, i, ds)
    ensures VisitAll([], ds) == VisitAll([], cs) && |ds| < |cs|
  {
    var n := if ds == Without(cs, i, 1) then 1 else 2;
    var stack := VisitAll([], cs[..i]);
    VisitDropped(stack, cs[i..i + n]);
    assert cs == cs[..i] + (cs[i..i + n] + cs[i + n..]);
    VisitConcat([], cs[..i], cs[i..i + n] + cs[i + n..]);
    VisitConcat(stack, cs[i..i + n], cs[i + n..]);
    VisitConcat([], cs[..i], cs[i + n..]);
  }

  lemma {:induction false} DeriveKeeps(cs: seq<string>, ds: seq<string>, n: nat)
    requires Derives(cs, ds, n)
    ensures VisitAll([], ds) == VisitAll([], cs)
    decreases n
  {
    if n > 0 {
      var i: nat, mid :| Reduces(cs, i, mid) && Derives(mid, ds, n - 1);
      ReduceKeeps(cs, i, mid);
      DeriveKeeps(mid, ds, n - 1);
    }
  }

  lemma {:induction false} VisitProper(stack: seq<string>, cs: seq<string>)
    requires AllProper(cs)
    ensures VisitAll(stack, cs) == stack + cs
    decreases |cs|
  {
    if cs != [] {
      VisitProper(stack + [cs[0]], cs[1..]);
      assert stack + [cs[0]] + cs[1..] == stack + cs;
    }
  }

  lemma IrreducibleIsProper(cs: seq<string>)
    requires Irreducible(cs)
    ensures AllProper(cs)
  {
    forall i: nat | i < |cs| ensures Proper(cs[i]) {
      ProperUpTo(cs, i);
    }
  }

  lemma {:induction false} ProperUpTo(cs: seq<string>, i: nat)
    requires Irreducible(cs) && i < |cs|
    ensures Proper(cs[i])
  {
    assert !Reduces(cs, i, Without(cs, i, 1));
    if i > 0 {
      ProperUpTo(cs, i - 1);
      assert !Reduces(cs, i - 1, Without(cs, i - 1, 2));
    }
  }

  /** In whatever order the rules are applied until none applies, the result is the left-to-right stack. */
  lemma CleaningIsConfluent(cs: seq<string>, ds: seq<string>, n: nat)
    requires Derives(cs, ds, n) && Irreducible(ds)
    ensures ds == VisitAll([], cs)
  {
    DeriveKeeps(cs, ds, n);
    IrreducibleIsProper(ds);
    VisitProper([], ds);
  }

  lemma {:induction false} CleaningEnds(cs: seq<string>) returns (n: nat)
    ensures Derives(cs, VisitAll([], cs), n) && n <= |cs|
    decreases |cs|
  {
    if Irreducible(cs) {
      IrreducibleIsProper(cs);
      VisitProper([], cs);
      n := 0;
    } else {
      var i: nat, ds :| Reduces(cs, i, ds);
      ReduceKeeps(cs, i, ds);
      n := CleaningEnds(ds);
      n := n + 1;
    }
  }

  // ---------------------------------------------------------------- accepted keys

  lemma {:induction false} VisitFrom(stack: seq<string>, cs: seq<string>)
    requires AllProper(stack)
    ensures AllProper(VisitAll(stack, cs))
    ensures forall x | x in VisitAll(stack, cs) :: x in stack || x in cs
    decreases |cs|
  {
    if cs != [] {
      VisitFrom(Visit(stack, cs[0]), cs[1..]);
    }
  }

  lemma ComponentsAre(raw: string)
    ensures AllProper(Components(raw)) && Unbroken(Components(raw), '/')
    ensures '\\' !in raw ==> Unbroken(Components(raw), '\\')
  {
    SplitUnbroken(raw, '/');
    VisitFrom([], Split(raw, '/'));
    var pieces, cs := Split(raw, '/'), Components(raw);
    forall i | 0 <= i < |cs| ensures '/' !in cs[i] && ('\\' !in raw ==> '\\' !in cs[i]) {
      assert cs[i] in cs && cs[i] in pieces;
    }
  }

  lemma StartsAbove(clean: string)
    requires "../" <= clean
    ensures Split(clean, '/')[0] == ".."
  {
    SplitPiece("..", clean[3..], '/');
    assert clean == ".." + ['/'] + clean[3..];
  }

  /** The joined components split into the same components again, and are none of the refused forms. */
  lemma CleanSplits(raw: string)
    requires Components(raw) != []
    ensures Split(TrimSlash(CleanRooted(raw)), '/') == Components(raw)
    ensures var clean := TrimSlash(CleanRooted(raw));
      !(clean == "." || clean == "" || clean == ".." || "../" <= clean)
  {
    ComponentsAre(raw);
    var clean := Join(Components(raw), '/');
    assert TrimSlash(CleanRooted(raw)) == clean;
    SplitJoin(Components(raw), '/');
    SplitPiece(".", "", '/');
    SplitPiece("..", "", '/');
    if "../" <= clean {
      StartsAbove(clean);
    }
  }

  ghost predicate OwnedBy(cs: seq<string>, tenantID: string, isUuid: string -> bool) {
    exists i :: 0 <= i < |cs| && isUuid(cs[i]) && cs[i] == tenantID && forall j | 0 <= j < i :: !isUuid(cs[j])
  }

  lemma {:induction false} FirstUuidDecides(cs: seq<string>, tenantID: string, clean: string, isUuid: string -> bool)
    ensures FirstUuid(cs, tenantID, clean, isUuid).Ok? <==> OwnedBy(cs, tenantID, isUuid)
    ensures FirstUuid(cs, tenantID, clean, isUuid).Ok? ==> FirstUuid(cs, tenantID, clean, isUuid) == Ok(clean)
    ensures FirstUuid(cs, tenantID, clean, isUuid).NoTenant? <==> forall i | 0 <= i < |cs| :: !isUuid(cs[i])
    ensures !FirstUuid(cs, tenantID, clean, isUuid).InvalidKey?
  {
    if cs != [] {
      FirstUuidDecides(cs[1..], tenantID, clean, isUuid);
      if !isUuid(cs[0]) {
        if OwnedBy(cs[1..], tenantID, isUuid) {
          var i :| 0 <= i < |cs[1..]| && isUuid(cs[1..][i]) && cs[1..][i] == tenantID
                   && forall j | 0 <= j < i :: !isUuid(cs[1..][j]);
          forall j | 0 <= j < i + 1 ensures !isUuid(cs[j]) {
            assert j == 0 || cs[j] == cs[1..][j - 1];
          }
          assert cs[i + 1] == tenantID;
        }
        if OwnedBy(cs, tenantID, isUuid) {
          var i :| 0 <= i < |cs| && isUuid(cs[i]) && cs[i] == tenantID && forall j | 0 <= j < i :: !isUuid(cs[j]);
          assert cs[1..][i - 1] == tenantID;
        }
        assert forall i | 0 < i < |cs| :: cs[i] == cs[1..][i - 1];
      }
    }
  }

  /** A key is accepted exactly when it stays below the root and the first UUID in it is the caller's tenant. */
  lemma AcceptsExactly(raw: string, tenantID: string, isUuid: string -> bool)
    ensures ValidateTenantPath(raw, tenantID, isUuid).Ok? <==>
      '\\' !in raw && Components(raw) != [] && (tenantID == "" || OwnedBy(Components(raw), tenantID, isUuid))
    ensures ValidateTenantPath(raw, tenantID, isUuid).Ok?
      ==> ValidateTenantPath(raw, tenantID, isUuid).key == Join(Components(raw), '/')
  {
    if Components(raw) != [] {
      CleanSplits(raw);
      FirstUuidDecides(Components(raw), tenantID, TrimSlash(CleanRooted(raw)), isUuid);
    }
  }

  lemma KeyIsFixed(raw: string)
    requires Components(raw) != []
    ensures Components(Join(Components(raw), '/')) == Components(raw)
    ensures Split(Join(Components(raw), '/'), '/') == Components(raw)
    ensures '\\' !in raw ==> '\\' !in Join(Components(raw), '/')
  {
    ComponentsAre(raw);
    SplitJoin(Components(raw), '/');
    VisitProper([], Components(raw));
    if '\\' in Join(Components(raw), '/') {
      JoinChars(Components(raw), '/', '\\');
    }
  }

  /** An accepted key is made of ordinary components and is returned unchanged when validated again. */
  lemma AcceptedIsStable(raw: string, tenantID: string, isUuid: string -> bool)
    requires ValidateTenantPath(raw, tenantID, isUuid).Ok?
    ensures var key := ValidateTenantPath(raw, tenantID, isUuid).key;
      && AllProper(Split(key, '/')) && Split(key, '/') == Components(raw)
      && ValidateTenantPath(key, tenantID, isUuid) == Ok(key)
  {
    AcceptsExactly(raw, tenantID, isUuid);
    ComponentsAre(raw);
    KeyIsFixed(raw);
    AcceptsExactly(Join(Components(raw), '/'), tenantID, isUuid);
  }

  /** What is wrong with a key that is refused: a backslash or nothing below the root; else no UUID in it; else a first
      UUID that is another tenant's. */
  lemma RefusesExactly(raw: string, tenantID: string, isUuid: string -> bool)
    ensures var r, cs := ValidateTenantPath(raw, tenantID, isUuid), Components(raw);
      && (r == InvalidKey <==> '\\' in raw || cs == [])
      && (r == NoTenant <==>
            '\\' !in raw && cs != [] && tenantID != "" && forall i | 0 <= i < |cs| :: !isUuid(cs[i]))
  {
    if Components(raw) != [] {
      CleanSplits(raw);
      FirstUuidDecides(Components(raw), tenantID, TrimSlash(CleanRooted(raw)), isUuid);
    }
  }
}
