/**
  The style attribute parser and printer of the email builder, and the quoting of raw markup inside
  a template expression.  A style map lists its keys in the order of a script object.
*/
module OutlookStyles {
  import opened Strings
  import opened Wrappers

  type StyleMap = seq<(string, string)>

  // ---------------------------------------------------------------- strings

  predicate IsSpace(c: char) {
    var n := c as int;
    9 <= n <= 13 || n == 32 || 0x2000 <= n <= 0x200A
    || n in {0xA0, 0x1680, 0x2028, 0x2029, 0x202F, 0x205F, 0x3000, 0xFEFF}
  }

  function TrimLeft(s: string): string { if s != "" && IsSpace(s[0]) then TrimLeft(s[1..]) else s }

  function TrimRight(s: string): string {
    if s != "" && IsSpace(s[|s| - 1]) then TrimRight(s[..|s| - 1]) else s
  }

  function Trim(s: string): string { TrimLeft(TrimRight(s)) }

  predicate Trimmed(s: string) { s != "" ==> !IsSpace(s[0]) && !IsSpace(s[|s| - 1]) }

  /** Case mapping of strings is a parameter. */
  type Case = string -> string

  /** What is used of it: it is idempotent, and brings in neither outer white space nor separators. */
  ghost predicate LowersCase(lower: Case) {
    forall s: string ::
      && lower(lower(s)) == lower(s)
      && (Trimmed(s) ==> Trimmed(lower(s)))
      && (forall c | c in lower(s) && c in ":;" :: c in s)
  }

  function AsciiLower(s: string): string {
    seq(|s|, i requires 0 <= i < |s| => if 'A' <= s[i] <= 'Z' then s[i] - 'A' + 'a' else s[i])
  }

  lemma AsciiLowersCase()
    ensures LowersCase(AsciiLower)
  {
    forall s: string ensures AsciiLower(AsciiLower(s)) == AsciiLower(s)
      && (Trimmed(s) ==> Trimmed(AsciiLower(s)))
      && (forall c | c in AsciiLower(s) && c in ":;" :: c in s) {
      AsciiIsCase(s);
    }
  }

  lemma AsciiIsCase(s: string)
    ensures AsciiLower(AsciiLower(s)) == AsciiLower(s) && (Trimmed(s) ==> Trimmed(AsciiLower(s)))
    ensures forall c | c in AsciiLower(s) && c in ":;" :: c in s
  {}

  function IndexOf(s: string, c: char): (k: Option<nat>)
    ensures k.Some? ==> k.value < |s| && s[k.value] == c && c !in s[..k.value]
    ensures k.None? ==> c !in s
  {
    if s == "" then None
    else if s[0] == c then Some(0)
    else match IndexOf(s[1..], c) case None => None case Some(k) => Some(k + 1)
  }

  // ---------------------------------------------------------------- ordered maps

  function Lookup(m: StyleMap, k: string): Option<string> {
    if m == [] then None else if m[0].0 == k then Some(m[0].1) else Lookup(m[1..], k)
  }

  predicate Digits(k: string) { forall i | 0 <= i < |k| :: '0' <= k[i] <= '9' }

  function Decimal(k: string): nat
    requires Digits(k)
  {
    if k == "" then 0 else 10 * Decimal(k[..|k| - 1]) + (k[|k| - 1] - '0') as nat
  }

  /** The value of a key that a script object treats as an array index. */
  function ArrayIndex(k: string): Option<nat> {
    if k != "" && Digits(k) && (k[0] == '0' ==> k == "0") && Decimal(k) < 0xFFFF_FFFF then Some(Decimal(k)) else None
  }

  /** Script objects list array indices first, in ascending order, and other keys in the order of their insertion. */
  predicate Precedes(a: string, b: string) {
    ArrayIndex(a).Some? && (ArrayIndex(b).None? || ArrayIndex(a).value < ArrayIndex(b).value)
  }

  const PROTO := "__proto__"

  /** Assigning keeps the place of a key that is already there; a string assigned to the prototype is ignored. */
  function Put(m: StyleMap, k: string, v: string): StyleMap { if k == PROTO then m else Insert(m, k, v) }

  function Insert(m: StyleMap, k: string, v: string): StyleMap {
    if m == [] then [(k, v)]
    else if m[0].0 == k then [(k, v)] + m[1..]
    else if Precedes(k, m[0].0) then [(k, v)] + m
    else [m[0]] + Insert(m[1..], k, v)
  }

  function Remove(m: StyleMap, k: string): StyleMap {
    if m == [] then [] else if m[0].0 == k then m[1..] else [m[0]] + Remove(m[1..], k)
  }

  // ---------------------------------------------------------------- parser and printer

  /** One entry between semicolons: nothing when it is blank, has no colon, or has no name. */
  function ParseEntry(lower: Case, entry: string): Option<(string, string)> {
    var e := Trim(entry);
    match IndexOf(e, ':')
    case None => None
    case Some(k) =>
      var property := lower(Trim(e[..k]));
      if property == "" then None else Some((property, Trim(e[k + 1..])))
  }

  function AddEntry(lower: Case, m: StyleMap, entry: string): StyleMap {
    match ParseEntry(lower, entry)
    case None => m
    case Some(kv) => Put(m, kv.0, kv.1)
  }

  function AddEntries(lower: Case, m: StyleMap, es: seq<string>): StyleMap
    decreases |es|
  {
    if es == [] then m else AddEntries(lower, AddEntry(lower, m, es[0]), es[1..])
  }

  function Parse(lower: Case, style: string): StyleMap { AddEntries(lower, [], Split(style, ';')) }

  function Entries(m: StyleMap): seq<string> {
    if m == [] then [] else [m[0].0 + ":" + m[0].1] + Entries(m[1..])
  }

  function Print(m: StyleMap): string { Join(Entries(m), ';') }

  type Declaration = (string, Option<string>)

  /** A null or empty value deletes the property. */
  function Declare(lower: Case, m: StyleMap, d: Declaration): StyleMap {
    if d.1.None? || d.1.value == "" then Remove(m, lower(d.0)) else Put(m, lower(d.0), d.1.value)
  }

  function DeclareAll(lower: Case, m: StyleMap, ds: seq<Declaration>): StyleMap
    decreases |ds|
  {
    if ds == [] then m else DeclareAll(lower, Declare(lower, m, ds[0]), ds[1..])
  }

  /** The entries from `i` on lead from `m` to `goal`. */
  predicate Leads(lower: Case, m: StyleMap, es: seq<string>, i: nat, goal: StyleMap)
    requires i <= |es|
  {
    AddEntries(lower, m, es[i..]) == goal
  }

  lemma LeadsOn(lower: Case, m: StyleMap, es: seq<string>, i: nat, goal: StyleMap)
    requires i < |es| && Leads(lower, m, es, i, goal)
    ensures Leads(lower, AddEntry(lower, m, es[i]), es, i + 1, goal)
  {
    assert es[i..][1..] == es[i + 1..];
  }

  lemma LeadsThere(lower: Case, m: StyleMap, es: seq<string>, goal: StyleMap)
    ensures Leads(lower, m, es, |es|, goal) ==> m == goal
    ensures Leads(lower, m, es, 0, AddEntries(lower, m, es))
  {
    assert es[|es|..] == [] && es[0..] == es;
  }

  method ReadEntry(lower: Case, piece: string) returns (declared: Option<(string, string)>)
    ensures declared == ParseEntry(lower, piece)
  {
    declared := None;
    var entry := Trim(piece);
    if entry != "" {
      var separator := IndexOf(entry, ':');
      if separator.Some? {
        var property := lower(Trim(entry[..separator.value]));
        if property != "" {
          declared := Some((property, Trim(entry[separator.value + 1..])));
        }
      }
    }
  }

  method ParseStyleMap(lower: Case, style: Option<string>) returns (acc: StyleMap)
    ensures acc == Parse(lower, if style.Some? then style.value else "")
  {
    var pieces := Split(if style.Some? then style.value else "", ';');
    ghost var parsed := AddEntries(lower, [], pieces);
    acc := [];
    var i := 0;
    LeadsThere(lower, acc, pieces, parsed);
    while i < |pieces|
      invariant 0 <= i <= |pieces|
      invariant Leads(lower, acc, pieces, i, parsed)
    {
      var declared := ReadEntry(lower, pieces[i]);
      LeadsOn(lower, acc, pieces, i, parsed);
      if declared.Some? {
        acc := Put(acc, declared.value.0, declared.value.1);
      }
      i := i + 1;
    }
    LeadsThere(lower, acc, pieces, parsed);
  }

  method SetStyleValues(lower: Case, style: Option<string>, declarations: seq<Declaration>) returns (r: string)
    ensures r == Print(DeclareAll(lower, Parse(lower, if style.Some? then style.value else ""), declarations))
  {
    var styleMap := ParseStyleMap(lower, style);
    ghost var parsed := styleMap;
    var i := 0;
    while i < |declarations|
      invariant 0 <= i <= |declarations|
      invariant DeclareAll(lower, styleMap, declarations[i..]) == DeclareAll(lower, parsed, declarations)
    {
      var (property, value) := declarations[i];
      var key := lower(property);
      assert declarations[i..][1..] == declarations[i + 1..];
      if value.None? || value.value == "" {
        styleMap := Remove(styleMap, key);
      } else {
        styleMap := Put(styleMap, key, value.value);
      }
      i := i + 1;
    }
    assert declarations[|declarations|..] == [];
    r := Print(styleMap);
  }

  // ---------------------------------------------------------------- what a parsed map looks like

  predicate CleanKey(lower: Case, k: string) {
    k != "" && k != PROTO && Trimmed(k) && lower(k) == k && ':' !in k && ';' !in k
  }

  predicate CleanValue(v: string) { Trimmed(v) && ';' !in v }

  /** Distinct keys in the order of a script object. */
  predicate InPlace(m: StyleMap) {
    forall i, j | 0 <= i < j < |m| :: m[i].0 != m[j].0 && !Precedes(m[j].0, m[i].0)
  }

  predicate CleanEntries(lower: Case, m: StyleMap) {
    forall i | 0 <= i < |m| :: CleanKey(lower, m[i].0) && CleanValue(m[i].1)
  }

  predicate CleanMap(lower: Case, m: StyleMap) { CleanEntries(lower, m) && InPlace(m) }

  lemma {:induction false} TrimLeftIs(s: string)
    ensures TrimLeft(s) != "" ==> !IsSpace(TrimLeft(s)[0])
    ensures |TrimLeft(s)| <= |s| && TrimLeft(s) == s[|s| - |TrimLeft(s)|..]
  {
    if s != "" && IsSpace(s[0]) {
      TrimLeftIs(s[1..]);
    }
  }

  lemma {:induction false} TrimRightIs(s: string)
    ensures TrimRight(s) != "" ==> !IsSpace(TrimRight(s)[|TrimRight(s)| - 1])
    ensures |TrimRight(s)| <= |s| && TrimRight(s) == s[..|TrimRight(s)|]
  {
    if s != "" && IsSpace(s[|s| - 1]) {
      TrimRightIs(s[..|s| - 1]);
    }
  }

  lemma TrimIs(s: string)
    ensures Trimmed(Trim(s)) && forall c | c in Trim(s) :: c in s
  {
    TrimRightIs(s);
    TrimLeftIs(TrimRight(s));
  }

  /** Trimming takes white space off both ends and nothing else. */
  lemma {:induction false} TrimLeftTakes(s: string)
    ensures |TrimLeft(s)| <= |s| && TrimLeft(s) == s[|s| - |TrimLeft(s)|..]
    ensures forall k | 0 <= k < |s| - |TrimLeft(s)| :: IsSpace(s[k])
  {
    if s != "" && IsSpace(s[0]) {
      TrimLeftTakes(s[1..]);
      assert forall k | 0 < k < |s| - |TrimLeft(s)| :: s[k] == s[1..][k - 1];
    }
  }

  lemma {:induction false} TrimRightTakes(s: string)
    ensures |TrimRight(s)| <= |s| && TrimRight(s) == s[..|TrimRight(s)|]
    ensures forall k | |TrimRight(s)| <= k < |s| :: IsSpace(s[k])
  {
    if s != "" && IsSpace(s[|s| - 1]) {
      TrimRightTakes(s[..|s| - 1]);
    }
  }

  lemma TrimTakes(s: string) returns (i: nat, j: nat)
    ensures i <= j <= |s| && Trim(s) == s[i..j] && Trimmed(Trim(s))
    ensures forall k | 0 <= k < i || j <= k < |s| :: IsSpace(s[k])
  {
    TrimIs(s);
    TrimRightTakes(s);
    j := |TrimRight(s)|;
    TrimLeftTakes(s[..j]);
    i := j - |Trim(s)|;
    assert s[..j][i..] == s[i..j];
    assert forall k | 0 <= k < i :: s[..j][k] == s[k];
  }

  lemma {:induction false} InsertIs(m: StyleMap, k: string, v: string)
    ensures Lookup(Insert(m, k, v), k) == Some(v)
    ensures forall j | j != k :: Lookup(Insert(m, k, v), j) == Lookup(m, j)
  {
    if m != [] {
      InsertIs(m[1..], k, v);
    }
  }

  /** Replacing or inserting behind the head. */
  lemma BehindHead<T>(m: seq<T>, q: nat, x: T)
    requires m != [] && q < |m|
    ensures [m[0]] + (m[1..][..q] + [x] + m[1..][q..]) == m[..q + 1] + [x] + m[q + 1..]
    ensures q < |m| - 1 ==> [m[0]] + m[1..][q := x] == m[q + 1 := x]
  {}

  /** An assignment overwrites the one place of its key, or inserts it where the order wants it. */
  lemma {:induction false} InsertShape(m: StyleMap, k: string, v: string) returns (p: nat)
    ensures p <= |m| && forall i | 0 <= i < p :: m[i].0 != k && !Precedes(k, m[i].0)
    ensures p < |m| ==> m[p].0 == k || Precedes(k, m[p].0)
    ensures Insert(m, k, v) == if p < |m| && m[p].0 == k then m[p := (k, v)] else m[..p] + [(k, v)] + m[p..]
  {
    p := 0;
    if m != [] && m[0].0 != k && !Precedes(k, m[0].0) {
      var q := InsertShape(m[1..], k, v);
      p := q + 1;
      BehindHead(m, q, (k, v));
    } else if m != [] && m[0].0 == k {
      assert [(k, v)] + m[1..] == m[0 := (k, v)];
    }
  }

  lemma PrecedesIsOrder(a: string, b: string, c: string)
    ensures !Precedes(a, a) && (Precedes(a, b) && Precedes(b, c) ==> Precedes(a, c))
  {}

  lemma InsertInPlace(m: StyleMap, k: string, v: string, p: nat)
    requires InPlace(m) && p <= |m| && forall i | 0 <= i < p :: m[i].0 != k && !Precedes(k, m[i].0)
    requires p < |m| ==> m[p].0 != k && Precedes(k, m[p].0)
    ensures InPlace(m[..p] + [(k, v)] + m[p..])
  {
    var n := m[..p] + [(k, v)] + m[p..];
    forall i | p <= i < |m| ensures m[i].0 != k && !Precedes(m[i].0, k) {
      PrecedesIsOrder(m[i].0, k, m[p].0);
      PrecedesIsOrder(k, k, k);
    }
    forall i, j | 0 <= i < j < |n| ensures n[i].0 != n[j].0 && !Precedes(n[j].0, n[i].0) {
      var (x, y) := (if i <= p then i else i - 1, if j <= p then j else j - 1);
      assert n[i] == (if i == p then (k, v) else m[x]) && n[j] == (if j == p then (k, v) else m[y]);
    }
  }

  lemma InsertKeepsPlace(m: StyleMap, k: string, v: string)
    requires InPlace(m)
    ensures InPlace(Insert(m, k, v))
  {
    var p := InsertShape(m, k, v);
    if !(p < |m| && m[p].0 == k) {
      InsertInPlace(m, k, v, p);
    }
  }

  /** The next key of a map in order goes to the end. */
  lemma InsertLast(acc: StyleMap, m: StyleMap)
    requires m != [] && InPlace(acc + m)
    ensures Insert(acc, m[0].0, m[0].1) == acc + [m[0]]
  {
    var p := InsertShape(acc, m[0].0, m[0].1);
    forall i | 0 <= i < |acc| ensures acc[i].0 != m[0].0 && !Precedes(m[0].0, acc[i].0) {
      assert (acc + m)[i] == acc[i] && (acc + m)[|acc|] == m[0];
    }
    assert p == |acc|;
  }

  lemma InsertedOrOld<T>(m: seq<T>, p: nat, x: T, y: T)
    requires p <= |m| && (y in m[..p] + [x] + m[p..] || (p < |m| && y in m[p := x]))
    ensures y == x || y in m
  {}

  lemma InsertKeepsEntries(lower: Case, m: StyleMap, k: string, v: string)
    requires CleanEntries(lower, m) && CleanKey(lower, k) && CleanValue(v)
    ensures CleanEntries(lower, Insert(m, k, v))
  {
    var p := InsertShape(m, k, v);
    var n := Insert(m, k, v);
    forall i | 0 <= i < |n| ensures CleanKey(lower, n[i].0) && CleanValue(n[i].1) {
      InsertedOrOld(m, p, (k, v), n[i]);
    }
  }

  lemma PutIsClean(lower: Case, m: StyleMap, k: string, v: string)
    requires CleanMap(lower, m) && CleanKey(lower, k) && CleanValue(v)
    ensures CleanMap(lower, Put(m, k, v))
  {
    InsertKeepsPlace(m, k, v);
    InsertKeepsEntries(lower, m, k, v);
  }

  lemma {:induction false} RemoveShape(m: StyleMap, k: string) returns (p: nat)
    ensures p <= |m| && forall i | 0 <= i < p :: m[i].0 != k
    ensures if p < |m| then m[p].0 == k && Remove(m, k) == m[..p] + m[p + 1..] else Remove(m, k) == m
  {
    p := 0;
    if m != [] && m[0].0 != k {
      var q := RemoveShape(m[1..], k);
      p := q + 1;
    }
  }

  lemma RemoveKeepsPlace(m: StyleMap, k: string)
    requires InPlace(m)
    ensures InPlace(Remove(m, k))
  {
    var p := RemoveShape(m, k);
    var n := Remove(m, k);
    forall i, j | 0 <= i < j < |n| ensures n[i].0 != n[j].0 && !Precedes(n[j].0, n[i].0) {
      var (x, y) := (if i < p then i else i + 1, if j < p then j else j + 1);
      assert n[i] == m[x] && n[j] == m[y];
    }
  }

  lemma RemoveIsClean(lower: Case, m: StyleMap, k: string)
    requires CleanMap(lower, m)
    ensures CleanMap(lower, Remove(m, k))
  {
    RemoveKeepsPlace(m, k);
    var p := RemoveShape(m, k);
  }

  lemma {:induction false} RemoveIs(m: StyleMap, k: string)
    requires forall i, j | 0 <= i < j < |m| :: m[i].0 != m[j].0
    ensures Lookup(Remove(m, k), k) == None
    ensures forall j | j != k :: Lookup(Remove(m, k), j) == Lookup(m, j)
  {
    if m != [] {
      if m[0].0 == k {
        LookupNone(m[1..], k);
      }
      RemoveIs(m[1..], k);
    }
  }

  lemma {:induction false} LookupNone(m: StyleMap, k: string)
    requires forall i | 0 <= i < |m| :: m[i].0 != k
    ensures Lookup(m, k) == None
  {
    if m != [] {
      LookupNone(m[1..], k);
    }
  }

  lemma {:induction false} LookupClean(lower: Case, m: StyleMap, k: string)
    requires CleanMap(lower, m) && Lookup(m, k).Some?
    ensures CleanKey(lower, k) && CleanValue(Lookup(m, k).value)
  {
    if m[0].0 != k {
      LookupClean(lower, m[1..], k);
    }
  }

  lemma EntryIsClean(lower: Case, entry: string)
    requires LowersCase(lower)
    requires ';' !in entry && ParseEntry(lower, entry).Some?
    ensures var (k, v) := ParseEntry(lower, entry).value; (k == PROTO || CleanKey(lower, k)) && CleanValue(v)
  {
    var e := Trim(entry);
    TrimIs(entry);
    var k := IndexOf(e, ':').value;
    TrimIs(e[..k]);
    TrimIs(e[k + 1..]);
  }

  lemma AddedIsClean(lower: Case, m: StyleMap, entry: string)
    requires LowersCase(lower)
    requires CleanMap(lower, m) && ';' !in entry
    ensures CleanMap(lower, AddEntry(lower, m, entry))
  {
    if ParseEntry(lower, entry).Some? {
      EntryIsClean(lower, entry);
      var (k, v) := ParseEntry(lower, entry).value;
      if k != PROTO {
        PutIsClean(lower, m, k, v);
      }
    }
  }

  lemma {:induction false} AddedAreClean(lower: Case, m: StyleMap, es: seq<string>)
    requires LowersCase(lower)
    requires CleanMap(lower, m) && Unbroken(es, ';')
    ensures CleanMap(lower, AddEntries(lower, m, es))
    decreases |es|
  {
    if es != [] {
      AddedIsClean(lower, m, es[0]);
      AddedAreClean(lower, AddEntry(lower, m, es[0]), es[1..]);
    }
  }

  /** Names come out lower-case, trimmed, distinct and without separators, values trimmed. */
  lemma ParseIsClean(lower: Case, style: string)
    requires LowersCase(lower)
    ensures CleanMap(lower, Parse(lower, style))
  {
    SplitUnbroken(style, ';');
    AddedAreClean(lower, [], Split(style, ';'));
  }

  // ---------------------------------------------------------------- round trips

  lemma {:induction false} IndexOfJoint(k: string, v: string)
    requires ':' !in k
    ensures IndexOf(k + ":" + v, ':') == Some(|k|)
  {
    if k != "" {
      assert (k + ":" + v)[1..] == k[1..] + ":" + v;
      IndexOfJoint(k[1..], v);
    }
  }

  lemma ParsesBack(lower: Case, k: string, v: string)
    requires CleanKey(lower, k) && CleanValue(v)
    ensures ParseEntry(lower, k + ":" + v) == Some((k, v)) && ';' !in k + ":" + v
  {
    var e := k + ":" + v;
    IndexOfJoint(k, v);
    assert e[|e| - 1] == if v == "" then ':' else v[|v| - 1];
    assert e[..|k|] == k && e[|k| + 1..] == v;
  }

  lemma {:induction false} EntriesParseBack(lower: Case, acc: StyleMap, m: StyleMap)
    requires CleanMap(lower, acc + m)
    ensures AddEntries(lower, acc, Entries(m)) == acc + m
    ensures Unbroken(Entries(m), ';')
    decreases |m|
  {
    if m != [] {
      var (k, v) := m[0];
      assert (acc + m)[|acc|] == m[0];
      ParsesBack(lower, k, v);
      InsertLast(acc, m);
      assert acc + [(k, v)] + m[1..] == acc + m;
      EntriesParseBack(lower, acc + [(k, v)], m[1..]);
    }
  }

  /** Printing then parsing is the identity on the maps that parsing makes, order included. */
  lemma PrintParses(lower: Case, m: StyleMap)
    requires CleanMap(lower, m)
    ensures Parse(lower, Print(m)) == m
  {
    assert [] + m == m;
    EntriesParseBack(lower, [], m);
    if m != [] {
      SplitJoin(Entries(m), ';');
    } else {
      assert Split("", ';') == [""];
    }
  }

  lemma NormalForm(lower: Case, style: string)
    requires LowersCase(lower)
    ensures Parse(lower, Print(Parse(lower, style))) == Parse(lower, style)
  {
    ParseIsClean(lower, style);
    PrintParses(lower, Parse(lower, style));
  }

  /** The last declaration of a name decides; a name that is not declared keeps what it had. */
  function Decided(lower: Case, before: Option<string>, ds: seq<Declaration>, k: string): Option<string> {
    if ds == [] then before
    else
      var d := ds[|ds| - 1];
      if lower(d.0) != k then Decided(lower, before, ds[..|ds| - 1], k)
      else if d.1 == Some("") then None
      else d.1
  }

  /** A deletion may name anything; a declaration with a value is one the format can carry. */
  predicate WellFormed(lower: Case, d: Declaration) {
    d.1.None? || d.1.value == "" || (CleanKey(lower, lower(d.0)) && CleanValue(d.1.value))
  }

  lemma {:induction false} DeclareLast(lower: Case, m: StyleMap, ds: seq<Declaration>, d: Declaration)
    ensures DeclareAll(lower, m, ds + [d]) == Declare(lower, DeclareAll(lower, m, ds), d)
    decreases |ds|
  {
    if ds == [] {
      assert DeclareAll(lower, Declare(lower, m, d), []) == Declare(lower, m, d);
      assert ([d])[1..] == [] && [] + [d] == [d];
    } else {
      assert (ds + [d])[1..] == ds[1..] + [d];
      DeclareLast(lower, Declare(lower, m, ds[0]), ds[1..], d);
    }
  }

  lemma {:induction false} DeclaredAll(lower: Case, m: StyleMap, ds: seq<Declaration>)
    requires CleanMap(lower, m) && forall i | 0 <= i < |ds| :: WellFormed(lower, ds[i])
    ensures CleanMap(lower, DeclareAll(lower, m, ds))
    ensures forall k :: Lookup(DeclareAll(lower, m, ds), k) == Decided(lower, Lookup(m, k), ds, k)
    decreases |ds|
  {
    if ds != [] {
      var front, d := ds[..|ds| - 1], ds[|ds| - 1];
      DeclaredAll(lower, m, front);
      assert front + [d] == ds;
      DeclareLast(lower, m, front, d);
      var before := DeclareAll(lower, m, front);
      if d.1.None? || d.1.value == "" {
        RemoveIs(before, lower(d.0));
        RemoveIsClean(lower, before, lower(d.0));
      } else {
        InsertIs(before, lower(d.0), d.1.value);
        PutIsClean(lower, before, lower(d.0), d.1.value);
      }
    }
  }

  /** Setting values and parsing again gives the old style updated by the declarations in order. */
  lemma SetThenParse(lower: Case, style: string, ds: seq<Declaration>, k: string)
    requires LowersCase(lower)
    requires forall i | 0 <= i < |ds| :: WellFormed(lower, ds[i])
    ensures Lookup(Parse(lower, Print(DeclareAll(lower, Parse(lower, style), ds))), k)
      == Decided(lower, Lookup(Parse(lower, style), k), ds, k)
  {
    ParseIsClean(lower, style);
    DeclaredAll(lower, Parse(lower, style), ds);
    PrintParses(lower, DeclareAll(lower, Parse(lower, style), ds));
  }

  /** A single value survives exactly when its name and value are ones the format can carry. */
  lemma SurvivesIffWellFormed(lower: Case, style: string, d: Declaration)
    requires LowersCase(lower)
    requires d.1.Some? && d.1.value != ""
    ensures Lookup(Parse(lower, Print(Declare(lower, Parse(lower, style), d))), lower(d.0)) == d.1
      <==> WellFormed(lower, d)
  {
    if WellFormed(lower, d) {
      ParseIsClean(lower, style);
      InsertIs(Parse(lower, style), lower(d.0), d.1.value);
      PutIsClean(lower, Parse(lower, style), lower(d.0), d.1.value);
      PrintParses(lower, Declare(lower, Parse(lower, style), d));
    } else {
      var again := Parse(lower, Print(Declare(lower, Parse(lower, style), d)));
      ParseIsClean(lower, Print(Declare(lower, Parse(lower, style), d)));
      if Lookup(again, lower(d.0)).Some? {
        LookupClean(lower, again, lower(d.0));
      }
    }
  }

  // ---------------------------------------------------------------- repeated names

  /** The entry gives a value to that name. */
  predicate Gives(lower: Case, entry: string, k: string) {
    ParseEntry(lower, entry).Some? && ParseEntry(lower, entry).value.0 == k
  }

  lemma AddedGives(lower: Case, m: StyleMap, e: string, k: string)
    ensures Lookup(AddEntry(lower, m, e), k)
      == if k != PROTO && Gives(lower, e, k) then Some(ParseEntry(lower, e).value.1) else Lookup(m, k)
  {
    if ParseEntry(lower, e).Some? {
      var (name, v) := ParseEntry(lower, e).value;
      InsertIs(m, name, v);
    }
  }

  /** A name that no entry gives has no value, and the name of the prototype never has. */
  lemma {:induction false} NoEntryGives(lower: Case, m: StyleMap, es: seq<string>, k: string)
    requires k == PROTO || forall i | 0 <= i < |es| :: !Gives(lower, es[i], k)
    ensures Lookup(AddEntries(lower, m, es), k) == Lookup(m, k)
    decreases |es|
  {
    if es != [] {
      AddedGives(lower, m, es[0], k);
      NoEntryGives(lower, AddEntry(lower, m, es[0]), es[1..], k);
    }
  }

  /** A style that repeats a name keeps the value of the last entry that gives it, whatever stands before, between and
      after. */
  lemma {:induction false} LastEntryDecides(lower: Case, m: StyleMap, es: seq<string>, i: nat, k: string)
    requires i < |es| && k != PROTO && Gives(lower, es[i], k) && forall j | i < j < |es| :: !Gives(lower, es[j], k)
    ensures Lookup(AddEntries(lower, m, es), k) == Some(ParseEntry(lower, es[i]).value.1)
    decreases |es|
  {
    if i > 0 {
      LastEntryDecides(lower, AddEntry(lower, m, es[0]), es[1..], i - 1, k);
    } else {
      AddedGives(lower, m, es[0], k);
      NoEntryGives(lower, AddEntry(lower, m, es[0]), es[1..], k);
    }
  }

  /** An entry is a name, a colon and a value; the value may hold further colons. */
  lemma EntryReads(lower: Case, k: string, v: string)
    requires ':' !in k && Trimmed(k) && k != "" && Trimmed(v) && lower(k) != ""
    ensures ParseEntry(lower, k + ":" + v) == Some((lower(k), v))
  {
    var e := k + ":" + v;
    IndexOfJoint(k, v);
    assert e[|e| - 1] == if v == "" then ':' else v[|v| - 1];
    assert e[..|k|] == k && e[|k| + 1..] == v;
  }

  // ---------------------------------------------------------------- array indices

  function Shown(n: nat): string {
    (if n < 10 then "" else Shown(n / 10)) + [(n % 10) as char + '0']
  }

  lemma {:induction false} ShownIsDecimal(n: nat)
    ensures Shown(n) != "" && Digits(Shown(n)) && Decimal(Shown(n)) == n && (Shown(n)[0] == '0' ==> n == 0)
  {
    var s := Shown(n);
    if n >= 10 {
      ShownIsDecimal(n / 10);
      assert s[..|s| - 1] == Shown(n / 10) && s[0] == Shown(n / 10)[0];
    } else {
      assert s[..|s| - 1] == "";
    }
  }

  /** A number below 2^32 - 1 as a script prints it is an array index, and larger numbers are not. */
  lemma ShownIsIndex(n: nat)
    ensures ArrayIndex(Shown(n)) == if n < 4_294_967_295 then Some(n) else None
  {
    ShownIsDecimal(n);
  }

  /** So numbers come first, in their own order, before all other names. */
  lemma NumbersComeFirst(a: nat, b: nat, k: string)
    requires a < b < 4_294_967_295 && k != "" && !('0' <= k[0] <= '9')
    ensures Precedes(Shown(a), Shown(b)) && !Precedes(Shown(b), Shown(a))
    ensures Precedes(Shown(a), k) && !Precedes(k, Shown(a))
  {
    ShownIsIndex(a);
    ShownIsIndex(b);
  }

  /** What is printed: a name, a colon and a value for each entry, with semicolons between the entries and nothing
      else. */
  lemma {:induction false} PrintIs(a: StyleMap, b: StyleMap, k: string, v: string)
    ensures Print([]) == "" && Print([(k, v)]) == k + ":" + v
    ensures a != [] && b != [] ==> Print(a + b) == Print(a) + ";" + Print(b)
    decreases |a|
  {
    assert [(k, v)][1..] == [] && Entries([(k, v)]) == [k + ":" + v];
    if a != [] && b != [] {
      assert (a + b)[1..] == a[1..] + b && (a + b)[0] == a[0];
      if |a| > 1 {
        PrintIs(a[1..], b, k, v);
        EntriesAsMany(a[1..] + b);
        EntriesAsMany(a[1..]);
        var head := a[0].0 + ":" + a[0].1;
        assert Print(a + b) == head + [';'] + Print(a[1..] + b);
        assert Print(a) == head + [';'] + Print(a[1..]);
      } else {
        assert a == [a[0]] && a[1..] == [] && [] + b == b;
        EntriesAsMany(b);
      }
    }
  }

  lemma {:induction false} EntriesAsMany(m: StyleMap)
    ensures |Entries(m)| == |m|
  {
    if m != [] {
      EntriesAsMany(m[1..]);
    }
  }
}
