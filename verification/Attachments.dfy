/**
  Attachments of a campaign: inline images, resolved once per source and rewritten to content ids
  (section 2 of RFC 2392), and media files.  A body is a sequence of text and of image tags that ask
  to be embedded; the media store is fixed.
*/
module Attachments {
  import opened Wrappers

  datatype Token = Text(s: string) | Img(src: string)

  type Body = seq<Token>

  datatype Attachment = Inline(cid: string) | Media(id: int)

  /** The file name in a source, the content id of a file that the store has, and the media it can fetch. */
  datatype Store = Store(filename: string -> string, cidOf: string -> Option<string>, has: int -> bool)

  datatype Content = Content(body: Body, template: Body, attachments: seq<Attachment>)

  /** A source that points at an attachment already, in any letter case. */
  predicate IsCid(src: string) {
    |src| >= 4 && src[0] in "cC" && src[1] in "iI\U{0130}" && src[2] in "dD" && src[3] == ':'
  }

  predicate Tried(st: Store, src: string) { src != "" && !IsCid(src) && st.filename(src) != "" }

  /** The content id that a source resolves to. */
  function Resolve(st: Store, src: string): Option<string> {
    if Tried(st, src) then st.cidOf(st.filename(src)) else None
  }

  /** Content ids are not empty. */
  ghost predicate Sound(st: Store) { forall f :: st.cidOf(f) != Some("") }

  // ---------------------------------------------------------------- specification

  function Rewrite(st: Store, t: Token): Token {
    if t.Img? && Resolve(st, t.src).Some? then Img("cid:" + Resolve(st, t.src).value) else t
  }

  function Rewritten(st: Store, b: Body): Body { seq(|b|, i requires 0 <= i < |b| => Rewrite(st, b[i])) }

  /** The parts for the sources of a body that were not seen before, in order of appearance. */
  function Parts(st: Store, b: Body, seen: set<string>): seq<Attachment>
    decreases |b|
  {
    if b == [] then []
    else if b[0].Text? || !Tried(st, b[0].src) || b[0].src in seen then Parts(st, b[1..], seen)
    else
      var found := Resolve(st, b[0].src);
      (if found.Some? then [Inline(found.value)] else []) + Parts(st, b[1..], seen + {b[0].src})
  }

  /** The sources of a body that are looked up. */
  ghost function TriedIn(st: Store, b: Body): set<string> {
    set i | 0 <= i < |b| && b[i].Img? && Tried(st, b[i].src) :: b[i].src
  }

  lemma {:induction false} PartsConcat(st: Store, a: Body, b: Body, seen: set<string>)
    ensures Parts(st, a + b, seen) == Parts(st, a, seen) + Parts(st, b, seen + TriedIn(st, a))
    decreases |a|
  {
    if a == [] {
      assert a + b == b && seen + TriedIn(st, a) == seen;
    } else {
      assert (a + b)[1..] == a[1..] + b;
      TriedHead(st, a);
      var x := if a[0].Img? && Tried(st, a[0].src) then {a[0].src} else {};
      PartsConcat(st, a[1..], b, seen + x);
      assert seen + x + TriedIn(st, a[1..]) == seen + TriedIn(st, a);
      assert x <= seen ==> seen + x == seen;
    }
  }

  lemma TriedHead(st: Store, b: Body)
    requires b != []
    ensures TriedIn(st, b) == (if b[0].Img? && Tried(st, b[0].src) then {b[0].src} else {}) + TriedIn(st, b[1..])
  {}

  function OneTried(st: Store, t: Token): set<string> { if t.Img? && Tried(st, t.src) then {t.src} else {} }

  function OnePart(st: Store, t: Token, seen: set<string>): seq<Attachment> {
    if t.Img? && t.src !in seen && Resolve(st, t.src).Some? then [Inline(Resolve(st, t.src).value)] else []
  }

  /** What applying the images of a body, with some sources seen before, has given. */
  ghost predicate Applied(st: Store, b: Body, seen: set<string>, out: Body, atts: seq<Attachment>, now: set<string>) {
    out == Rewritten(st, b) && atts == Parts(st, b, seen) && now == seen + TriedIn(st, b)
  }

  lemma AppliedNext(
      st: Store, body: Body, n: nat, seen: set<string>, out: Body, atts: seq<Attachment>, now: set<string>)
    requires n < |body| && Applied(st, body[..n], seen, out, atts, now)
    ensures Applied(st, body[..n + 1], seen, out + [Rewrite(st, body[n])], atts + OnePart(st, body[n], now),
                    now + OneTried(st, body[n]))
  {
    var b, t := body[..n], body[n];
    assert body[..n + 1] == b + [t];
    PartsConcat(st, b, [t], seen);
    assert [t][1..] == [];
    assert Parts(st, [t], now) == OnePart(st, t, now);
    TriedSnoc(st, b, t);
  }

  lemma TriedSnoc(st: Store, b: Body, t: Token)
    ensures TriedIn(st, b + [t]) == TriedIn(st, b) + OneTried(st, t)
  {
    assert (b + [t])[|b|] == t && forall i | 0 <= i < |b| :: (b + [t])[i] == b[i];
  }

  function Loaded(st: Store, plain: bool, c: Content): Content {
    if plain then c
    else Content(Rewritten(st, c.body), Rewritten(st, c.template),
                 c.attachments + Parts(st, c.body + c.template, {}))
  }

  predicate HasMedia(atts: seq<Attachment>) { exists a | a in atts :: a.Media? }

  /** The media that are fetched before the first one that the store does not have. */
  function Fetched(st: Store, ids: seq<int>): seq<Attachment> {
    if ids == [] || !st.has(ids[0]) then [] else [Media(ids[0])] + Fetched(st, ids[1..])
  }

  function Attached(st: Store, ids: seq<int>, c: Content): Content {
    if HasMedia(c.attachments) then c else c.(attachments := c.attachments + Fetched(st, ids))
  }

  // ---------------------------------------------------------------- the campaign

  /** What the cache knows of the sources it was asked for; an empty id marks a failed lookup. */
  ghost predicate CacheAgrees(st: Store, cache: map<string, string>) {
    forall s | s in cache :: Tried(st, s) && cache[s] == match Resolve(st, s) case Some(cid) => cid case None => ""
  }

  /** The replacement of one tag, with the part that it adds. */
  method ApplyTag(st: Store, tag: Token, cache: map<string, string>)
    returns (out: Token, atts: seq<Attachment>, after: map<string, string>)
    requires Sound(st) && CacheAgrees(st, cache)
    ensures out == Rewrite(st, tag) && atts == OnePart(st, tag, cache.Keys)
    ensures CacheAgrees(st, after) && after.Keys == cache.Keys + OneTried(st, tag)
  {
    atts, after := [], cache;
    if tag.Text? || tag.src == "" || IsCid(tag.src) {
      return tag, atts, after;
    }
    var fname := st.filename(tag.src);
    if fname == "" {
      return tag, atts, after;
    }
    var cid := "";
    if tag.src in cache {
      cid := cache[tag.src];
    } else {
      var found := st.cidOf(fname);
      if found.Some? {
        atts := [Inline(found.value)];
        cid := found.value;
      }
      after := after[tag.src := cid];
    }
    out := if cid == "" then tag else Img("cid:" + cid);
  }

  method ApplyInlineImages(st: Store, body: Body, cache: map<string, string>)
    returns (out: Body, atts: seq<Attachment>, after: map<string, string>)
    requires Sound(st) && CacheAgrees(st, cache)
    ensures out == Rewritten(st, body)
    ensures CacheAgrees(st, after) && after.Keys == cache.Keys + TriedIn(st, body)
    ensures atts == Parts(st, body, cache.Keys)
  {
    out, atts, after := [], [], cache;
    var n := 0;
    while n < |body|
      invariant 0 <= n <= |body| && CacheAgrees(st, after)
      invariant Applied(st, body[..n], cache.Keys, out, atts, after.Keys)
    {
      var tag, more, known := ApplyTag(st, body[n], after);
      AppliedNext(st, body, n, cache.Keys, out, atts, after.Keys);
      out, atts, after := out + [tag], atts + more, known;
      n := n + 1;
    }
    assert body[..n] == body;
  }

  class Campaign {
    const plain: bool
    const mediaIDs: seq<int>
    var body: Body
    var templateBody: Body
    var attachments: seq<Attachment>

    ghost function Contents(): Content
      reads this
    {
      Content(body, templateBody, attachments)
    }

    constructor (plain: bool, mediaIDs: seq<int>, body: Body, templateBody: Body)
      ensures this.plain == plain && this.mediaIDs == mediaIDs
      ensures Contents() == Content(body, templateBody, [])
    {
      this.plain, this.mediaIDs := plain, mediaIDs;
      this.body, this.templateBody, attachments := body, templateBody, [];
    }

    method LoadInlineImages(st: Store)
      requires Sound(st)
      modifies this
      ensures Contents() == Loaded(st, plain, old(Contents()))
      ensures plain ==> Contents() == old(Contents())
    {
      if plain {
        return;
      }
      ghost var first := body;
      var newBody, atts, cache := ApplyInlineImages(st, body, map[]);
      body := newBody;
      ghost var second := templateBody;
      var newTemplate, more, _ := ApplyInlineImages(st, templateBody, cache);
      templateBody := newTemplate;
      PartsConcat(st, first, second, {});
      assert cache.Keys == {} + TriedIn(st, first);
      attachments := attachments + (atts + more);
    }

    method AttachMedia(st: Store) returns (ok: bool)
      modifies this
      ensures Contents() == Attached(st, mediaIDs, old(Contents()))
      ensures !ok <==> !HasMedia(old(attachments)) && exists i :: 0 <= i < |mediaIDs| && !st.has(mediaIDs[i])
    {
      var n := 0;
      while n < |attachments|
        invariant 0 <= n <= |attachments| && forall i | 0 <= i < n :: attachments[i].Inline?
      {
        if !attachments[n].Inline? {
          return true;
        }
        n := n + 1;
      }
      n := 0;
      ghost var goal := attachments + Fetched(st, mediaIDs);
      assert mediaIDs[0..] == mediaIDs;
      while n < |mediaIDs|
        invariant 0 <= n <= |mediaIDs| && forall i | 0 <= i < n :: st.has(mediaIDs[i])
        invariant attachments + Fetched(st, mediaIDs[n..]) == goal
        invariant body == old(body) && templateBody == old(templateBody)
      {
        assert mediaIDs[n..][1..] == mediaIDs[n + 1..];
        if !st.has(mediaIDs[n]) {
          assert attachments + [] == attachments;
          return false;
        }
        assert [Media(mediaIDs[n])] + Fetched(st, mediaIDs[n + 1..]) == Fetched(st, mediaIDs[n..]);
        assert attachments + Fetched(st, mediaIDs[n..])
          == attachments + [Media(mediaIDs[n])] + Fetched(st, mediaIDs[n + 1..]);
        attachments := attachments + [Media(mediaIDs[n])];
        n := n + 1;
      }
      assert attachments + [] == attachments;
      return true;
    }
  }

  // ---------------------------------------------------------------- loading again changes nothing

  lemma RewriteTwice(st: Store, t: Token)
    ensures Rewrite(st, Rewrite(st, t)) == Rewrite(st, t)
    ensures Rewrite(st, t).Img? ==> Resolve(st, Rewrite(st, t).src) == None
  {}

  lemma {:induction false} NothingToResolve(st: Store, b: Body, seen: set<string>)
    requires forall i | 0 <= i < |b| && b[i].Img? :: Resolve(st, b[i].src) == None
    ensures Parts(st, b, seen) == []
    decreases |b|
  {
    if b != [] {
      NothingToResolve(st, b[1..], if b[0].Img? then seen + {b[0].src} else seen);
      NothingToResolve(st, b[1..], seen);
    }
  }

  lemma LoadTwice(st: Store, plain: bool, c: Content)
    ensures Loaded(st, plain, Loaded(st, plain, c)) == Loaded(st, plain, c)
  {
    if !plain {
      var d := Loaded(st, plain, c);
      forall t: Token ensures Rewrite(st, Rewrite(st, t)) == Rewrite(st, t)
        && (Rewrite(st, t).Img? ==> Resolve(st, Rewrite(st, t).src) == None) {
        RewriteTwice(st, t);
      }
      NothingToResolve(st, d.body + d.template, {});
      assert Rewritten(st, d.body) == d.body && Rewritten(st, d.template) == d.template;
      assert d.attachments + [] == d.attachments;
    }
  }

  // ---------------------------------------------------------------- one part per source

  /** The distinct sources of a body outside a set that resolve to a content id. */
  ghost function Sources(st: Store, b: Body, seen: set<string>, cid: string): set<string> {
    set i | 0 <= i < |b| && b[i].Img? && b[i].src !in seen && Resolve(st, b[i].src) == Some(cid) :: b[i].src
  }

  lemma SourcesHead(st: Store, b: Body, seen: set<string>, cid: string)
    requires b != []
    ensures var t := b[0];
      Sources(st, b, seen, cid)
        == (if t.Img? && t.src !in seen && Resolve(st, t.src) == Some(cid) then {t.src} else {})
           + Sources(st, b[1..], seen, cid)
  {}

  lemma SourcesSeen(st: Store, b: Body, seen: set<string>, src: string, cid: string)
    ensures Sources(st, b, seen + {src}, cid) == Sources(st, b, seen, cid) - {src}
  {
  }

  lemma {:induction false} OnePartPerSource(st: Store, b: Body, seen: set<string>, cid: string)
    ensures multiset(Parts(st, b, seen))[Inline(cid)] == |Sources(st, b, seen, cid)|
    decreases |b|
  {
    if b != [] {
      SourcesHead(st, b, seen, cid);
      if b[0].Text? || !Tried(st, b[0].src) || b[0].src in seen {
        OnePartPerSource(st, b[1..], seen, cid);
        assert Sources(st, b, seen, cid) == Sources(st, b[1..], seen, cid);
      } else {
        NewSource(st, b, seen, cid);
        OnePartPerSource(st, b[1..], seen + {b[0].src}, cid);
      }
    }
  }

  lemma NewSource(st: Store, b: Body, seen: set<string>, cid: string)
    requires b != [] && b[0].Img? && Tried(st, b[0].src) && b[0].src !in seen
    ensures |Sources(st, b, seen, cid)| == |Sources(st, b[1..], seen + {b[0].src}, cid)|
                                           + if Resolve(st, b[0].src) == Some(cid) then 1 else 0
  {
    var src := b[0].src;
    SourcesHead(st, b, seen, cid);
    SourcesSeen(st, b[1..], seen, src, cid);
    var rest := Sources(st, b[1..], seen, cid);
    if Resolve(st, src) == Some(cid) {
      assert Sources(st, b, seen, cid) == (rest - {src}) + {src};
    } else {
      assert src !in rest;
      assert Sources(st, b, seen, cid) == rest - {src};
    }
  }

  lemma {:induction false} PartsAreInline(st: Store, b: Body, seen: set<string>)
    ensures forall a | a in Parts(st, b, seen) :: a.Inline?
    decreases |b|
  {
    if b != [] {
      PartsAreInline(st, b[1..], if b[0].Img? then seen + {b[0].src} else seen);
      PartsAreInline(st, b[1..], seen);
    }
  }

  // ---------------------------------------------------------------- any calls in any order

  datatype Call = Load | Attach

  function AfterCalls(st: Store, plain: bool, ids: seq<int>, c: Content, calls: seq<Call>): Content {
    if calls == [] then c
    else
      var d := AfterCalls(st, plain, ids, c, calls[..|calls| - 1]);
      if calls[|calls| - 1].Load? then Loaded(st, plain, d) else Attached(st, ids, d)
  }

  function Copies(ids: seq<int>, id: int): nat { multiset(ids)[id] }

  lemma {:induction false} FetchedCopies(st: Store, ids: seq<int>, id: int)
    requires forall i | 0 <= i < |ids| :: st.has(ids[i])
    ensures multiset(Fetched(st, ids))[Media(id)] == Copies(ids, id)
    ensures forall a | a in Fetched(st, ids) :: a.Media?
  {
    if ids != [] {
      assert ids == [ids[0]] + ids[1..];
      FetchedCopies(st, ids[1..], id);
    }
  }

  /** The inline parts of a campaign that was loaded. */
  function AllParts(st: Store, start: Content): seq<Attachment> { Parts(st, start.body + start.template, {}) }

  /** The content once the images were loaded or not, and the media attached or not. */
  ghost predicate Settled(st: Store, ids: seq<int>, start: Content, loaded: bool, attached: bool, c: Content) {
    var parts := if loaded then AllParts(st, start) else [];
    var media := if attached then Fetched(st, ids) else [];
    && c.body == (if loaded then Rewritten(st, start.body) else start.body)
    && c.template == (if loaded then Rewritten(st, start.template) else start.template)
    && (c.attachments == parts + media || c.attachments == media + parts)
  }

  lemma AttachSettled(st: Store, ids: seq<int>, start: Content, loaded: bool, attached: bool, c: Content)
    requires Settled(st, ids, start, loaded, attached, c)
    requires forall i | 0 <= i < |ids| :: st.has(ids[i])
    ensures Settled(st, ids, start, loaded, true, Attached(st, ids, c))
    ensures attached ==> Attached(st, ids, c) == c
  {
    var parts := if loaded then AllParts(st, start) else [];
    PartsAreInline(st, start.body + start.template, {});
    if attached && ids != [] {
      assert Fetched(st, ids)[0] in c.attachments;
      assert HasMedia(c.attachments);
    } else {
      assert parts + [] == parts && [] + parts == parts;
      assert c.attachments == parts;
      assert !HasMedia(c.attachments);
    }
  }

  lemma LoadSettled(st: Store, ids: seq<int>, start: Content, loaded: bool, attached: bool, c: Content)
    requires Settled(st, ids, start, loaded, attached, c)
    ensures Settled(st, ids, start, true, attached, Loaded(st, false, c))
    ensures loaded ==> Loaded(st, false, c) == c
  {
    if loaded {
      LoadTwice(st, false, c);
      NothingMore(st, start);
      assert c.attachments + [] == c.attachments;
      RewrittenTwice(st, start.body);
      RewrittenTwice(st, start.template);
    } else {
      var media := if attached then Fetched(st, ids) else [];
      assert [] + media == media && media + [] == media;
    }
  }

  lemma RewrittenTwice(st: Store, b: Body)
    ensures Rewritten(st, Rewritten(st, b)) == Rewritten(st, b)
  {}

  lemma NothingMore(st: Store, start: Content)
    ensures Parts(st, Rewritten(st, start.body) + Rewritten(st, start.template), {}) == []
  {
    forall t: Token ensures Rewrite(st, t).Img? ==> Resolve(st, Rewrite(st, t).src) == None {
      RewriteTwice(st, t);
    }
    NothingToResolve(st, Rewritten(st, start.body) + Rewritten(st, start.template), {});
  }

  lemma {:induction false} CallsSettle(st: Store, plain: bool, ids: seq<int>, start: Content, calls: seq<Call>)
    requires start.attachments == [] && forall i | 0 <= i < |ids| :: st.has(ids[i])
    ensures Settled(st, ids, start, !plain && Load in calls, Attach in calls, AfterCalls(st, plain, ids, start, calls))
    decreases |calls|
  {
    if calls != [] {
      var front, last := calls[..|calls| - 1], calls[|calls| - 1];
      CallsSettle(st, plain, ids, start, front);
      assert front + [last] == calls;
      var c := AfterCalls(st, plain, ids, start, front);
      if last.Attach? {
        AttachSettled(st, ids, start, !plain && Load in front, Attach in front, c);
      } else if !plain {
        LoadSettled(st, ids, start, Load in front, Attach in front, c);
      }
    }
  }

  /** A call of a kind made before, without a fetch error, changes nothing. */
  lemma RepeatingChangesNothing(st: Store, plain: bool, ids: seq<int>, start: Content, calls: seq<Call>, again: Call)
    requires start.attachments == [] && forall i | 0 <= i < |ids| :: st.has(ids[i])
    requires again in calls
    ensures AfterCalls(st, plain, ids, start, calls + [again]) == AfterCalls(st, plain, ids, start, calls)
  {
    var c := AfterCalls(st, plain, ids, start, calls);
    CallsSettle(st, plain, ids, start, calls);
    assert (calls + [again])[..|calls|] == calls;
    if again.Attach? {
      AttachSettled(st, ids, start, !plain && Load in calls, true, c);
    } else if !plain {
      LoadSettled(st, ids, start, true, Attach in calls, c);
    }
  }

  /**
    After any calls in any order without a fetch error: one inline part per distinct resolved source,
    and one attachment per media id.
  */
  lemma CallsAttachOnce(st: Store, plain: bool, ids: seq<int>, start: Content, calls: seq<Call>, cid: string, id: int)
    requires start.attachments == [] && forall i | 0 <= i < |ids| :: st.has(ids[i])
    ensures var atts := multiset(AfterCalls(st, plain, ids, start, calls).attachments);
      && atts[Inline(cid)]
         == (if plain || Load !in calls then 0 else |Sources(st, start.body + start.template, {}, cid)|)
      && atts[Media(id)] == if Attach in calls then Copies(ids, id) else 0
  {
    CallsSettle(st, plain, ids, start, calls);
    var parts := if plain || Load !in calls then [] else AllParts(st, start);
    var media := if Attach in calls then Fetched(st, ids) else [];
    var atts := AfterCalls(st, plain, ids, start, calls).attachments;
    InEitherOrder(atts, parts, media, Inline(cid));
    InEitherOrder(atts, parts, media, Media(id));
    OnePartPerSource(st, start.body + start.template, {}, cid);
    PartsAreInline(st, start.body + start.template, {});
    FetchedCopies(st, ids, id);
    assert Media(id) !in parts && Inline(cid) !in media;
  }

  lemma InEitherOrder(atts: seq<Attachment>, parts: seq<Attachment>, media: seq<Attachment>, a: Attachment)
    requires atts == parts + media || atts == media + parts
    ensures multiset(atts)[a] == multiset(parts)[a] + multiset(media)[a]
  {}

  /** Once loaded, body and template stay rewritten and every part stays attached, fetch errors or not. */
  lemma {:induction false} CallsKeepParts(st: Store, ids: seq<int>, start: Content, calls: seq<Call>)
    ensures var c := AfterCalls(st, false, ids, start, calls);
      && c.body == (if Load in calls then Rewritten(st, start.body) else start.body)
      && c.template == (if Load in calls then Rewritten(st, start.template) else start.template)
      && (Load in calls ==> forall a | a in AllParts(st, start) :: a in c.attachments)
    decreases |calls|
  {
    if calls != [] {
      CallsKeepParts(st, ids, start, calls[..|calls| - 1]);
      assert calls == calls[..|calls| - 1] + [calls[|calls| - 1]];
      RewrittenTwice(st, start.body);
      RewrittenTwice(st, start.template);
    }
  }

  lemma ResolvedHasPart(st: Store, start: Content, i: nat, cid: string)
    requires var b := start.body + start.template; i < |b| && b[i].Img? && Resolve(st, b[i].src) == Some(cid)
    ensures Inline(cid) in AllParts(st, start)
  {
    var b := start.body + start.template;
    OnePartPerSource(st, b, {}, cid);
    assert b[i].src in Sources(st, b, {}, cid);
    assert multiset(Parts(st, b, {}))[Inline(cid)] > 0;
  }

  /** After any calls in any order of which one loaded the images, every image that resolves refers to a content
      id and has its part. */
  lemma EveryReferenceHasPart(st: Store, ids: seq<int>, start: Content, calls: seq<Call>, i: nat)
    requires Load in calls && i < |start.body + start.template|
    requires var t := (start.body + start.template)[i]; t.Img? && Resolve(st, t.src).Some?
    ensures var c := AfterCalls(st, false, ids, start, calls);
      var cid := Resolve(st, (start.body + start.template)[i].src).value;
      && |c.body| + |c.template| == |start.body + start.template|
      && (c.body + c.template)[i] == Img("cid:" + cid) && Inline(cid) in c.attachments
  {
    var b := start.body + start.template;
    var cid := Resolve(st, b[i].src).value;
    CallsKeepParts(st, ids, start, calls);
    ResolvedHasPart(st, start, i, cid);
  }

  /** Parts are counted by source, not by file: two spellings of one file attach it twice under one content id. */
  lemma SameFileTwice(st: Store, src: string, other: string, cid: string)
    requires src != other && Resolve(st, src) == Some(cid) && Resolve(st, other) == Some(cid)
    ensures Loaded(st, false, Content([Img(src), Img(other)], [], [])).attachments == [Inline(cid), Inline(cid)]
  {
    var b := [Img(src), Img(other)];
    assert b + [] == b && b[1..] == [Img(other)] && b[1..][1..] == [];
    assert Parts(st, b, {}) == [Inline(cid)] + Parts(st, b[1..], {} + {src});
    assert Parts(st, b[1..], {} + {src}) == [Inline(cid)] + Parts(st, [], {} + {src} + {other});
  }

  // ---------------------------------------------------------------- after a fetch error

  /** The number of media before the first that cannot be fetched. */
  function Prefix(st: Store, ids: seq<int>): (n: nat)
    ensures n <= |ids|
  {
    if ids == [] || !st.has(ids[0]) then 0 else 1 + Prefix(st, ids[1..])
  }

  lemma {:induction false} FetchedPrefix(st: Store, ids: seq<int>)
    ensures |Fetched(st, ids)| == Prefix(st, ids)
    ensures Fetched(st, ids) != [] ==> HasMedia(Fetched(st, ids))
  {
    if ids != [] && st.has(ids[0]) {
      FetchedPrefix(st, ids[1..]);
      assert Fetched(st, ids)[0].Media?;
    }
  }

  /**
    Attaching again after an error completes the media exactly when the error came at the first of
    them; otherwise the ones fetched before it make the campaign look loaded.
  */
  lemma RetryAfterError(st: Store, later: Store, ids: seq<int>, c: Content)
    requires !HasMedia(c.attachments) && Prefix(st, ids) < |ids| && Prefix(later, ids) == |ids|
    ensures Attached(later, ids, Attached(st, ids, c)).attachments == c.attachments + Fetched(later, ids)
      <==> Prefix(st, ids) == 0
  {
    FetchedPrefix(st, ids);
    FetchedPrefix(later, ids);
    if Prefix(st, ids) == 0 {
      assert c.attachments + [] == c.attachments;
    } else {
      var a :| a in Fetched(st, ids) && a.Media?;
      assert a in Attached(st, ids, c).attachments;
    }
  }

  // ---------------------------------------------------------------- what one tag becomes

  /** The spellings of the scheme of a content id, in any letter case. */
  const CID_SCHEMES := {
    "cid:", "ciD:", "cId:", "cID:", "Cid:", "CiD:", "CId:", "CID:",
    "c\U{0130}d:", "c\U{0130}D:", "C\U{0130}d:", "C\U{0130}D:"}

  predicate IsReference(src: string) { exists scheme | scheme in CID_SCHEMES :: scheme <= src }

  lemma CidIsReference(src: string)
    ensures IsCid(src) <==> IsReference(src)
  {
    if |src| >= 4 {
      var scheme := src[..4];
      assert scheme == [src[0], src[1], src[2], src[3]];
      if IsCid(src) { assert scheme in CID_SCHEMES && scheme <= src; }
    }
  }

  /** A tag whose source has a file name that the store knows becomes a reference to that file's content id; a reference
      to a content id, in any letter case, and every other tag and text stay as they are. */
  lemma TagBecomes(st: Store, t: Token)
    ensures t.Img? && t.src != "" && st.filename(t.src) != "" && !IsReference(t.src)
            && st.cidOf(st.filename(t.src)).Some?
      ==> Rewrite(st, t) == Img("cid:" + st.cidOf(st.filename(t.src)).value)
    ensures t.Text? || t.src == "" || st.filename(t.src) == "" || st.cidOf(st.filename(t.src)).None?
      ==> Rewrite(st, t) == t
    ensures t.Img? && IsReference(t.src) ==> Rewrite(st, t) == t && Parts(st, [t], {}) == []
  {
    if t.Img? {
      CidIsReference(t.src);
      assert [t][1..] == [];
    }
  }

  /** The media attached are those listed before the first that cannot be fetched, in order. */
  lemma {:induction false} FetchedAre(st: Store, ids: seq<int>) returns (n: nat)
    ensures n <= |ids| && |Fetched(st, ids)| == n && (n < |ids| ==> !st.has(ids[n]))
    ensures forall k | 0 <= k < n :: st.has(ids[k]) && Fetched(st, ids)[k] == Media(ids[k])
    decreases |ids|
  {
    n := 0;
    if ids != [] && st.has(ids[0]) {
      var m := FetchedAre(st, ids[1..]);
      n := m + 1;
      assert forall k | 0 < k < n :: ids[k] == ids[1..][k - 1];
    }
  }
}
