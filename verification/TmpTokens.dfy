/**
  One-time tokens with a time to live and a limit on checks.  The store is compared with what the
  history of calls alone says a token is worth.
*/
module TmpTokens {
  import opened Wrappers

  const MAX_TRIES := 15

  datatype Data = Nil | UserId(id: int) | Secret(text: string)

  datatype Token = Token(ttl: int, createdAt: int, count: nat, data: Data)

  type Tokens = map<string, Token>

  datatype Call =
    | Set(id: string, ttl: int, data: Data)
    | Check(id: string)
    | Get(id: string)
    | Delete(id: string)
    | Clean

  /** A call and the clock at which it takes the lock. */
  datatype Entry = Entry(at: int, call: Call)

  predicate Expired(t: Token, now: int) { now - t.createdAt > t.ttl }

  function NextTokens(s: Tokens, now: int, c: Call): Tokens {
    match c
    case Set(id, ttl, data) => s[id := Token(ttl, now, 0, data)]
    case Check(id) =>
      if id !in s then s
      else if Expired(s[id], now) || s[id].count + 1 > MAX_TRIES then s - {id}
      else s[id := s[id].(count := s[id].count + 1)]
    case Get(id) => s - {id}
    case Delete(id) => s - {id}
    case Clean => map id | id in s && !Expired(s[id], now) :: s[id]
  }

  function Answer(s: Tokens, now: int, c: Call): Option<Data> {
    match c
    case Check(id) =>
      if id !in s || Expired(s[id], now) || s[id].count + 1 > MAX_TRIES then None else Some(s[id].data)
    case Get(id) => if id !in s || Expired(s[id], now) then None else Some(s[id].data)
    case _ => None
  }

  class Store {
    var tokens: Tokens

    constructor ()
      ensures tokens == map[]
    {
      tokens := map[];
    }

    method Set(now: int, id: string, ttl: int, data: Data)
      modifies this
      ensures tokens == NextTokens(old(tokens), now, Call.Set(id, ttl, data))
    {
      tokens := tokens[id := Token(ttl, now, 0, data)];
    }

    method Check(now: int, id: string) returns (r: Option<Data>)
      modifies this
      ensures tokens == NextTokens(old(tokens), now, Call.Check(id))
      ensures r == Answer(old(tokens), now, Call.Check(id))
      ensures (r.None? ==> id !in tokens) && tokens - {id} == old(tokens) - {id}
    {
      if id !in tokens {
        return None;
      }
      var token := tokens[id];
      if now - token.createdAt > token.ttl {
        tokens := tokens - {id};
        return None;
      }
      token := token.(count := token.count + 1);
      if token.count > MAX_TRIES {
        tokens := tokens - {id};
        return None;
      }
      tokens := tokens[id := token];
      return Some(token.data);
    }

    method Get(now: int, id: string) returns (r: Option<Data>)
      modifies this
      ensures tokens == NextTokens(old(tokens), now, Call.Get(id))
      ensures r == Answer(old(tokens), now, Call.Get(id))
      ensures id !in tokens && tokens - {id} == old(tokens) - {id}
    {
      if id !in tokens {
        assert tokens - {id} == tokens;
        return None;
      }
      var token := tokens[id];
      if now - token.createdAt > token.ttl {
        tokens := tokens - {id};
        return None;
      }
      tokens := tokens - {id};
      return Some(token.data);
    }

    method Delete(now: int, id: string)
      modifies this
      ensures tokens == NextTokens(old(tokens), now, Call.Delete(id))
      ensures id !in tokens && tokens - {id} == old(tokens) - {id}
    {
      tokens := tokens - {id};
    }

    method Clean(now: int)
      modifies this
      ensures tokens == NextTokens(old(tokens), now, Call.Clean)
    {
      var ids := tokens.Keys;
      while ids != {}
        invariant ids <= tokens.Keys <= old(tokens).Keys
        invariant forall id | id in tokens :: tokens[id] == old(tokens)[id]
        invariant forall id | id in old(tokens) && id !in ids ::
            id in tokens <==> !Expired(old(tokens)[id], now)
      {
        var id :| id in ids;
        var token := tokens[id];
        if now - token.createdAt > token.ttl {
          tokens := tokens - {id};
        }
        ids := ids - {id};
      }
    }
  }

  // ---------------------------------------------------------------- runs

  function After(h: seq<Entry>): Tokens {
    if h == [] then map[] else NextTokens(After(h[..|h| - 1]), h[|h| - 1].at, h[|h| - 1].call)
  }

  ghost predicate Monotone(h: seq<Entry>) {
    forall i, j | 0 <= i < j < |h| :: h[i].at <= h[j].at
  }

  // What the calls alone say; none of these looks at a store, nor at a `Clean`.

  /** The last token set under an id. */
  ghost function Granted(h: seq<Entry>, id: string): Option<Token> {
    if h == [] then None
    else
      var e := h[|h| - 1];
      if e.call.Set? && e.call.id == id then Some(Token(e.call.ttl, e.at, 0, e.call.data))
      else Granted(h[..|h| - 1], id)
  }

  /** How often an id was checked since it was last set. */
  ghost function Tries(h: seq<Entry>, id: string): nat {
    if h == [] then 0
    else
      var c := h[|h| - 1].call;
      if c.Set? && c.id == id then 0
      else Tries(h[..|h| - 1], id) + (if c == Check(id) then 1 else 0)
  }

  /** Whether an id was fetched or deleted since it was last set. */
  ghost predicate Taken(h: seq<Entry>, id: string) {
    h != [] &&
    var c := h[|h| - 1].call;
    !(c.Set? && c.id == id) && (c == Get(id) || c == Delete(id) || Taken(h[..|h| - 1], id))
  }

  /** A token that was set, not taken since, and whose time has not passed. */
  ghost predicate Standing(h: seq<Entry>, id: string, now: int) {
    Granted(h, id).Some? && !Taken(h, id) && !Expired(Granted(h, id).value, now)
  }

  ghost function Worth(h: seq<Entry>, e: Entry): Option<Data> {
    match e.call
    case Check(id) =>
      if Standing(h, id, e.at) && Tries(h, id) < MAX_TRIES then Some(Granted(h, id).value.data) else None
    case Get(id) =>
      if Standing(h, id, e.at) && Tries(h, id) <= MAX_TRIES then Some(Granted(h, id).value.data) else None
    case _ => None
  }

  ghost predicate Agrees(s: Tokens, h: seq<Entry>, id: string, now: int) {
    && (id in s ==>
          && Granted(h, id).Some? && !Taken(h, id)
          && s[id] == Granted(h, id).value.(count := Tries(h, id))
          && Tries(h, id) <= MAX_TRIES)
    && (Standing(h, id, now) && Tries(h, id) <= MAX_TRIES ==> id in s)
  }

  lemma {:induction false} StoreAgrees(h: seq<Entry>, id: string, now: int)
    requires Monotone(h) && (h != [] ==> h[|h| - 1].at <= now)
    ensures Agrees(After(h), h, id, now)
    decreases |h|
  {
    if h != [] {
      var g, e := h[..|h| - 1], h[|h| - 1];
      StoreAgrees(g, id, e.at);
    }
  }

  /** Every answer in a run with a monotone clock is what the calls before it alone justify. */
  lemma AnswersAreEarned(h: seq<Entry>, e: Entry)
    requires Monotone(h + [e])
    ensures Answer(After(h), e.at, e.call) == Worth(h, e)
  {
    assert forall i | 0 <= i < |h| :: (h + [e])[i] == h[i];
    if h != [] {
      assert (h + [e])[|h|] == e;
    }
    if e.call.Check? || e.call.Get? {
      StoreAgrees(h, e.call.id, e.at);
    }
  }

  // ---------------------------------------------------------------- cleaning is invisible

  function Uncleaned(h: seq<Entry>): seq<Entry> {
    if h == [] then []
    else Uncleaned(h[..|h| - 1]) + (if h[|h| - 1].call.Clean? then [] else [h[|h| - 1]])
  }

  lemma {:induction false} CleanLeavesNoTrace(h: seq<Entry>, id: string)
    ensures Granted(Uncleaned(h), id) == Granted(h, id)
    ensures Tries(Uncleaned(h), id) == Tries(h, id)
    ensures Taken(Uncleaned(h), id) == Taken(h, id)
    decreases |h|
  {
    if h != [] {
      var g, e := h[..|h| - 1], h[|h| - 1];
      CleanLeavesNoTrace(g, id);
      if e.call.Clean? {
        assert Uncleaned(h) == Uncleaned(g);
      } else {
        assert Uncleaned(h)[..|Uncleaned(h)| - 1] == Uncleaned(g);
      }
    }
  }

  lemma {:induction false} UncleanedMonotone(h: seq<Entry>, now: int)
    requires Monotone(h) && forall i | 0 <= i < |h| :: h[i].at <= now
    ensures Monotone(Uncleaned(h)) && forall i | 0 <= i < |Uncleaned(h)| :: Uncleaned(h)[i].at <= now
    decreases |h|
  {
    if h != [] {
      UncleanedMonotone(h[..|h| - 1], h[|h| - 1].at);
    }
  }

  /** Two runs that differ only in when they clean give the same answer to the next call. */
  lemma CleaningIsInvisible(h: seq<Entry>, g: seq<Entry>, e: Entry)
    requires Monotone(h + [e]) && Monotone(g + [e]) && Uncleaned(h) == Uncleaned(g)
    ensures Answer(After(h), e.at, e.call) == Answer(After(g), e.at, e.call)
  {
    AnswersAreEarned(h, e);
    AnswersAreEarned(g, e);
    if e.call.Check? || e.call.Get? {
      CleanLeavesNoTrace(h, e.call.id);
      CleanLeavesNoTrace(g, e.call.id);
    }
  }

  // ---------------------------------------------------------------- how far one token goes

  /** The calls of one kind on an id since it was last set that were answered. */
  ghost function Answered(h: seq<Entry>, c: Call): nat
    requires c.Check? || c.Get?
    decreases |h|
  {
    if h == [] then 0
    else
      var g, e := h[..|h| - 1], h[|h| - 1];
      if e.call.Set? && e.call.id == c.id then 0
      else Answered(g, c) + (if e.call == c && Answer(After(g), e.at, c).Some? then 1 else 0)
  }

  /** One token serves at most fifteen checks and one fetch. */
  lemma {:induction false} OneTokenGoesSoFar(h: seq<Entry>, id: string)
    requires Monotone(h)
    ensures Answered(h, Check(id)) <= Tries(h, id) && Answered(h, Check(id)) <= 15
    ensures Answered(h, Get(id)) <= 1 && (Answered(h, Get(id)) == 1 ==> Taken(h, id))
    decreases |h|
  {
    if h != [] {
      var g, e := h[..|h| - 1], h[|h| - 1];
      OneTokenGoesSoFar(g, id);
      assert g + [e] == h;
      AnswersAreEarned(g, e);
    }
  }

  /** Nothing is answered once a token was fetched, deleted or has expired, until it is set again. */
  lemma {:induction false} SpentStaysSpent(h: seq<Entry>, id: string, now: int)
    requires Monotone(h) && (h != [] ==> h[|h| - 1].at <= now)
    requires Taken(h, id) || (Granted(h, id).Some? && Expired(Granted(h, id).value, now))
    ensures Answer(After(h), now, Check(id)).None? && Answer(After(h), now, Get(id)).None?
  {
    StoreAgrees(h, id, now);
  }

  /** Within its time an untaken token does serve: each of the first fifteen checks, and a fetch after any of them. */
  lemma {:induction false} FifteenAreServed(h: seq<Entry>, id: string, now: int)
    requires Monotone(h) && (h != [] ==> h[|h| - 1].at <= now)
    requires Standing(h, id, now)
    ensures Answer(After(h), now, Check(id)).Some? <==> Tries(h, id) < 15
    ensures Answer(After(h), now, Get(id)).Some? <==> Tries(h, id) <= 15
  {
    StoreAgrees(h, id, now);
  }

  // ---------------------------------------------------------------- time

  /** Neither sets, takes nor deletes the id. */
  ghost predicate Spares(c: Call, id: string) {
    !(c.Set? && c.id == id) && c != Get(id) && c != Delete(id)
  }

  lemma {:induction false} SparedSince(h: seq<Entry>, grant: Entry, g: seq<Entry>)
    requires grant.call.Set? && forall e | e in g :: Spares(e.call, grant.call.id)
    ensures var id, all := grant.call.id, h + [grant] + g;
      && Granted(all, id) == Some(Token(grant.call.ttl, grant.at, 0, grant.call.data)) && !Taken(all, id)
      && Tries(all, id) <= |g|
    decreases |g|
  {
    var all := h + [grant] + g;
    if g == [] {
      assert all == h + [grant] && all[|all| - 1] == grant;
    } else {
      SparedSince(h, grant, g[..|g| - 1]);
      assert all[..|all| - 1] == h + [grant] + g[..|g| - 1] && all[|all| - 1] == g[|g| - 1];
      assert g[|g| - 1] in g;
    }
  }

  /** A token is served for as long as its time to live says, to the moment, and not after: whatever was called before
      it was set, and whatever is called since that does not set, take or delete it and checks it fewer than 15
      times. */
  lemma ServedInItsTime(h: seq<Entry>, grant: Entry, g: seq<Entry>, now: int)
    requires Monotone(h + [grant] + g + [Entry(now, Clean)])
    requires grant.call.Set? && forall e | e in g :: Spares(e.call, grant.call.id)
    requires Tries(h + [grant] + g, grant.call.id) < 15
    ensures var id, all := grant.call.id, h + [grant] + g;
      var served := if now <= grant.at + grant.call.ttl then Some(grant.call.data) else None;
      Answer(After(all), now, Check(id)) == served && Answer(After(all), now, Get(id)) == served
  {
    var all := h + [grant] + g;
    SparedSince(h, grant, g);
    assert forall i | 0 <= i < |all| :: (all + [Entry(now, Clean)])[i] == all[i];
    assert (all + [Entry(now, Clean)])[|all|] == Entry(now, Clean);
    assert Monotone(all) && all[|all| - 1].at <= now;
    StoreAgrees(all, grant.call.id, now);
  }

  /** A cleaning removes exactly the tokens whose time has passed. */
  lemma CleanedByTime(s: Tokens, now: int, id: string)
    ensures id in NextTokens(s, now, Clean) <==> id in s && now <= s[id].createdAt + s[id].ttl
    ensures id in NextTokens(s, now, Clean) ==> NextTokens(s, now, Clean)[id] == s[id]
  {}
}
