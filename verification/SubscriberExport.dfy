/**
  The keyset iterator behind the subscriber export.  Each fetch sees the database as it is at that
  moment: the ids that match the caller's filters, in ascending order.
*/
module SubscriberExport {
  import opened Wrappers

  /** The matching ids above the cursor, in order; a batch size below one sets no limit. */
  function Query(matching: seq<int>, id: int, batchSize: int): seq<int> {
    var above := Above(matching, id);
    if batchSize < 1 || |above| <= batchSize then above else above[..batchSize]
  }

  function Above(matching: seq<int>, id: int): seq<int> {
    if matching == [] then [] else (if matching[0] > id then [matching[0]] else []) + Above(matching[1..], id)
  }

  datatype Fetch = Failed | Rows(ids: seq<int>)

  class Exporter {
    var id: int
    const batchSize: int

    constructor (batchSize: int)
      ensures id == 0 && this.batchSize == batchSize
    {
      id := 0;
      this.batchSize := batchSize;
    }

    /** One fetch; `None` stands for a query that fails, and leaves the cursor where it was. */
    method Next(matching: Option<seq<int>>) returns (r: Fetch)
      modifies this
      ensures matching.None? ==> r == Failed && id == old(id)
      ensures matching.Some? ==> r == Rows(Query(matching.value, old(id), batchSize))
      ensures matching.Some? ==> id == Cursor(old(id), Query(matching.value, old(id), batchSize))
    {
      if matching.None? {
        return Failed;
      }
      var out := Query(matching.value, id, batchSize);
      if |out| == 0 {
        return Rows([]);
      }
      id := out[|out| - 1];
      return Rows(out);
    }

    /** One batch goes to the writer, row by row, until it takes no more. */
    method WriteRows(written: seq<int>, ids: seq<int>, room: nat) returns (out: seq<int>, ok: bool)
      requires |written| <= room
      ensures ok <==> |written| + |ids| <= room
      ensures out == if ok then written + ids else (written + ids)[..room]
    {
      out := written;
      for k := 0 to |ids|
        invariant out == written + ids[..k] && |out| <= room
      {
        if |out| == room {
          return out, false;
        }
        out := out + [ids[k]];
      }
      return out, true;
    }

    /** The export loop over the states that its fetches see; the writer takes `room` rows and then fails. */
    method Export(states: seq<Option<seq<int>>>, room: nat) returns (written: seq<int>, ended: bool)
      requires id == 0
      modifies this
      ensures (written, ended) == Cut(Exported(states, 0, batchSize), room)
    {
      written, ended := [], false;
      var n := 0;
      ghost var all := Exported(states, 0, batchSize);
      assert states[0..] == states && forall rest: seq<int> :: [] + rest == rest;
      while n < |states|
        invariant 0 <= n <= |states| && !ended && |written| <= room
        invariant all == Prefixed(written, Exported(states[n..], id, batchSize))
      {
        assert states[n..][0] == states[n] && states[n..][1..] == states[n + 1..];
        assert written + [] == written;
        var out := Next(states[n]);
        if out.Failed? {
          return;
        }
        if |out.ids| == 0 {
          ended := true;
          return;
        }
        ghost var rest := Exported(states[n + 1..], id, batchSize);
        CutWithin(written, out.ids, rest, room);
        var ok;
        written, ok := WriteRows(written, out.ids, room);
        if !ok {
          return;
        }
        n := n + 1;
      }
      assert states[n..] == [] && written + [] == written;
    }
  }

  /** What is left of an export whose writer fails after `room` rows; the loop is left before it knows the end. */
  function Cut(r: (seq<int>, bool), room: nat): (seq<int>, bool) {
    if |r.0| <= room then r else (r.0[..room], false)
  }

  /** A writer that fails leaves the first `room` rows of the export, and the loop then does not come to its end. */
  lemma CutIs(r: (seq<int>, bool), room: nat)
    ensures Cut(r, room).0 <= r.0 && |Cut(r, room).0| == if |r.0| <= room then |r.0| else room
    ensures Cut(r, room).1 <==> r.1 && |r.0| <= room
  {}

  lemma CutWithin(written: seq<int>, ids: seq<int>, rest: (seq<int>, bool), room: nat)
    requires |written| <= room
    ensures var all := Prefixed(written, (ids + rest.0, rest.1));
      && all == Prefixed(written + ids, rest)
      && (|written| + |ids| > room ==> Cut(all, room) == ((written + ids)[..room], false))
  {
    assert written + (ids + rest.0) == (written + ids) + rest.0;
    if |written| + |ids| > room {
      assert ((written + ids) + rest.0)[..room] == (written + ids)[..room];
    }
  }

  function Prefixed(written: seq<int>, rest: (seq<int>, bool)): (seq<int>, bool) { (written + rest.0, rest.1) }

  function Cursor(id: int, batch: seq<int>): int { if batch == [] then id else batch[|batch| - 1] }

  /** What is written over a sequence of fetches, and whether the last one came back empty. */
  function Exported(states: seq<Option<seq<int>>>, id: int, batchSize: int): (seq<int>, bool)
    decreases |states|
  {
    if states == [] || states[0].None? then ([], false)
    else
      var batch := Query(states[0].value, id, batchSize);
      if batch == [] then ([], true)
      else
        var rest := Exported(states[1..], Cursor(id, batch), batchSize);
        (batch + rest.0, rest.1)
  }

  ghost predicate Sorted(states: seq<Option<seq<int>>>) {
    forall i | 0 <= i < |states| && states[i].Some? :: Increasing(states[i].value)
  }

  ghost predicate Increasing(ids: seq<int>) {
    forall i, j | 0 <= i < j < |ids| :: ids[i] < ids[j]
  }

  lemma HeadIsLeast(ids: seq<int>)
    requires Increasing(ids) && ids != []
    ensures Increasing(ids[1..]) && forall x | x in ids[1..] :: ids[0] < x
  {
  }

  lemma {:induction false} AboveHas(matching: seq<int>, id: int, x: int)
    ensures x in Above(matching, id) <==> x in matching && x > id
  {
    if matching != [] {
      AboveHas(matching[1..], id, x);
      assert x in matching <==> x == matching[0] || x in matching[1..];
    }
  }

  lemma {:induction false} AboveIncreases(matching: seq<int>, id: int)
    requires Increasing(matching)
    ensures Increasing(Above(matching, id))
  {
    if matching != [] {
      var rest := Above(matching[1..], id);
      HeadIsLeast(matching);
      AboveIncreases(matching[1..], id);
      forall i | 0 <= i < |rest| ensures matching[0] < rest[i] {
        AboveHas(matching[1..], id, rest[i]);
      }
    }
  }

  lemma AboveIs(matching: seq<int>, id: int)
    requires Increasing(matching)
    ensures Increasing(Above(matching, id))
    ensures forall x :: x in Above(matching, id) <==> x in matching && x > id
  {
    AboveIncreases(matching, id);
    forall x ensures x in Above(matching, id) <==> x in matching && x > id {
      AboveHas(matching, id, x);
    }
  }

  /** A batch is the least part of the matching ids above the cursor: what it leaves out lies above all of it. */
  lemma QueryIs(matching: seq<int>, id: int, batchSize: int)
    requires Increasing(matching)
    ensures var batch := Query(matching, id, batchSize);
      && Increasing(batch)
      && (forall x | x in batch :: x in matching && x > id)
      && (forall x | x in matching && x > id :: x in batch || (batch != [] && x > Cursor(id, batch)))
  {
    AboveIs(matching, id);
    var above, batch := Above(matching, id), Query(matching, id, batchSize);
    forall x | x in matching && x > id && x !in batch ensures batch != [] && x > Cursor(id, batch) {
      var i :| 0 <= i < |above| && above[i] == x;
      assert i >= batchSize >= 1;
    }
    forall x | x in batch ensures x in matching && x > id {
      assert x in above;
    }
  }

  /** A batch is never longer than the batch size, and leaves a matching id out only if it is as long as that. */
  lemma PageIsFull(matching: seq<int>, id: int, batchSize: int, x: int)
    requires Increasing(matching)
    ensures batchSize >= 1 ==> |Query(matching, id, batchSize)| <= batchSize
    ensures x in matching && x > id && x !in Query(matching, id, batchSize) ==>
      1 <= batchSize == |Query(matching, id, batchSize)|
  {
    AboveHas(matching, id, x);
  }

  lemma JoinIncreasing(batch: seq<int>, rest: seq<int>, id: int)
    requires batch != [] && Increasing(batch) && Increasing(rest) && batch[0] > id
    requires forall i | 0 <= i < |rest| :: rest[i] > batch[|batch| - 1]
    ensures Increasing(batch + rest) && forall i | 0 <= i < |batch + rest| :: (batch + rest)[i] > id
  {}

  /** Exported ids rise strictly, so none is repeated, whatever changes between the fetches. */
  lemma {:induction false} ExportIsIncreasing(states: seq<Option<seq<int>>>, id: int, batchSize: int)
    requires Sorted(states)
    ensures var out := Exported(states, id, batchSize).0;
      Increasing(out) && forall i | 0 <= i < |out| :: out[i] > id
    decreases |states|
  {
    if states != [] && states[0].Some? {
      var batch := Query(states[0].value, id, batchSize);
      QueryIs(states[0].value, id, batchSize);
      if batch != [] {
        var next := Cursor(id, batch);
        ExportIsIncreasing(states[1..], next, batchSize);
        assert batch[0] > id by { assert batch[0] in batch; }
        JoinIncreasing(batch, Exported(states[1..], next, batchSize).0, id);
      }
    }
  }

  /** Whatever is written matched at the fetch that wrote it. */
  lemma {:induction false} OnlyMatching(states: seq<Option<seq<int>>>, id: int, batchSize: int, x: int) returns (n: nat)
    requires Sorted(states) && x in Exported(states, id, batchSize).0
    ensures n < |states| && states[n].Some? && x in states[n].value
    decreases |states|
  {
    var batch := Query(states[0].value, id, batchSize);
    if x in batch {
      QueryIs(states[0].value, id, batchSize);
      return 0;
    }
    assert x in Exported(states[1..], Cursor(id, batch), batchSize).0;
    n := OnlyMatching(states[1..], Cursor(id, batch), batchSize, x);
    n := n + 1;
  }

  /** Once the iterator comes back empty, everything that matched at every fetch has been written. */
  lemma {:induction false} NothingIsMissed(states: seq<Option<seq<int>>>, id: int, batchSize: int, x: int)
    requires Sorted(states) && Exported(states, id, batchSize).1
    requires x > id && forall i | 0 <= i < |states| && states[i].Some? :: x in states[i].value
    ensures x in Exported(states, id, batchSize).0
    decreases |states|
  {
    var batch := Query(states[0].value, id, batchSize);
    QueryIs(states[0].value, id, batchSize);
    assert x in states[0].value;
    if batch != [] && x !in batch {
      NothingIsMissed(states[1..], Cursor(id, batch), batchSize, x);
    }
  }

  /** Positions of an id in what was written: exactly one for an id that matched throughout. */
  lemma ExportedExactlyOnce(states: seq<Option<seq<int>>>, batchSize: int, x: int)
    requires Sorted(states) && Exported(states, 0, batchSize).1
    requires x > 0 && forall i | 0 <= i < |states| && states[i].Some? :: x in states[i].value
    ensures multiset(Exported(states, 0, batchSize).0)[x] == 1
  {
    NothingIsMissed(states, 0, batchSize, x);
    ExportIsIncreasing(states, 0, batchSize);
    IncreasingOnce(Exported(states, 0, batchSize).0, x);
  }

  lemma {:induction false} IncreasingOnce(ids: seq<int>, x: int)
    requires Increasing(ids)
    ensures multiset(ids)[x] == if x in ids then 1 else 0
  {
    if ids != [] {
      assert ids == [ids[0]] + ids[1..];
      IncreasingOnce(ids[1..], x);
      assert forall y | y in ids[1..] :: ids[0] < y;
    }
  }

  lemma QuietStep(matching: seq<int>, id: int, batchSize: int, n: nat)
    requires n > 0
    ensures var batch := Query(matching, id, batchSize);
      Exported(seq(n, i => Some(matching)), id, batchSize) ==
      if batch == [] then ([], true)
      else Prefixed(batch, Exported(seq(n - 1, i => Some(matching)), Cursor(id, batch), batchSize))
  {
    assert seq(n, i => Some(matching))[1..] == seq(n - 1, i => Some(matching));
  }

  /** What a page of the same rows takes off, and that an empty page leaves nothing. */
  lemma PageTakes(matching: seq<int>, id: int, batchSize: int)
    requires Increasing(matching)
    ensures var batch := Query(matching, id, batchSize);
      if batch == [] then Above(matching, id) == []
      else Above(matching, id) == batch + Above(matching, Cursor(id, batch))
  {
    if Query(matching, id, batchSize) != [] {
      RestAbove(matching, id, batchSize);
    }
  }

  lemma QuietEnds(matching: seq<int>, id: int, batchSize: int, n: nat)
    requires Increasing(matching) && n > |Above(matching, id)| && Query(matching, id, batchSize) == []
    ensures Exported(seq(n, i => Some(matching)), id, batchSize) == (Above(matching, id), true)
  {
    QuietStep(matching, id, batchSize, n);
    PageTakes(matching, id, batchSize);
  }

  lemma QuietGoesOn(matching: seq<int>, id: int, batchSize: int, n: nat)
    requires Increasing(matching) && n > |Above(matching, id)| && Query(matching, id, batchSize) != []
    ensures var next := Cursor(id, Query(matching, id, batchSize));
      && n - 1 > |Above(matching, next)|
      && (Exported(seq(n - 1, i => Some(matching)), next, batchSize) == (Above(matching, next), true)
          ==> Exported(seq(n, i => Some(matching)), id, batchSize) == (Above(matching, id), true))
  {
    QuietStep(matching, id, batchSize, n);
    PageTakes(matching, id, batchSize);
  }

  /** With nobody changing the rows, the export ends, and has written exactly the matching ids. */
  lemma {:induction false} QuietExport(matching: seq<int>, id: int, batchSize: int, n: nat)
    requires Increasing(matching) && n > |Above(matching, id)|
    ensures Exported(seq(n, i => Some(matching)), id, batchSize) == (Above(matching, id), true)
    decreases n
  {
    if Query(matching, id, batchSize) == [] {
      QuietEnds(matching, id, batchSize, n);
    } else {
      QuietGoesOn(matching, id, batchSize, n);
      QuietExport(matching, Cursor(id, Query(matching, id, batchSize)), batchSize, n - 1);
    }
  }

  lemma RestAbove(matching: seq<int>, id: int, batchSize: int)
    requires Increasing(matching) && Query(matching, id, batchSize) != []
    ensures var batch := Query(matching, id, batchSize);
      Above(matching, id) == batch + Above(matching, Cursor(id, batch))
  {
    var batch, above := Query(matching, id, batchSize), Above(matching, id);
    AboveIs(matching, id);
    var k := |batch| - 1;
    assert batch == above[..k + 1] && Cursor(id, batch) == above[k];
    assert above[k] in above;
    AboveTwice(matching, id, above[k]);
    AboveTail(above, k);
    assert above == above[..k + 1] + above[k + 1..];
  }

  lemma {:induction false} AboveTwice(matching: seq<int>, id: int, next: int)
    requires id <= next
    ensures Above(Above(matching, id), next) == Above(matching, next)
  {
    if matching != [] {
      var rest := Above(matching[1..], id);
      AboveTwice(matching[1..], id, next);
      assert ([matching[0]] + rest)[1..] == rest && [] + rest == rest;
    }
  }

  lemma {:induction false} AboveTail(ids: seq<int>, k: nat)
    requires Increasing(ids) && k < |ids|
    ensures Above(ids, ids[k]) == ids[k + 1..]
  {
    if k == 0 {
      AboveAll(ids[1..], ids[0]);
    } else {
      AboveTail(ids[1..], k - 1);
    }
  }

  lemma {:induction false} AboveAll(ids: seq<int>, id: int)
    requires forall i | 0 <= i < |ids| :: ids[i] > id
    ensures Above(ids, id) == ids
  {
    if ids != [] {
      AboveAll(ids[1..], id);
    }
  }
}
