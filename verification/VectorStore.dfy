/** The vector store: replacing the rows of a page, in batches that may fail one by one. */
module VectorStore {
  import opened Chunker

  type Vector = seq<real>

  datatype Row = Row(id: ChunkID, url: string, ordinal: nat, title: string, text: string, contentHash: Hash,
    runID: string, vector: Vector)

  /** What a document's content hash is the hash of. */
  datatype Hash = Hash(fingerprint: string, title: string, content: string)

  type Rows = map<ChunkID, Row>

  datatype Result = Ok | InvalidRow | QueryFailed | TooManyChunks | StoreFailed

  const WriteBatchSize: nat := 500
  const ExistingIDsLimit: nat := 16384

  // ---- What batches do ---------------------------------------------------------------------

  /** The rows after writing `news` over them, in order. */
  function Put(rows: Rows, news: seq<Row>): Rows {
    if news == [] then rows
    else
      var last := news[|news| - 1];
      Put(rows, news[..|news| - 1])[last.id := last]
  }

  function IDs(news: seq<Row>): set<ChunkID> {
    set i | 0 <= i < |news| :: news[i].id
  }

  function Elements(ids: seq<ChunkID>): set<ChunkID> {
    set id | id in ids
  }

  /** The stored rows of a page. */
  function IDsOf(rows: Rows, url: string): set<ChunkID> {
    set id | id in rows && rows[id].url == url
  }

  /** The rows once those of `url` are exactly `news`. */
  function Replaced(rows: Rows, url: string, news: seq<Row>): Rows {
    Put(rows, news) - (IDsOf(rows, url) - IDs(news))
  }

  lemma {:induction false} PutTwice(rows: Rows, xs: seq<Row>, ys: seq<Row>)
    ensures Put(Put(rows, xs), ys) == Put(rows, xs + ys)
  {
    if ys == [] {
      assert xs + ys == xs;
    } else {
      var n := |ys| - 1;
      PutTwice(rows, xs, ys[..n]);
      assert (xs + ys)[..|xs + ys| - 1] == xs + ys[..n];
    }
  }

  lemma {:induction false} PutIs(rows: Rows, news: seq<Row>)
    ensures Put(rows, news).Keys == rows.Keys + IDs(news)
    ensures forall id | id in rows && id !in IDs(news) :: Put(rows, news)[id] == rows[id]
    ensures forall id | id in IDs(news) :: Put(rows, news)[id].id == id && Put(rows, news)[id] in news
  {
    if news != [] {
      var n := |news| - 1;
      PutIs(rows, news[..n]);
      assert IDs(news) == IDs(news[..n]) + {news[n].id} by {
        assert forall i | 0 <= i < n :: news[i] == news[..n][i];
      }
    }
  }

  ghost predicate DistinctIDs(news: seq<Row>) {
    forall i, j | 0 <= i < j < |news| :: news[i].id != news[j].id
  }

  ghost predicate RowsOf(news: seq<Row>, url: string) {
    forall i | 0 <= i < |news| :: news[i].url == url
  }

  /** After a replacement the rows of the page are exactly the new ones, and every other row whose
      id is not taken over is as it was. */
  lemma {:induction false} ReplacedIsExact(rows: Rows, url: string, news: seq<Row>)
    requires RowsOf(news, url) && DistinctIDs(news)
    ensures IDsOf(Replaced(rows, url, news), url) == IDs(news)
    ensures forall i | 0 <= i < |news| ::
      news[i].id in Replaced(rows, url, news) && Replaced(rows, url, news)[news[i].id] == news[i]
    ensures SameOutside(rows, Replaced(rows, url, news), IDs(news) + IDsOf(rows, url))
  {
    PutIs(rows, news);
    var after := Replaced(rows, url, news);
    forall i | 0 <= i < |news| ensures news[i].id in after && after[news[i].id] == news[i] {
      assert news[i].id in IDs(news);
    }
  }

  ghost predicate SameOutside(rows: Rows, after: Rows, touched: set<ChunkID>) {
    forall id | id !in touched :: (id in rows <==> id in after) && (id in rows ==> after[id] == rows[id])
  }

  /** Every row is an old one or one of the new ones. */
  ghost predicate OldOrNew(rows: Rows, after: Rows, news: seq<Row>) {
    forall id | id in after :: (id in rows && after[id] == rows[id]) || (after[id] in news && after[id].id == id)
  }

  /** A replacement that stopped half way: some batches of rows were written, or all of them and some
      of the page's other rows deleted. */
  ghost predicate HalfReplaced(rows: Rows, after: Rows, url: string, news: seq<Row>) {
    || (exists k :: 0 <= k <= |news| && (k % WriteBatchSize == 0 || k == |news|) && after == Put(rows, news[..k]))
    || exists gone :: gone <= IDsOf(rows, url) - IDs(news) && after == Put(rows, news) - gone
  }

  /** How many of n rows are written when all but the last of some writes succeed, and that one
      takes effect only if it lands. */
  function Written(writes: nat, lands: bool, n: nat): nat {
    Min((writes + if lands then 1 else 0) * WriteBatchSize, n)
  }

  lemma {:induction false} HalfReplacedTouches(rows: Rows, after: Rows, url: string, news: seq<Row>)
    requires HalfReplaced(rows, after, url, news)
    ensures TouchesOwn(rows, after, url, news)
    ensures forall id | id in rows && id in IDs(news) :: id in after
  {
    if gone :| gone <= IDsOf(rows, url) - IDs(news) && after == Put(rows, news) - gone {
      PutIs(rows, news);
    } else {
      var k :| 0 <= k <= |news| && after == Put(rows, news[..k]);
      PrefixTouches(rows, news, k);
      PutIs(rows, news[..k]);
    }
  }

  /** What may have become of the rows when a replacement ends. */
  ghost predicate TouchesOwn(rows: Rows, after: Rows, url: string, news: seq<Row>) {
    SameOutside(rows, after, IDs(news) + IDsOf(rows, url)) && OldOrNew(rows, after, news)
  }

  lemma {:induction false} PrefixIsHalf(rows: Rows, url: string, news: seq<Row>, k: nat)
    requires k <= |news| && (k % WriteBatchSize == 0 || k == |news|)
    ensures HalfReplaced(rows, Put(rows, news[..k]), url, news) && TouchesOwn(rows, Put(rows, news[..k]), url, news)
  {
    HalfReplacedTouches(rows, Put(rows, news[..k]), url, news);
  }

  lemma {:induction false} DeletedIsHalf(rows: Rows, after: Rows, url: string, news: seq<Row>, gone: set<ChunkID>)
    requires gone <= IDsOf(rows, url) - IDs(news) && after == Put(rows, news) - gone
    ensures HalfReplaced(rows, after, url, news) && TouchesOwn(rows, after, url, news)
  {
    HalfReplacedTouches(rows, after, url, news);
  }

  function Batches(n: nat): nat {
    (n + WriteBatchSize - 1) / WriteBatchSize
  }

  function Min(a: nat, b: nat): nat {
    if a < b then a else b
  }

  lemma {:induction false} BatchesAre(done: nat, n: nat)
    requires n <= done * WriteBatchSize && (done > 0 ==> (done - 1) * WriteBatchSize < n)
    ensures Batches(n) == done
  {
  }

  /** Batches hold 500 rows each, but for the last. */
  lemma {:induction false} BatchesOf500(n: nat)
    ensures (Batches(n) - 1) * 500 < n <= Batches(n) * 500 || (n == 0 && Batches(n) == 0)
  {
  }

  lemma {:induction false} NotYetDone(done: nat, n: nat)
    requires done * WriteBatchSize < n
    ensures Batches(n) > done
  {
  }

  lemma {:induction false} PrefixTouches(rows: Rows, news: seq<Row>, k: nat)
    requires k <= |news|
    ensures SameOutside(rows, Put(rows, news[..k]), IDs(news)) && OldOrNew(rows, Put(rows, news[..k]), news)
  {
    PutIs(rows, news[..k]);
    assert forall r | r in news[..k] :: r in news;
    forall id | id in IDs(news[..k]) ensures id in IDs(news) {
      var i :| 0 <= i < k && news[..k][i].id == id;
      assert news[i].id == id;
    }
  }

  lemma {:induction false} NextBatch(rows: Rows, news: seq<Row>, start: nat, end: nat)
    requires start <= end <= |news|
    ensures Put(Put(rows, news[..start]), news[start..end]) == Put(rows, news[..end])
  {
    PutTwice(rows, news[..start], news[start..end]);
    assert news[..start] + news[start..end] == news[..end];
  }

  // ---- The store ---------------------------------------------------------------------------

  class Store {
    var rows: Rows
    const dimension: nat

    /** How many more writes succeed before the store starts failing. */
    var writesLeft: nat

    /** Whether a row's id is hexadecimal and its fields are within their byte limits. */
    const fits: Row -> bool

    predicate ValidRow(url: string, row: Row) {
      row.url == url && |row.vector| == dimension && fits(row)
    }

    predicate AllValid(url: string, news: seq<Row>) {
      forall i | 0 <= i < |news| :: ValidRow(url, news[i])
    }

    /** A replacement of the page's rows by these goes through: they are valid, the query for the page's
        rows is answered with few enough of them, and the store lasts for all batches. */
    ghost predicate Takes(url: string, news: seq<Row>, queryOk: bool)
      reads this
    {
      && AllValid(url, news) && queryOk && |IDsOf(rows, url)| < 16384
      && writesLeft >= Batches(|news|) + Batches(|IDsOf(rows, url) - IDs(news)|)
    }

    /** Writes one batch, or fails; a write that fails may take effect all the same. */
    method UpsertBatch(batch: seq<Row>, lands: bool) returns (ok: bool)
      modifies this
      ensures ok == (old(writesLeft) > 0)
      ensures writesLeft == if ok then old(writesLeft) - 1 else old(writesLeft)
      ensures rows == if ok || lands then Put(old(rows), batch) else old(rows)
    {
      ok := writesLeft > 0;
      if ok {
        writesLeft := writesLeft - 1;
      }
      if ok || lands {
        for i := 0 to |batch|
          invariant rows == Put(old(rows), batch[..i])
          invariant writesLeft == if ok then old(writesLeft) - 1 else old(writesLeft)
        {
          assert batch[..i + 1][..i] == batch[..i];
          rows := rows[batch[i].id := batch[i]];
        }
        assert batch[..|batch|] == batch;
      }
    }

    method DeleteBatch(ids: seq<ChunkID>, lands: bool) returns (ok: bool)
      modifies this
      ensures ok == (old(writesLeft) > 0)
      ensures writesLeft == if ok then old(writesLeft) - 1 else old(writesLeft)
      ensures rows == if ok || lands then old(rows) - Elements(ids) else old(rows)
    {
      ok := writesLeft > 0;
      if ok {
        writesLeft := writesLeft - 1;
      }
      if ok || lands {
        rows := rows - Elements(ids);
      }
    }

    /** The ids stored for a page, in any order. */
    method ExistingIDs(url: string) returns (ids: seq<ChunkID>)
      ensures Elements(ids) == IDsOf(rows, url) && |ids| == |IDsOf(rows, url)|
    {
      ids := [];
      var left := IDsOf(rows, url);
      while left != {}
        invariant Elements(ids) + left == IDsOf(rows, url) && |ids| + |left| == |IDsOf(rows, url)|
        decreases |left|
      {
        var id :| id in left;
        left := left - {id};
        ids := ids + [id];
      }
    }

    method UpsertAll(news: seq<Row>, lands: bool) returns (ok: bool)
      modifies this
      ensures ok <==> old(writesLeft) >= Batches(|news|)
      ensures ok ==> rows == Put(old(rows), news) && writesLeft == old(writesLeft) - Batches(|news|)
      ensures !ok ==> rows == Put(old(rows), news[..Written(old(writesLeft), lands, |news|)])
    {
      var start := 0;
      ghost var done: nat := 0;
      while start < |news|
        invariant start == Min(done * WriteBatchSize, |news|)
        invariant done > 0 ==> (done - 1) * WriteBatchSize < |news|
        invariant writesLeft == old(writesLeft) - done
        invariant rows == Put(old(rows), news[..start])
      {
        var end := Min(start + WriteBatchSize, |news|);
        NextBatch(old(rows), news, start, end);
        NotYetDone(done, |news|);
        var written := UpsertBatch(news[start..end], lands);
        if !written {
          assert Written(done, lands, |news|) == if lands then end else start;
          return false;
        }
        start := end;
        done := done + 1;
      }
      BatchesAre(done, |news|);
      assert news[..|news|] == news;
      return true;
    }

    method DeleteAll(stale: seq<ChunkID>, lands: bool) returns (ok: bool)
      modifies this
      ensures ok <==> old(writesLeft) >= Batches(|stale|)
      ensures ok ==> rows == old(rows) - Elements(stale) && writesLeft == old(writesLeft) - Batches(|stale|)
      ensures !ok ==> rows == old(rows) - Elements(stale[..Written(old(writesLeft), lands, |stale|)])
    {
      var start := 0;
      ghost var done: nat := 0;
      while start < |stale|
        invariant start == Min(done * WriteBatchSize, |stale|)
        invariant done > 0 ==> (done - 1) * WriteBatchSize < |stale|
        invariant writesLeft == old(writesLeft) - done
        invariant rows == old(rows) - Elements(stale[..start])
      {
        var end := Min(start + WriteBatchSize, |stale|);
        NotYetDone(done, |stale|);
        assert stale[..end] == stale[..start] + stale[start..end];
        var written := DeleteBatch(stale[start..end], lands);
        if !written {
          assert Written(done, lands, |stale|) == if lands then end else start;
          return false;
        }
        start := end;
        done := done + 1;
      }
      BatchesAre(done, |stale|);
      assert stale[..|stale|] == stale;
      return true;
    }

    method StaleOf(existing: seq<ChunkID>, news: seq<Row>) returns (stale: seq<ChunkID>)
      requires |existing| == |Elements(existing)|
      ensures Elements(stale) == Elements(existing) - IDs(news) && |stale| == |Elements(existing) - IDs(news)|
    {
      var keep := IDs(news);
      stale := [];
      for i := 0 to |existing|
        invariant Elements(stale) == Elements(existing[..i]) - keep && |stale| == |Elements(existing[..i]) - keep|
      {
        assert existing[..i + 1] == existing[..i] + [existing[i]];
        NoRepeat(existing, i);
        if existing[i] !in keep {
          assert Elements(existing[..i + 1]) - keep == Elements(existing[..i]) - keep + {existing[i]};
          stale := stale + [existing[i]];
        } else {
          assert Elements(existing[..i + 1]) - keep == Elements(existing[..i]) - keep;
        }
      }
      assert existing[..|existing|] == existing;
    }

    /** Writes the new rows over the page's and deletes those of the existing ones that are not kept. */
    method WriteOver(url: string, news: seq<Row>, existing: seq<ChunkID>, lands: bool) returns (ok: bool)
      requires Elements(existing) == IDsOf(rows, url) && |existing| == |IDsOf(rows, url)|
      modifies this
      ensures ok ==> rows == Replaced(old(rows), url, news)
      ensures ok ==>
        writesLeft == old(writesLeft) - Batches(|news|) - Batches(|IDsOf(old(rows), url) - IDs(news)|)
      ensures !ok ==>
        old(writesLeft) < Batches(|news|) + Batches(|IDsOf(old(rows), url) - IDs(news)|)
      ensures HalfReplaced(old(rows), rows, url, news) && TouchesOwn(old(rows), rows, url, news)
    {
      ok := UpsertAll(news, lands);
      if !ok {
        PrefixIsHalf(old(rows), url, news, Written(old(writesLeft), lands, |news|));
        return;
      }
      var stale := StaleOf(existing, news);
      ghost var left := writesLeft;
      ok := DeleteAll(stale, lands);
      ghost var gone := stale[..if ok then |stale| else Written(left, lands, |stale|)];
      assert ok ==> gone == stale;
      DeletedIsHalf(old(rows), rows, url, news, Elements(gone));
    }

    /** Makes the stored rows of a page exactly `news`, unless the store fails; `lands` tells whether
        the write that fails takes effect. */
    method Replace(url: string, news: seq<Row>, queryOk: bool, lands: bool) returns (r: Result)
      modifies this
      ensures r == InvalidRow <==> !AllValid(url, news)
      ensures r == QueryFailed <==> AllValid(url, news) && !queryOk
      ensures r == TooManyChunks <==> AllValid(url, news) && queryOk && |IDsOf(old(rows), url)| >= ExistingIDsLimit
      ensures r.InvalidRow? || r.QueryFailed? || r.TooManyChunks? ==> rows == old(rows) && writesLeft == old(writesLeft)
      ensures r == Ok <==> old(Takes(url, news, queryOk))
      ensures r == Ok ==> rows == Replaced(old(rows), url, news)
      ensures r == Ok ==>
        writesLeft == old(writesLeft) - Batches(|news|) - Batches(|IDsOf(old(rows), url) - IDs(news)|)
      ensures r == StoreFailed ==>
        old(writesLeft) < Batches(|news|) + Batches(|IDsOf(old(rows), url) - IDs(news)|)
      ensures r == StoreFailed ==> HalfReplaced(old(rows), rows, url, news)
      ensures TouchesOwn(old(rows), rows, url, news)
    {
      for i := 0 to |news|
        invariant forall j | 0 <= j < i :: ValidRow(url, news[j])
      {
        if !ValidRow(url, news[i]) {
          return InvalidRow;
        }
      }
      if !queryOk {
        return QueryFailed;
      }
      var existing := ExistingIDs(url);
      if |existing| >= ExistingIDsLimit {
        return TooManyChunks;
      }
      var ok := WriteOver(url, news, existing, lands);
      return if ok then Ok else StoreFailed;
    }
  }

  lemma {:induction false} SizeOfElements(ids: seq<ChunkID>)
    ensures |Elements(ids)| <= |ids|
  {
    if ids != [] {
      var n := |ids| - 1;
      SizeOfElements(ids[..n]);
      assert Elements(ids) == Elements(ids[..n]) + {ids[n]};
    }
  }

  lemma {:induction false} NoRepeat(ids: seq<ChunkID>, i: nat)
    requires |ids| == |Elements(ids)| && i < |ids|
    ensures ids[i] !in Elements(ids[..i])
  {
    if ids[i] in Elements(ids[..i]) {
      var others := ids[..i] + ids[i + 1..];
      assert Elements(ids) == Elements(others);
      SizeOfElements(others);
      assert false;
    }
  }
}
