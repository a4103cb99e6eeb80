/** Indexing a document: skipped when its hash says nothing changed, else chunked, embedded, and its
    rows replaced. When the stored hash can be believed. */
module Index {
  import opened Chunker
  import opened VectorStore

  datatype Option<T> = None | Some(value: T)

  /** A document under the settings it is chunked with. */
  datatype Version = Version(fingerprint: string, doc: Document)

  /** The chunker under given settings. */
  type ChunkerFor = (string, Document) -> seq<Chunk>

  function HashOf(v: Version): Hash {
    Hash(v.fingerprint, v.doc.title, v.doc.content)
  }

  ghost predicate ChunksOk(doc: Document, chunks: seq<Chunk>) {
    && (forall i | 0 <= i < |chunks| :: chunks[i] == ChunkOf(doc, chunks[i].text, i))
    && forall i, j | 0 <= i < j < |chunks| :: chunks[i].id != chunks[j].id
  }

  /** Chunks are numbered, carry their document's URL in their ids, which differ, and do not depend
      on the run the document was crawled in. */
  ghost predicate ChunkerOk(chunker: ChunkerFor) {
    && (forall f, d :: ChunksOk(d, chunker(f, d)))
    && forall f, url, title, content, r, q ::
      chunker(f, Document(url, title, content, r)) == chunker(f, Document(url, title, content, q))
  }

  /** What the chunker makes of any packed texts is such chunks. */
  lemma {:induction false} ChunkerMakesThese(doc: Document, texts: seq<string>)
    ensures ChunksOk(doc, ChunksOf(doc, Distinct(texts)))
  {
    DistinctKeepsAll(texts);
    var distinct := Distinct(texts);
    forall i, j | 0 <= i < j < |distinct| ensures ChunkOf(doc, distinct[i], i).id != ChunkOf(doc, distinct[j], j).id {
      SameIDSameText(doc, distinct[i], distinct[j], i, j);
    }
  }

  function ChunkIDs(chunks: seq<Chunk>): set<ChunkID> {
    set i | 0 <= i < |chunks| :: chunks[i].id
  }

  predicate Shows(row: Row, chunk: Chunk, v: Version) {
    && row.id == chunk.id && row.url == v.doc.url && row.ordinal == chunk.ordinal && row.title == chunk.title
    && row.text == EmbeddingText(chunk.title, chunk.text) && row.contentHash == HashOf(v)
  }

  /** The rows of the page are exactly the chunks of this version. */
  ghost predicate Stores(rows: Rows, v: Version, chunks: seq<Chunk>) {
    && IDsOf(rows, v.doc.url) == ChunkIDs(chunks)
    && forall i | 0 <= i < |chunks| :: chunks[i].id in rows && Shows(rows[chunks[i].id], chunks[i], v)
  }

  /** An id belongs to one page, which its row is of. */
  ghost predicate OwnIDs(rows: Rows) {
    forall id | id in rows :: rows[id].url == id.url
  }

  // ---- One submission ----------------------------------------------------------------------

  /** What a submission came to: the hash matched; nothing was written; writing stopped half way;
      the rows were replaced but the hash was not recorded; both were. */
  datatype Outcome = Unchanged | Rejected | Interrupted | Unrecorded | Stored

  datatype State = State(rows: Rows, hashes: map<string, Hash>)

  /** Replacing the rows of the page by the chunks of this version stopped half way. */
  ghost predicate HalfStored(rows: Rows, after: Rows, v: Version, chunks: seq<Chunk>) {
    exists news: seq<Row> :: RowsShow(news, chunks, v) && HalfReplaced(rows, after, v.doc.url, news)
  }

  ghost predicate RowsShow(news: seq<Row>, chunks: seq<Chunk>, v: Version) {
    |news| == |chunks| && forall i | 0 <= i < |news| :: Shows(news[i], chunks[i], v)
  }

  ghost predicate SameElsewhere(rows: Rows, after: Rows, url: string) {
    forall id: ChunkID | id.url != url :: (id in rows <==> id in after) && (id in rows ==> after[id] == rows[id])
  }

  ghost predicate Submitted(chunker: ChunkerFor, s: State, v: Version, o: Outcome, s': State) {
    match o
    case Unchanged => s' == s && v.doc.url in s.hashes && s.hashes[v.doc.url] == HashOf(v)
    case Rejected => s' == s
    case Interrupted =>
      && s'.hashes == s.hashes && SameElsewhere(s.rows, s'.rows, v.doc.url) && OwnIDs(s'.rows)
      && HalfStored(s.rows, s'.rows, v, chunker(v.fingerprint, v.doc))
    case Unrecorded =>
      && s'.hashes == s.hashes && SameElsewhere(s.rows, s'.rows, v.doc.url) && OwnIDs(s'.rows)
      && Stores(s'.rows, v, chunker(v.fingerprint, v.doc))
    case Stored =>
      && s'.hashes == s.hashes[v.doc.url := HashOf(v)] && SameElsewhere(s.rows, s'.rows, v.doc.url) && OwnIDs(s'.rows)
      && Stores(s'.rows, v, chunker(v.fingerprint, v.doc))
  }

  function RowOf(chunk: Chunk, v: Version, vector: Vector): Row {
    Row(chunk.id, v.doc.url, chunk.ordinal, chunk.title, EmbeddingText(chunk.title, chunk.text), HashOf(v),
      v.doc.runID, vector)
  }

  /** The services a submission calls, and whether they answer; a write that fails may land. */
  datatype Services = Services(hashReadFails: bool, embed: seq<string> -> Option<seq<Vector>>, queryOk: bool,
    writeLands: bool, hashWriteFails: bool, hashWriteLands: bool)

  /** The embedder answers with one vector for each text, or fails. */
  ghost predicate EmbedsEach(embed: seq<string> -> Option<seq<Vector>>) {
    forall texts :: embed(texts).Some? ==> |embed(texts).value| == |texts|
  }

  /** The texts that are embedded for these chunks. */
  function TextsOf(chunks: seq<Chunk>): seq<string> {
    seq(|chunks|, i requires 0 <= i < |chunks| => EmbeddingText(chunks[i].title, chunks[i].text))
  }

  /** The rows of these chunks, each with its own vector. */
  function NewRows(v: Version, chunks: seq<Chunk>, vectors: seq<Vector>): seq<Row>
    requires |vectors| == |chunks|
  {
    seq(|chunks|, i requires 0 <= i < |chunks| => RowOf(chunks[i], v, vectors[i]))
  }

  /** Nothing is embedded for a page without chunks. */
  function VectorsFor(chunks: seq<Chunk>, services: Services): Option<seq<Vector>> {
    if chunks == [] then Some([]) else services.embed(TextsOf(chunks))
  }

  /** Every row holds the model's vector of its own text. */
  ghost predicate Modelled(rows: Rows, model: string -> Vector) {
    forall id | id in rows :: rows[id].vector == model(rows[id].text)
  }

  /** What the embedder answers are the model's vectors of the texts it was given, in their order. */
  ghost predicate EmbedsBy(embed: seq<string> -> Option<seq<Vector>>, model: string -> Vector) {
    forall texts, i | embed(texts).Some? && 0 <= i < |texts| && i < |embed(texts).value| ::
      embed(texts).value[i] == model(texts[i])
  }

  lemma {:induction false} NewRowsModelled(v: Version, chunks: seq<Chunk>, services: Services, model: string -> Vector)
    requires EmbedsEach(services.embed) && EmbedsBy(services.embed, model) && VectorsFor(chunks, services).Some?
    ensures |VectorsFor(chunks, services).value| == |chunks|
    ensures forall row | row in NewRows(v, chunks, VectorsFor(chunks, services).value) :: row.vector == model(row.text)
  {
    if chunks != [] {
      var texts := TextsOf(chunks);
      forall i | 0 <= i < |chunks| ensures services.embed(texts).value[i] == model(texts[i]) {
        assert services.embed(texts).Some?;
      }
    }
  }

  lemma {:induction false} StillModelled(rows: Rows, after: Rows, url: string, news: seq<Row>, model: string -> Vector)
    requires Modelled(rows, model) && TouchesOwn(rows, after, url, news)
    requires forall row | row in news :: row.vector == model(row.text)
    ensures Modelled(after, model)
  {
  }

  /** Each chunk's row holds the vector at the chunk's place and the run the document is of. */
  ghost predicate RowsHold(rows: Rows, v: Version, chunks: seq<Chunk>, vectors: seq<Vector>) {
    && |vectors| == |chunks|
    && forall i | 0 <= i < |chunks| ::
         chunks[i].id in rows && rows[chunks[i].id].vector == vectors[i] && rows[chunks[i].id].runID == v.doc.runID
  }

  lemma {:induction false} ReplacedHolds(rows: Rows, v: Version, chunks: seq<Chunk>, vectors: seq<Vector>)
    requires |vectors| == |chunks| && ChunksOk(v.doc, chunks)
    ensures RowsHold(Replaced(rows, v.doc.url, NewRows(v, chunks, vectors)), v, chunks, vectors)
  {
    var news := NewRows(v, chunks, vectors);
    ReplacedIsExact(rows, v.doc.url, news);
    forall i | 0 <= i < |chunks|
      ensures chunks[i].id in Replaced(rows, v.doc.url, news)
        && Replaced(rows, v.doc.url, news)[chunks[i].id] == news[i]
    {
      assert news[i].id == chunks[i].id;
    }
  }

  lemma {:induction false} ReplacedStores(rows: Rows, v: Version, chunks: seq<Chunk>, news: seq<Row>)
    requires OwnIDs(rows) && ChunksOk(v.doc, chunks) && RowsShow(news, chunks, v)
    ensures var after := Replaced(rows, v.doc.url, news);
      Stores(after, v, chunks) && SameElsewhere(rows, after, v.doc.url) && OwnIDs(after)
  {
    var after := Replaced(rows, v.doc.url, news);
    ReplacedIsExact(rows, v.doc.url, news);
    SameIDs(v, chunks, news);
    OnlyItsOwn(rows, after, v.doc.url, news);
    forall i | 0 <= i < |chunks| ensures chunks[i].id in after && Shows(after[chunks[i].id], chunks[i], v) {
      assert after[news[i].id] == news[i];
    }
  }

  lemma {:induction false} SameIDs(v: Version, chunks: seq<Chunk>, news: seq<Row>)
    requires RowsShow(news, chunks, v)
    ensures IDs(news) == ChunkIDs(chunks)
  {
    forall i | 0 <= i < |news| ensures news[i].id == chunks[i].id {
      assert Shows(news[i], chunks[i], v);
    }
  }

  /** A write that touches only ids of the page leaves other pages alone. */
  lemma {:induction false} OnlyItsOwn(rows: Rows, after: Rows, url: string, news: seq<Row>)
    requires OwnIDs(rows) && forall i | 0 <= i < |news| :: news[i].id.url == url
    requires SameOutside(rows, after, IDs(news) + IDsOf(rows, url))
    ensures SameElsewhere(rows, after, url)
  {
  }

  lemma {:induction false} InterruptedKeeps(rows: Rows, after: Rows, v: Version, chunks: seq<Chunk>, news: seq<Row>)
    requires OwnIDs(rows) && ChunksOk(v.doc, chunks) && RowsShow(news, chunks, v)
    requires SameOutside(rows, after, IDs(news) + IDsOf(rows, v.doc.url)) && OldOrNew(rows, after, news)
    ensures SameElsewhere(rows, after, v.doc.url) && OwnIDs(after)
  {
    OnlyItsOwn(rows, after, v.doc.url, news);
    forall id | id in after ensures after[id].url == id.url {
      if !(id in rows && after[id] == rows[id]) {
        var i :| 0 <= i < |news| && news[i] == after[id];
        assert Shows(news[i], chunks[i], v);
      }
    }
  }

  /** The sink that embeds chunks and stores them. */
  class VectorSink {
    const store: Store

    constructor (store: Store)
      ensures this.store == store
    {
      this.store := store;
    }

    /** A submission of these chunks goes through: the embedder answers, and the store takes the rows. */
    ghost predicate Accepts(v: Version, chunks: seq<Chunk>, services: Services)
      requires EmbedsEach(services.embed)
      reads store
    {
      && VectorsFor(chunks, services).Some?
      && store.Takes(v.doc.url, NewRows(v, chunks, VectorsFor(chunks, services).value), services.queryOk)
    }

    method Submit(v: Version, chunks: seq<Chunk>, services: Services, ghost model: string -> Vector)
        returns (ok: bool, ghost wrote: bool)
      requires OwnIDs(store.rows) && ChunksOk(v.doc, chunks) && EmbedsEach(services.embed)
      modifies store
      ensures OwnIDs(store.rows) && SameElsewhere(old(store.rows), store.rows, v.doc.url)
      ensures ok <==> old(Accepts(v, chunks, services))
      ensures ok ==> Stores(store.rows, v, chunks)
      ensures ok && chunks != [] ==> RowsHold(store.rows, v, chunks, services.embed(TextsOf(chunks)).value)
      ensures !ok && !wrote ==> store.rows == old(store.rows)
      ensures !ok && wrote ==> HalfStored(old(store.rows), store.rows, v, chunks)
      ensures old(Modelled(store.rows, model)) && EmbedsBy(services.embed, model) ==> Modelled(store.rows, model)
    {
      wrote := false;
      var news: seq<Row> := [];
      if |chunks| > 0 {
        var texts := EmbeddedTexts(chunks);
        var vectors := services.embed(texts);
        if vectors == None {
          return false, false;
        }
        for i := 0 to |chunks|
          invariant |news| == i && news == NewRows(v, chunks, vectors.value)[..i]
        {
          news := news + [RowOf(chunks[i], v, vectors.value[i])];
        }
        ReplacedHolds(store.rows, v, chunks, vectors.value);
      }
      assert VectorsFor(chunks, services).Some? && news == NewRows(v, chunks, VectorsFor(chunks, services).value);
      ok, wrote := Write(v, chunks, news, services);
      if old(Modelled(store.rows, model)) && EmbedsBy(services.embed, model) {
        NewRowsModelled(v, chunks, services, model);
        StillModelled(old(store.rows), store.rows, v.doc.url, news, model);
      }
    }

    method EmbeddedTexts(chunks: seq<Chunk>) returns (texts: seq<string>)
      ensures texts == TextsOf(chunks)
    {
      texts := [];
      for i := 0 to |chunks|
        invariant texts == TextsOf(chunks)[..i]
      {
        texts := texts + [EmbeddingText(chunks[i].title, chunks[i].text)];
      }
    }

    /** Replaces the page's rows by those of its chunks. */
    method Write(v: Version, chunks: seq<Chunk>, news: seq<Row>, services: Services)
        returns (ok: bool, ghost wrote: bool)
      requires OwnIDs(store.rows) && ChunksOk(v.doc, chunks) && RowsShow(news, chunks, v)
      modifies store
      ensures OwnIDs(store.rows) && SameElsewhere(old(store.rows), store.rows, v.doc.url)
      ensures ok <==> old(store.Takes(v.doc.url, news, services.queryOk))
      ensures ok ==> store.rows == Replaced(old(store.rows), v.doc.url, news) && Stores(store.rows, v, chunks)
      ensures !ok && !wrote ==> store.rows == old(store.rows)
      ensures !ok && wrote ==> HalfStored(old(store.rows), store.rows, v, chunks)
      ensures TouchesOwn(old(store.rows), store.rows, v.doc.url, news)
    {
      ReplacedStores(store.rows, v, chunks, news);
      var r := store.Replace(v.doc.url, news, services.queryOk, services.writeLands);
      InterruptedKeeps(old(store.rows), store.rows, v, chunks, news);
      return r == Ok, r == StoreFailed;
    }
  }

  /** The sink that chunks a document unless its stored hash says it is indexed already. */
  class ChunkingSink {
    const chunker: ChunkerFor
    const next: VectorSink
    var hashes: map<string, Hash>

    constructor (chunker: ChunkerFor, next: VectorSink)
      ensures this.chunker == chunker && this.next == next && hashes == map[]
    {
      this.chunker := chunker;
      this.next := next;
      hashes := map[];
    }

    ghost function View(): State
      reads this, next.store
    {
      State(next.store.rows, hashes)
    }

    /** The document is skipped: the hash stored for its page can be read, and is its own. */
    predicate Skips(v: Version, services: Services)
      reads this
    {
      && !services.hashReadFails && v.doc.url in hashes
      && hashes[v.doc.url].fingerprint == v.fingerprint && hashes[v.doc.url].title == v.doc.title
      && hashes[v.doc.url].content == v.doc.content
    }

    method Submit(v: Version, services: Services, ghost model: string -> Vector)
        returns (ok: bool, ghost outcome: Outcome)
      requires ChunkerOk(chunker) && OwnIDs(next.store.rows) && EmbedsEach(services.embed)
      modifies this, next.store
      ensures Submitted(chunker, old(View()), v, outcome, View()) && OwnIDs(next.store.rows)
      ensures ok <==> outcome in {Unchanged, Unrecorded, Stored}
      ensures outcome == Unchanged <==> old(Skips(v, services))
      ensures ok <==> old(Skips(v, services)) || old(next.Accepts(v, chunker(v.fingerprint, v.doc), services))
      ensures outcome == Unrecorded ==> services.hashWriteFails && !services.hashWriteLands
      ensures outcome == Stored ==> !services.hashWriteFails || services.hashWriteLands
      ensures old(Modelled(next.store.rows, model)) && EmbedsBy(services.embed, model)
        ==> Modelled(next.store.rows, model)
    {
      var hash := HashOf(v);
      if !services.hashReadFails && v.doc.url in hashes && hashes[v.doc.url] == hash {
        return true, Unchanged;
      }
      var chunks := chunker(v.fingerprint, v.doc);
      ghost var wrote;
      ok, wrote := next.Submit(v, chunks, services, model);
      if !ok {
        return false, if wrote then Interrupted else Rejected;
      }
      if services.hashWriteFails && !services.hashWriteLands {
        return true, Unrecorded;
      }
      hashes := hashes[v.doc.url := hash];
      return true, Stored;
    }
  }

  // ---- When the stored hash can be believed ------------------------------------------------

  datatype Event = Event(v: Version, o: Outcome)

  /** These submissions, in this order, lead from an empty index to `s`. */
  ghost predicate Reached(chunker: ChunkerFor, events: seq<Event>, s: State) {
    if events == [] then s == State(map[], map[])
    else
      var n := |events| - 1;
      exists p :: Reached(chunker, events[..n], p) && Submitted(chunker, p, events[n].v, events[n].o, s)
  }

  /** Rows of the page were last changed by a submission that did not get as far as the hash. */
  predicate Tainted(events: seq<Event>, url: string) {
    if events == [] then false
    else
      var n := |events| - 1;
      var e := events[n];
      if e.v.doc.url != url || e.o in {Unchanged, Rejected} then Tainted(events[..n], url) else e.o != Stored
  }

  /** The version of a page its stored hash stands for. */
  function VersionOf(url: string, hash: Hash): Version {
    Version(hash.fingerprint, Document(url, hash.title, hash.content, ""))
  }

  /** If a hash is stored for the page, the rows of the page are the chunks of the version it is
      the hash of. */
  ghost predicate Agrees(chunker: ChunkerFor, s: State, url: string) {
    url in s.hashes ==>
      var v := VersionOf(url, s.hashes[url]);
      Stores(s.rows, v, chunker(v.fingerprint, v.doc))
  }

  lemma {:induction false} HashIsEnough(chunker: ChunkerFor, rows: Rows, v: Version)
    requires ChunkerOk(chunker)
    ensures var w := VersionOf(v.doc.url, HashOf(v));
      Stores(rows, v, chunker(v.fingerprint, v.doc)) <==> Stores(rows, w, chunker(w.fingerprint, w.doc))
  {
    var d := v.doc;
    assert chunker(v.fingerprint, Document(d.url, d.title, d.content, d.runID))
      == chunker(v.fingerprint, Document(d.url, d.title, d.content, ""));
  }

  lemma {:induction false} OthersStillStored(s: State, s': State, url: string, v: Version, chunks: seq<Chunk>)
    requires SameElsewhere(s.rows, s'.rows, url) && OwnIDs(s.rows) && OwnIDs(s'.rows) && v.doc.url != url
    requires ChunksOk(v.doc, chunks) && Stores(s.rows, v, chunks)
    ensures Stores(s'.rows, v, chunks)
  {
    forall i | 0 <= i < |chunks| ensures chunks[i].id in s'.rows && s'.rows[chunks[i].id] == s.rows[chunks[i].id] {
      assert chunks[i].id.url == v.doc.url;
    }
    forall id ensures id in IDsOf(s.rows, v.doc.url) <==> id in IDsOf(s'.rows, v.doc.url) {
    }
  }

  lemma {:induction false} ReachedOwnsIDs(chunker: ChunkerFor, events: seq<Event>, s: State)
    requires Reached(chunker, events, s)
    ensures OwnIDs(s.rows)
  {
    if events != [] {
      var n := |events| - 1;
      var p :| Reached(chunker, events[..n], p) && Submitted(chunker, p, events[n].v, events[n].o, s);
      ReachedOwnsIDs(chunker, events[..n], p);
    }
  }

  lemma {:induction false} AgreementKept(chunker: ChunkerFor, p: State, e: Event, s: State, url: string)
    requires ChunkerOk(chunker) && Submitted(chunker, p, e.v, e.o, s) && OwnIDs(p.rows) && OwnIDs(s.rows)
    requires e.v.doc.url != url || e.o in {Unchanged, Rejected} ==> Agrees(chunker, p, url)
    requires e.v.doc.url == url ==> e.o in {Unchanged, Rejected, Stored}
    ensures Agrees(chunker, s, url)
  {
    if e.v.doc.url != url {
      if url in p.hashes {
        var v := VersionOf(url, p.hashes[url]);
        if !(e.o in {Unchanged, Rejected}) {
          OthersStillStored(p, s, e.v.doc.url, v, chunker(v.fingerprint, v.doc));
        }
      }
    } else if e.o == Stored {
      HashIsEnough(chunker, s.rows, e.v);
    }
  }

  /** After any submissions, a stored hash is that of what is indexed, for every page whose last
      change was recorded. */
  lemma {:induction false} HashAgreesWithIndex(chunker: ChunkerFor, events: seq<Event>, s: State, url: string)
    requires ChunkerOk(chunker) && Reached(chunker, events, s) && !Tainted(events, url)
    ensures Agrees(chunker, s, url)
  {
    if events != [] {
      var n := |events| - 1;
      var e := events[n];
      var p :| Reached(chunker, events[..n], p) && Submitted(chunker, p, e.v, e.o, s);
      ReachedOwnsIDs(chunker, events[..n], p);
      ReachedOwnsIDs(chunker, events, s);
      if e.v.doc.url != url || e.o in {Unchanged, Rejected} {
        HashAgreesWithIndex(chunker, events[..n], p, url);
      }
      AgreementKept(chunker, p, e, s, url);
    }
  }

  /** A document whose submission succeeded is what is indexed for its page, unless it was skipped
      over a hash that an earlier, unrecorded change left behind. */
  lemma {:induction false} SubmittedIsIndexed(chunker: ChunkerFor, events: seq<Event>, s: State)
    requires ChunkerOk(chunker) && Reached(chunker, events, s) && events != []
    requires var e := events[|events| - 1];
      e.o in {Stored, Unrecorded} || (e.o == Unchanged && !Tainted(events, e.v.doc.url))
    ensures var v := events[|events| - 1].v;
      Stores(s.rows, v, chunker(v.fingerprint, v.doc))
  {
    var n := |events| - 1;
    var e := events[n];
    var p :| Reached(chunker, events[..n], p) && Submitted(chunker, p, e.v, e.o, s);
    if e.o == Unchanged {
      HashAgreesWithIndex(chunker, events, s, e.v.doc.url);
      HashIsEnough(chunker, s.rows, e.v);
    }
  }

  // ---- When it cannot ----------------------------------------------------------------------

  /** The last submission that may have changed the rows of the page. */
  function LastChange(events: seq<Event>, url: string): Option<Event> {
    if events == [] then None
    else
      var n := |events| - 1;
      var e := events[n];
      if e.v.doc.url != url || e.o in {Unchanged, Rejected} then LastChange(events[..n], url) else Some(e)
  }

  /** What replaced a page's rows last is what its rows show. */
  lemma {:induction false} LastChangeIsIndexed(chunker: ChunkerFor, events: seq<Event>, s: State, url: string)
    requires ChunkerOk(chunker) && Reached(chunker, events, s)
    requires LastChange(events, url).Some? && LastChange(events, url).value.o in {Unrecorded, Stored}
    ensures var v := LastChange(events, url).value.v;
      v.doc.url == url && Stores(s.rows, v, chunker(v.fingerprint, v.doc))
  {
    var n := |events| - 1;
    var e := events[n];
    var p :| Reached(chunker, events[..n], p) && Submitted(chunker, p, e.v, e.o, s);
    if e.v.doc.url != url || e.o in {Unchanged, Rejected} {
      var v := LastChange(events, url).value.v;
      LastChangeIsIndexed(chunker, events[..n], p, url);
      ReachedOwnsIDs(chunker, events[..n], p);
      ReachedOwnsIDs(chunker, events, s);
      if !(e.o in {Unchanged, Rejected}) {
        OthersStillStored(p, s, e.v.doc.url, v, chunker(v.fingerprint, v.doc));
      }
    }
  }

  /** A row shows the hash of its version, so rows that show two versions know one hash. */
  lemma {:induction false} OneHash(rows: Rows, v: Version, vChunks: seq<Chunk>, w: Version, wChunks: seq<Chunk>)
    requires v.doc.url == w.doc.url && Stores(rows, v, vChunks) && Stores(rows, w, wChunks) && wChunks != []
    ensures HashOf(v) == HashOf(w)
  {
    assert wChunks[0].id in ChunkIDs(wChunks);
    var i :| 0 <= i < |vChunks| && vChunks[i].id == wChunks[0].id;
    assert Shows(rows[vChunks[i].id], vChunks[i], v) && Shows(rows[wChunks[0].id], wChunks[0], w);
  }

  /** Rows show two versions of a page at once only if these have the same hash, or no chunks. */
  lemma {:induction false} BothStoredIff(rows: Rows, v: Version, vChunks: seq<Chunk>, w: Version, wChunks: seq<Chunk>)
    requires v.doc.url == w.doc.url && Stores(rows, w, wChunks)
    requires HashOf(v) == HashOf(w) ==> Stores(rows, v, vChunks)
    ensures Stores(rows, v, vChunks) <==> HashOf(v) == HashOf(w) || (vChunks == [] && wChunks == [])
  {
    if Stores(rows, v, vChunks) {
      if wChunks != [] {
        OneHash(rows, v, vChunks, w, wChunks);
      } else if vChunks != [] {
        OneHash(rows, w, wChunks, v, vChunks);
      }
    }
  }

  /** If the last change of a page was not recorded, the hash stored for it agrees with the index
      exactly if it is the hash of that change, or neither version has any chunks. */
  lemma {:induction false} UnrecordedAgreesIff(chunker: ChunkerFor, events: seq<Event>, s: State, url: string)
    requires ChunkerOk(chunker) && Reached(chunker, events, s) && url in s.hashes
    requires LastChange(events, url).Some? && LastChange(events, url).value.o == Unrecorded
    ensures var v, w := VersionOf(url, s.hashes[url]), LastChange(events, url).value.v;
      Agrees(chunker, s, url) <==>
        s.hashes[url] == HashOf(w) || (chunker(v.fingerprint, v.doc) == [] && chunker(w.fingerprint, w.doc) == [])
  {
    var v, w := VersionOf(url, s.hashes[url]), LastChange(events, url).value.v;
    LastChangeIsIndexed(chunker, events, s, url);
    HashIsEnough(chunker, s.rows, w);
    assert HashOf(v) == s.hashes[url];
    BothStoredIff(s.rows, v, chunker(v.fingerprint, v.doc), w, chunker(w.fingerprint, w.doc));
  }

  /** Any version can be submitted next, recorded or not. */
  lemma {:induction false} CanSubmit(chunker: ChunkerFor, events: seq<Event>, s: State, v: Version, o: Outcome)
      returns (s': State)
    requires ChunkerOk(chunker) && Reached(chunker, events, s) && o in {Unrecorded, Stored}
    ensures Reached(chunker, events + [Event(v, o)], s')
    ensures s'.hashes == if o == Stored then s.hashes[v.doc.url := HashOf(v)] else s.hashes
  {
    var chunks := chunker(v.fingerprint, v.doc);
    var news := seq(|chunks|, i requires 0 <= i < |chunks| => RowOf(chunks[i], v, []));
    ReachedOwnsIDs(chunker, events, s);
    assert ChunksOk(v.doc, chunks);
    ReplacedStores(s.rows, v, chunks, news);
    s' := State(Replaced(s.rows, v.doc.url, news), if o == Stored then s.hashes[v.doc.url := HashOf(v)] else s.hashes);
    ReachedNext(chunker, events, s, Event(v, o), s');
  }

  lemma {:induction false} ReachedNext(chunker: ChunkerFor, events: seq<Event>, s: State, e: Event, s': State)
    requires Reached(chunker, events, s) && Submitted(chunker, s, e.v, e.o, s')
    ensures Reached(chunker, events + [e], s')
  {
    var more := events + [e];
    assert more[..|more| - 1] == events;
    assert Reached(chunker, more[..|more| - 1], s) && Submitted(chunker, s, more[|more| - 1].v, more[|more| - 1].o, s');
  }

  /** The exception is real: in any history, after a change that was not recorded, going back to the
      version whose hash is still stored is taken for no change. */
  lemma {:induction false} OldHashSurvives(chunker: ChunkerFor, events: seq<Event>, s: State, v: Version, w: Version)
      returns (s': State)
    requires ChunkerOk(chunker) && Reached(chunker, events, s) && v.doc.url == w.doc.url
    requires v.doc.url in s.hashes && s.hashes[v.doc.url] == HashOf(v)
    ensures Reached(chunker, events + [Event(w, Unrecorded)] + [Event(v, Unchanged)], s')
    ensures Stores(s'.rows, v, chunker(v.fingerprint, v.doc))
      <==> HashOf(v) == HashOf(w) || (chunker(v.fingerprint, v.doc) == [] && chunker(w.fingerprint, w.doc) == [])
  {
    s' := CanSubmit(chunker, events, s, w, Unrecorded);
    ReachedNext(chunker, events + [Event(w, Unrecorded)], s', Event(v, Unchanged), s');
    LastOfTwo(events, w, v);
    UnrecordedAgreesIff(chunker, events + [Event(w, Unrecorded)] + [Event(v, Unchanged)], s', v.doc.url);
    SameVersion(chunker, s'.rows, v);
  }

  lemma {:induction false} LastOfTwo(events: seq<Event>, w: Version, v: Version)
    ensures LastChange(events + [Event(w, Unrecorded)] + [Event(v, Unchanged)], w.doc.url) == Some(Event(w, Unrecorded))
  {
    var one := events + [Event(w, Unrecorded)];
    var two := one + [Event(v, Unchanged)];
    assert one[..|one| - 1] == events && two[..|two| - 1] == one;
  }

  /** The chunks of a version are those of what its hash stands for. */
  lemma {:induction false} SameVersion(chunker: ChunkerFor, rows: Rows, v: Version)
    requires ChunkerOk(chunker)
    ensures var w := VersionOf(v.doc.url, HashOf(v));
      && chunker(w.fingerprint, w.doc) == chunker(v.fingerprint, v.doc)
      && (Stores(rows, v, chunker(v.fingerprint, v.doc)) <==> Stores(rows, w, chunker(w.fingerprint, w.doc)))
  {
    var d := v.doc;
    HashIsEnough(chunker, rows, v);
    assert chunker(v.fingerprint, Document(d.url, d.title, d.content, d.runID))
      == chunker(v.fingerprint, Document(d.url, d.title, d.content, ""));
  }

  /** From an empty index: a version is stored, another one replaces it unrecorded, and the first
      comes back. The index holds it in all such histories exactly if the two have the same hash
      or no chunks. */
  lemma {:induction false} GoingBackIff(chunker: ChunkerFor, v: Version, w: Version)
    requires ChunkerOk(chunker) && v.doc.url == w.doc.url
    ensures (forall s | Reached(chunker, [Event(v, Stored)] + [Event(w, Unrecorded)] + [Event(v, Unchanged)], s) ::
                Stores(s.rows, v, chunker(v.fingerprint, v.doc)))
      <==> HashOf(v) == HashOf(w) || (chunker(v.fingerprint, v.doc) == [] && chunker(w.fingerprint, w.doc) == [])
  {
    var events := [Event(v, Stored)] + [Event(w, Unrecorded)] + [Event(v, Unchanged)];
    var p := CanSubmit(chunker, [], State(map[], map[]), v, Stored);
    assert [] + [Event(v, Stored)] == [Event(v, Stored)];
    var s' := OldHashSurvives(chunker, [Event(v, Stored)], p, v, w);
    forall s | Reached(chunker, events, s)
      ensures Stores(s.rows, v, chunker(v.fingerprint, v.doc))
        <==> HashOf(v) == HashOf(w) || (chunker(v.fingerprint, v.doc) == [] && chunker(w.fingerprint, w.doc) == [])
    {
      LastOfTwo([Event(v, Stored)], w, v);
      StillHashed(chunker, events, s, v);
      UnrecordedAgreesIff(chunker, events, s, v.doc.url);
      SameVersion(chunker, s.rows, v);
    }
    assert Reached(chunker, events, s');
  }

  lemma {:induction false} StillHashed(chunker: ChunkerFor, events: seq<Event>, s: State, v: Version)
    requires Reached(chunker, events, s) && events != [] && events[|events| - 1] == Event(v, Unchanged)
    ensures v.doc.url in s.hashes && s.hashes[v.doc.url] == HashOf(v)
  {
  }

  // ---- When rows were left half replaced -----------------------------------------------------

  /** These submissions lead from `p` to `s`. */
  ghost predicate Leads(chunker: ChunkerFor, p: State, events: seq<Event>, s: State) {
    if events == [] then s == p
    else
      var n := |events| - 1;
      exists q :: Leads(chunker, p, events[..n], q) && Submitted(chunker, q, events[n].v, events[n].o, s)
  }

  predicate Changes(e: Event, url: string) {
    e.v.doc.url == url && !(e.o in {Unchanged, Rejected})
  }

  /** Whatever changes the page is of another hash and does not get as far as recording it. */
  ghost predicate OnlyOthers(events: seq<Event>, url: string, hash: Hash) {
    forall e | e in events && Changes(e, url) :: e.o != Stored && HashOf(e.v) != hash
  }

  /** No row of the page was written or deleted. */
  ghost predicate SamePage(rows: Rows, after: Rows, url: string) {
    forall id: ChunkID | id.url == url :: (id in rows <==> id in after) && (id in rows ==> after[id] == rows[id])
  }

  /** The rows of the page are old ones, or show another hash. */
  ghost predicate OldOrOther(rows: Rows, after: Rows, url: string, hash: Hash) {
    forall id | id in after && id.url == url :: (id in rows && after[id] == rows[id]) || after[id].contentHash != hash
  }

  lemma {:induction false} HalfStoredRows(rows: Rows, after: Rows, v: Version, chunks: seq<Chunk>)
    requires HalfStored(rows, after, v, chunks)
    ensures forall id | id in after && !(id in rows && after[id] == rows[id]) ::
      exists i :: 0 <= i < |chunks| && chunks[i].id == id && Shows(after[id], chunks[i], v)
    ensures forall id | id in rows && id in ChunkIDs(chunks) :: id in after
  {
    var news: seq<Row> :| RowsShow(news, chunks, v) && HalfReplaced(rows, after, v.doc.url, news);
    HalfReplacedTouches(rows, after, v.doc.url, news);
    SameIDs(v, chunks, news);
    forall id | id in after && !(id in rows && after[id] == rows[id])
      ensures exists i :: 0 <= i < |chunks| && chunks[i].id == id && Shows(after[id], chunks[i], v)
    {
      var i :| 0 <= i < |news| && news[i] == after[id];
      assert Shows(news[i], chunks[i], v);
    }
  }

  /** Rows a version left behind, whole or half, show its hash. */
  lemma {:induction false} OthersShowTheirs(chunker: ChunkerFor, p: State, e: Event, s: State, url: string, hash: Hash)
    requires ChunkerOk(chunker) && Submitted(chunker, p, e.v, e.o, s) && Changes(e, url)
    requires e.o != Stored && HashOf(e.v) != hash && OwnIDs(p.rows)
    ensures OldOrOther(p.rows, s.rows, url, hash)
  {
    var chunks := chunker(e.v.fingerprint, e.v.doc);
    if e.o == Interrupted {
      HalfStoredRows(p.rows, s.rows, e.v, chunks);
    } else {
      forall id | id in s.rows && id.url == url ensures s.rows[id].contentHash != hash {
        assert id in IDsOf(s.rows, url);
      }
    }
  }

  lemma {:induction false} LeadsKeepsHash(chunker: ChunkerFor, p: State, events: seq<Event>, s: State, url: string,
      hash: Hash)
    requires ChunkerOk(chunker) && Leads(chunker, p, events, s) && OnlyOthers(events, url, hash) && OwnIDs(p.rows)
    ensures OwnIDs(s.rows) && (url in s.hashes <==> url in p.hashes)
    ensures url in p.hashes ==> s.hashes[url] == p.hashes[url]
    ensures OldOrOther(p.rows, s.rows, url, hash)
  {
    if events != [] {
      var n := |events| - 1;
      var e := events[n];
      var q :| Leads(chunker, p, events[..n], q) && Submitted(chunker, q, e.v, e.o, s);
      assert forall d | d in events[..n] :: d in events;
      LeadsKeepsHash(chunker, p, events[..n], q, url, hash);
      assert e in events;
      if Changes(e, url) {
        OthersShowTheirs(chunker, q, e, s, url, hash);
      }
    }
  }

  lemma {:induction false} SamePageStores(rows: Rows, after: Rows, v: Version, chunks: seq<Chunk>)
    requires OwnIDs(rows) && OwnIDs(after) && ChunksOk(v.doc, chunks)
    requires Stores(rows, v, chunks) && SamePage(rows, after, v.doc.url)
    ensures Stores(after, v, chunks)
  {
    forall i | 0 <= i < |chunks| ensures chunks[i].id in after && after[chunks[i].id] == rows[chunks[i].id] {
      assert chunks[i].id.url == v.doc.url;
    }
    forall id ensures id in IDsOf(after, v.doc.url) <==> id in IDsOf(rows, v.doc.url) {
    }
  }

  lemma {:induction false} StoresSamePage(rows: Rows, after: Rows, v: Version, chunks: seq<Chunk>)
    requires OwnIDs(rows) && OwnIDs(after) && ChunksOk(v.doc, chunks)
    requires Stores(rows, v, chunks) && Stores(after, v, chunks) && OldOrOther(rows, after, v.doc.url, HashOf(v))
    ensures SamePage(rows, after, v.doc.url)
  {
    forall id: ChunkID | id.url == v.doc.url
      ensures (id in rows <==> id in after) && (id in rows ==> after[id] == rows[id])
    {
      assert id in IDsOf(rows, v.doc.url) <==> id in IDsOf(after, v.doc.url);
      if id in after {
        assert id in ChunkIDs(chunks);
        var i :| 0 <= i < |chunks| && chunks[i].id == id;
        assert Shows(after[chunks[i].id], chunks[i], v);
      }
    }
  }

  /** While the stored hash agrees with the index, and then only versions of another hash are put in
      its place, whole or half and never recorded, it goes on to agree exactly if no row of the page
      was written or deleted. */
  lemma {:induction false} AgreesIffUntouched(chunker: ChunkerFor, before: seq<Event>, p: State, events: seq<Event>,
      s: State, url: string)
    requires ChunkerOk(chunker) && Reached(chunker, before, p) && Leads(chunker, p, events, s)
    requires url in p.hashes && Agrees(chunker, p, url) && OnlyOthers(events, url, p.hashes[url])
    ensures Agrees(chunker, s, url) <==> SamePage(p.rows, s.rows, url)
  {
    var v := VersionOf(url, p.hashes[url]);
    assert HashOf(v) == p.hashes[url];
    ReachedOwnsIDs(chunker, before, p);
    LeadsKeepsHash(chunker, p, events, s, url, p.hashes[url]);
    if Agrees(chunker, s, url) {
      StoresSamePage(p.rows, s.rows, v, chunker(v.fingerprint, v.doc));
    } else if SamePage(p.rows, s.rows, url) {
      SamePageStores(p.rows, s.rows, v, chunker(v.fingerprint, v.doc));
    }
  }

  /** Half a replacement by the version that is stored changes nothing that rows show. */
  lemma {:induction false} SameHalfStores(rows: Rows, after: Rows, v: Version, chunks: seq<Chunk>)
    requires OwnIDs(rows) && OwnIDs(after) && ChunksOk(v.doc, chunks)
    requires Stores(rows, v, chunks) && HalfStored(rows, after, v, chunks)
    ensures Stores(after, v, chunks)
  {
    HalfStoredRows(rows, after, v, chunks);
    forall i | 0 <= i < |chunks| ensures chunks[i].id in after && Shows(after[chunks[i].id], chunks[i], v) {
      var id := chunks[i].id;
      assert id in ChunkIDs(chunks);
      if !(id in rows && after[id] == rows[id]) {
        var j :| 0 <= j < |chunks| && chunks[j].id == id && Shows(after[id], chunks[j], v);
        assert i == j;
      }
    }
    forall id ensures id in IDsOf(after, v.doc.url) <==> id in ChunkIDs(chunks) {
      assert id in rows && rows[id].url == v.doc.url ==> id in IDsOf(rows, v.doc.url);
    }
  }

  lemma {:induction false} OneLeads(chunker: ChunkerFor, p: State, e: Event, s: State)
    requires Submitted(chunker, p, e.v, e.o, s)
    ensures Leads(chunker, p, [e], s)
  {
    var one := [e];
    assert one[..|one| - 1] == [];
    assert Leads(chunker, p, one[..|one| - 1], p) && Submitted(chunker, p, one[|one| - 1].v, one[|one| - 1].o, s);
  }

  /** After a replacement that was interrupted, the hash stored before agrees exactly if it is that of
      the version put in its place, or no row of the page was written or deleted. */
  lemma {:induction false} InterruptedAgreesIff(chunker: ChunkerFor, before: seq<Event>, p: State, w: Version, s: State)
    requires ChunkerOk(chunker) && Reached(chunker, before, p) && !Tainted(before, w.doc.url)
    requires w.doc.url in p.hashes && Submitted(chunker, p, w, Interrupted, s)
    ensures Agrees(chunker, s, w.doc.url)
      <==> p.hashes[w.doc.url] == HashOf(w) || SamePage(p.rows, s.rows, w.doc.url)
  {
    var url := w.doc.url;
    HashAgreesWithIndex(chunker, before, p, url);
    if p.hashes[url] == HashOf(w) {
      HashIsEnough(chunker, p.rows, w);
      ReachedOwnsIDs(chunker, before, p);
      SameHalfStores(p.rows, s.rows, w, chunker(w.fingerprint, w.doc));
      HashIsEnough(chunker, s.rows, w);
    } else {
      OneLeads(chunker, p, Event(w, Interrupted), s);
      AgreesIffUntouched(chunker, before, p, [Event(w, Interrupted)], s, url);
    }
  }

  /** The last write fails, and takes effect: all rows are replaced. */
  lemma {:induction false} CanBeInterrupted(chunker: ChunkerFor, before: seq<Event>, p: State, w: Version)
      returns (s: State)
    requires ChunkerOk(chunker) && Reached(chunker, before, p)
    ensures Submitted(chunker, p, w, Interrupted, s) && Stores(s.rows, w, chunker(w.fingerprint, w.doc))
  {
    var chunks := chunker(w.fingerprint, w.doc);
    var news := seq(|chunks|, i requires 0 <= i < |chunks| => RowOf(chunks[i], w, []));
    ReachedOwnsIDs(chunker, before, p);
    assert ChunksOk(w.doc, chunks) && RowsShow(news, chunks, w);
    ReplacedStores(p.rows, w, chunks, news);
    s := State(Replaced(p.rows, w.doc.url, news), p.hashes);
    DeletedIsHalf(p.rows, s.rows, w.doc.url, news, IDsOf(p.rows, w.doc.url) - IDs(news));
  }

  /** Putting another version in place of a recorded one can be interrupted so that the hash stored
      no longer agrees, exactly if the hashes differ and one of the versions has chunks. */
  lemma {:induction false} InterruptionHarmsIff(chunker: ChunkerFor, before: seq<Event>, p: State, w: Version)
    requires ChunkerOk(chunker) && Reached(chunker, before, p) && !Tainted(before, w.doc.url)
    requires w.doc.url in p.hashes
    ensures var v := VersionOf(w.doc.url, p.hashes[w.doc.url]);
      (exists s :: Submitted(chunker, p, w, Interrupted, s) && !Agrees(chunker, s, w.doc.url))
        <==> HashOf(w) != HashOf(v) && !(chunker(v.fingerprint, v.doc) == [] && chunker(w.fingerprint, w.doc) == [])
  {
    var v := VersionOf(w.doc.url, p.hashes[w.doc.url]);
    var vChunks, wChunks := chunker(v.fingerprint, v.doc), chunker(w.fingerprint, w.doc);
    HashAgreesWithIndex(chunker, before, p, w.doc.url);
    if HashOf(w) != HashOf(v) && !(vChunks == [] && wChunks == []) {
      var s := CanBeInterrupted(chunker, before, p, w);
      BothStoredIff(s.rows, v, vChunks, w, wChunks);
      assert !Agrees(chunker, s, w.doc.url);
    } else {
      forall s | Submitted(chunker, p, w, Interrupted, s) ensures Agrees(chunker, s, w.doc.url) {
        InterruptedAgreesIff(chunker, before, p, w, s);
        if HashOf(w) != HashOf(v) {
          NothingToReplace(p.rows, s.rows, w, wChunks, vChunks);
        }
      }
    }
  }

  lemma {:induction false} NothingToReplace(rows: Rows, after: Rows, w: Version, wChunks: seq<Chunk>,
      vChunks: seq<Chunk>)
    requires HalfStored(rows, after, w, wChunks) && wChunks == [] && vChunks == [] && OwnIDs(rows)
    requires IDsOf(rows, w.doc.url) == ChunkIDs(vChunks)
    ensures SamePage(rows, after, w.doc.url)
  {
    HalfStoredRows(rows, after, w, wChunks);
    forall id: ChunkID | id.url == w.doc.url ensures id !in rows && id !in after {
      assert id !in IDsOf(rows, w.doc.url);
    }
  }

  /** So it is real: in any history in which this version is recorded, half of another one, and then
      this version again, is taken for no change though its rows are not what is indexed. */
  lemma {:induction false} HalfReplacedIsSkipped(chunker: ChunkerFor, before: seq<Event>, p: State, v: Version,
      w: Version) returns (s: State)
    requires ChunkerOk(chunker) && Reached(chunker, before, p) && !Tainted(before, v.doc.url)
    requires v.doc.url == w.doc.url && v.doc.url in p.hashes && p.hashes[v.doc.url] == HashOf(v)
    requires HashOf(w) != HashOf(v) && !(chunker(v.fingerprint, v.doc) == [] && chunker(w.fingerprint, w.doc) == [])
    ensures Reached(chunker, before + [Event(w, Interrupted)] + [Event(v, Unchanged)], s)
    ensures !Stores(s.rows, v, chunker(v.fingerprint, v.doc))
  {
    s := CanBeInterrupted(chunker, before, p, w);
    ReachedNext(chunker, before, p, Event(w, Interrupted), s);
    ReachedNext(chunker, before + [Event(w, Interrupted)], s, Event(v, Unchanged), s);
    SameVersion(chunker, s.rows, v);
    BothStoredIff(s.rows, v, chunker(v.fingerprint, v.doc), w, chunker(w.fingerprint, w.doc));
  }

  /** From an empty index: a version is stored, half of another one replaces it, and the first comes
      back to find itself unchanged. */
  lemma {:induction false} HalfReplacedFromEmpty(chunker: ChunkerFor, v: Version, w: Version) returns (s: State)
    requires ChunkerOk(chunker) && v.doc.url == w.doc.url
    requires HashOf(w) != HashOf(v) && !(chunker(v.fingerprint, v.doc) == [] && chunker(w.fingerprint, w.doc) == [])
    ensures Reached(chunker, [Event(v, Stored)] + [Event(w, Interrupted)] + [Event(v, Unchanged)], s)
    ensures !Stores(s.rows, v, chunker(v.fingerprint, v.doc))
  {
    var p := CanSubmit(chunker, [], State(map[], map[]), v, Stored);
    assert [] + [Event(v, Stored)] == [Event(v, Stored)];
    s := HalfReplacedIsSkipped(chunker, [Event(v, Stored)], p, v, w);
  }
}
