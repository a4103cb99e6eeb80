/** The chunker: a document's content to the chunks that are embedded and stored. */
module Chunker {
  import opened Text
  import opened Split
  import opened Units
  import opened Pack

  datatype Document = Document(url: string, title: string, content: string, runID: string)

  /** What a chunk's id is the hash of. */
  datatype ChunkID = ChunkID(url: string, embeddingText: string)

  datatype Chunk = Chunk(id: ChunkID, url: string, title: string, ordinal: nat, text: string)

  function EmbeddingText(title: string, text: string): string {
    if title == "" then text else title + ParagraphSeparator + text
  }

  function ChunkOf(doc: Document, text: string, ordinal: nat): Chunk {
    Chunk(ChunkID(doc.url, EmbeddingText(doc.title, text)), doc.url, doc.title, ordinal, text)
  }

  /** Texts in order of their first occurrence. */
  function Distinct(texts: seq<string>): seq<string> {
    if texts == [] then []
    else
      var before, last := Distinct(texts[..|texts| - 1]), texts[|texts| - 1];
      if last in before then before else before + [last]
  }

  lemma {:induction false} DistinctAppend(texts: seq<string>, text: string)
    ensures Distinct(texts + [text]) == if text in Distinct(texts) then Distinct(texts) else Distinct(texts) + [text]
  {
    assert (texts + [text])[..|texts|] == texts;
  }

  ghost predicate NoDuplicates(texts: seq<string>) {
    forall i, j | 0 <= i < j < |texts| :: texts[i] != texts[j]
  }

  lemma {:induction false} DistinctKeepsAll(texts: seq<string>)
    ensures NoDuplicates(Distinct(texts))
    ensures forall t :: t in Distinct(texts) <==> t in texts
  {
    if texts != [] {
      var n := |texts| - 1;
      DistinctKeepsAll(texts[..n]);
      assert texts == texts[..n] + [texts[n]];
    }
  }

  lemma {:induction false} SameIDSameText(doc: Document, a: string, b: string, i: nat, j: nat)
    ensures ChunkOf(doc, a, i).id == ChunkOf(doc, b, j).id <==> a == b
  {
    var lead := doc.title + ParagraphSeparator;
    if doc.title != "" && lead + a == lead + b {
      assert a == (lead + a)[|lead|..] == (lead + b)[|lead|..] == b;
    }
  }

  function ContentRunes(paragraphs: seq<string>): nat {
    if paragraphs == [] then 0 else ContentRunes(paragraphs[..|paragraphs| - 1]) + |paragraphs[|paragraphs| - 1]|
  }

  method CountRunes(paragraphs: seq<string>) returns (total: nat)
    ensures total == ContentRunes(paragraphs)
  {
    total := 0;
    for i := 0 to |paragraphs|
      invariant total == ContentRunes(paragraphs[..i])
    {
      assert paragraphs[..i + 1][..i] == paragraphs[..i];
      total := total + |paragraphs[i]|;
    }
    assert paragraphs[..|paragraphs|] == paragraphs;
  }

  function ChunksOf(doc: Document, texts: seq<string>): seq<Chunk> {
    seq(|texts|, i requires 0 <= i < |texts| => ChunkOf(doc, texts[i], i))
  }

  /** The chunks of the first `i` texts, and the ids seen. */
  ghost predicate NumberedSoFar(doc: Document, texts: seq<string>, i: nat, chunks: seq<Chunk>, seen: set<ChunkID>) {
    && i <= |texts| && chunks == ChunksOf(doc, Distinct(texts[..i]))
    && forall t :: t in Distinct(texts[..i]) <==> ChunkOf(doc, t, 0).id in seen
  }

  lemma {:induction false} OneMoreText(doc: Document, texts: seq<string>, i: nat, chunks: seq<Chunk>,
      seen: set<ChunkID>)
    requires i < |texts| && NumberedSoFar(doc, texts, i, chunks, seen)
    ensures var chunk := ChunkOf(doc, texts[i], 0);
      if chunk.id in seen then NumberedSoFar(doc, texts, i + 1, chunks, seen)
      else NumberedSoFar(doc, texts, i + 1, chunks + [chunk.(ordinal := |chunks|)], seen + {chunk.id})
  {
    assert texts[..i + 1] == texts[..i] + [texts[i]];
    DistinctAppend(texts[..i], texts[i]);
    forall t ensures ChunkOf(doc, t, 0).id == ChunkOf(doc, texts[i], 0).id <==> t == texts[i] {
      SameIDSameText(doc, t, texts[i], 0, 0);
    }
    ChunksOfAppend(doc, Distinct(texts[..i]), texts[i]);
  }

  lemma {:induction false} ChunksOfAppend(doc: Document, texts: seq<string>, text: string)
    ensures ChunksOf(doc, texts + [text]) == ChunksOf(doc, texts) + [ChunkOf(doc, text, |texts|)]
  {
  }

  /** One chunk for every different text, numbered in order. */
  method NumberChunks(doc: Document, texts: seq<string>) returns (chunks: seq<Chunk>)
    ensures chunks == ChunksOf(doc, Distinct(texts))
  {
    chunks := [];
    var seen: set<ChunkID> := {};
    for i := 0 to |texts|
      invariant NumberedSoFar(doc, texts, i, chunks, seen)
    {
      OneMoreText(doc, texts, i, chunks, seen);
      var chunk := ChunkOf(doc, texts[i], 0);
      if chunk.id !in seen {
        seen := seen + {chunk.id};
        chunks := chunks + [chunk.(ordinal := |chunks|)];
      }
    }
    assert texts[..|texts|] == texts;
  }

  /** The paragraphs of a document: its blocks of lines, normalised, and without a word lost, added
      or moved. */
  ghost predicate ParagraphsOf(doc: Document, paragraphs: seq<string>) {
    && Blocks(Reduced(SplitAt(doc.content, '\n')), paragraphs)
    && (forall p | p in paragraphs :: NormalParagraph(p)) && WordsOf(paragraphs) == Words(doc.content)
  }

  predicate TooSmall(paragraphs: seq<string>, settings: Settings) {
    paragraphs == [] || ContentRunes(paragraphs) < settings.minDocumentRunes
  }

  /** How a document was cut: its paragraphs, their units, and the units each text holds. */
  ghost predicate CutFrom(doc: Document, paragraphs: seq<string>, units: seq<Unit>, intervals: seq<Interval>,
      settings: Settings) {
    && ParagraphsOf(doc, paragraphs)
    && UnitsFor(units, Join(paragraphs, ParagraphSeparator), paragraphs, |paragraphs|, settings.maxRunes)
    && CutUp(paragraphs, settings.maxRunes, units)
    && Packing(units, intervals, settings)
  }

  /** The chunks of a document that was cut like this. */
  ghost predicate ChunkedLike(doc: Document, chunks: seq<Chunk>, paragraphs: seq<string>, units: seq<Unit>,
      intervals: seq<Interval>, settings: Settings) {
    && ParagraphsOf(doc, paragraphs)
    && if TooSmall(paragraphs, settings) then chunks == []
       else
         && CutFrom(doc, paragraphs, units, intervals, settings)
         && chunks == ChunksOf(doc, Distinct(Texts(units, intervals)))
  }

  method MakeChunks(doc: Document, settings: Settings)
      returns (chunks: seq<Chunk>, ghost paragraphs: seq<string>, ghost units: seq<Unit>,
        ghost intervals: seq<Interval>)
    requires Valid(settings)
    ensures ChunkedLike(doc, chunks, paragraphs, units, intervals, settings)
    ensures exists ps, us, cs :: ChunkedLike(doc, chunks, ps, us, cs, settings)
  {
    var ps := SplitParagraphs(doc.content);
    paragraphs, units, intervals := ps, [], [];
    var total := CountRunes(ps);
    if |ps| == 0 || total < settings.minDocumentRunes {
      chunks := [];
      assert ChunkedLike(doc, chunks, paragraphs, units, intervals, settings);
      return;
    }
    var us := ToUnits(ps, settings.maxRunes);
    units := us;
    var texts;
    texts, intervals := PackUnits(us, settings);
    chunks := NumberChunks(doc, texts);
    assert ChunkedLike(doc, chunks, paragraphs, units, intervals, settings);
  }

  lemma {:induction false} TextIsOfChunk(units: seq<Unit>, intervals: seq<Interval>, t: string)
    requires t in Texts(units, intervals)
    ensures exists i | 0 <= i < |intervals| :: t == ChunkText(units, intervals[i])
  {
    var n := |intervals| - 1;
    if t != ChunkText(units, intervals[n]) {
      TextIsOfChunk(units, intervals[..n], t);
      var i :| 0 <= i < n && t == ChunkText(units, intervals[..n][i]);
      assert intervals[i] == intervals[..n][i];
    }
  }

  /** Every chunk is a part of the normalised document, of at most the allowed size, under an id no
      other chunk of the document has. */
  lemma {:induction false} ChunksAreParts(doc: Document, paragraphs: seq<string>, units: seq<Unit>,
      intervals: seq<Interval>, settings: Settings, k: nat)
    requires CutFrom(doc, paragraphs, units, intervals, settings)
    requires k < |ChunksOf(doc, Distinct(Texts(units, intervals)))|
    ensures var chunks := ChunksOf(doc, Distinct(Texts(units, intervals)));
      && IsSubstring(chunks[k].text, Join(paragraphs, ParagraphSeparator))
      && 1 <= |chunks[k].text| <= settings.maxRunes
      && chunks[k].ordinal == k && chunks[k].url == doc.url
      && forall j: nat | j < |chunks| && j != k :: chunks[j].id != chunks[k].id
  {
    var texts := Distinct(Texts(units, intervals));
    DistinctKeepsAll(Texts(units, intervals));
    assert texts[k] in texts;
    TextIsOfChunk(units, intervals, texts[k]);
    var i :| 0 <= i < |intervals| && texts[k] == ChunkText(units, intervals[i]);
    ChunksFit(units, intervals, i, settings);
    IntervalIsSubstring(units, intervals[i].from, intervals[i].to);
    forall j: nat | j < |texts| && j != k ensures ChunkOf(doc, texts[j], j).id != ChunkOf(doc, texts[k], k).id {
      SameIDSameText(doc, texts[j], texts[k], j, k);
    }
  }

  /** No packed text is lost to the removal of duplicates. */
  lemma {:induction false} EveryTextHasAChunk(doc: Document, units: seq<Unit>, intervals: seq<Interval>, i: nat)
    requires i < |intervals|
    ensures exists k | 0 <= k < |ChunksOf(doc, Distinct(Texts(units, intervals)))| ::
      ChunksOf(doc, Distinct(Texts(units, intervals)))[k].text == ChunkText(units, intervals[i])
  {
    TextsHasAll(units, intervals, i);
    var texts := Distinct(Texts(units, intervals));
    DistinctKeepsAll(Texts(units, intervals));
    assert ChunkText(units, intervals[i]) in texts;
    var k :| 0 <= k < |texts| && texts[k] == ChunkText(units, intervals[i]);
    assert ChunksOf(doc, texts)[k].text == texts[k];
  }

  lemma {:induction false} TextsHasAll(units: seq<Unit>, intervals: seq<Interval>, i: nat)
    requires i < |intervals|
    ensures ChunkText(units, intervals[i]) in Texts(units, intervals)
  {
    if i < |intervals| - 1 {
      TextsHasAll(units, intervals[..|intervals| - 1], i);
    }
  }
}
