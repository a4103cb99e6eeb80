/** Where a text is cut, said with the very characters: what parts words, what ends a sentence, and
    which documents are too small to have chunks. */
module ChunkLaws {
  import opened Text
  import opened Split
  import opened Units
  import opened Pack
  import opened Chunker
  import opened UniqueChunks

  /** What parts words. */
  const Blanks := "\t\n\U{0B}\U{0C}\r \U{85}\U{A0}\U{1680}\U{2000}\U{2001}\U{2002}\U{2003}\U{2004}\U{2005}\U{2006}"
    + "\U{2007}\U{2008}\U{2009}\U{200A}\U{2028}\U{2029}\U{202F}\U{205F}\U{3000}"

  /** What ends a sentence, and what may follow before the blank. */
  const Terminators := ".!?\U{2026}"
  const Closers := "\"')]}\U{BB}\U{201D}\U{2019}"

  // ---- Words -------------------------------------------------------------------------------

  lemma {:induction false} BlankIff(c: char)
    ensures IsSpace(c) <==> c in Blanks
  {
    if '\U{2000}' <= c <= '\U{200A}' {
      var n := c as int - 0x2000;
      assert c == Blanks[9 + n];
    }
  }

  lemma {:induction false} NoBlankIn(w: string)
    requires forall c | c in w :: c !in Blanks
    ensures forall c | c in w :: !IsSpace(c)
  {
    forall c | c in w ensures !IsSpace(c) {
      BlankIff(c);
    }
  }

  /** A character between two words parts them if and only if it is one of the blanks; a text without
      one is a single word. */
  lemma {:induction false} BlanksPartWords(v: string, c: char, w: string)
    requires v != "" && w != "" && (forall x | x in v :: x !in Blanks) && forall x | x in w :: x !in Blanks
    ensures Words(v + [c] + w) == if c in Blanks then [v, w] else [v + [c] + w]
  {
    NoBlankIn(v);
    NoBlankIn(w);
    BlankIff(c);
    assert "" + v == v && "" + w == w;
    WordRunsOn(v, "");
    WordRunsOn(w, "");
    if c in Blanks {
      WordsAcrossSpace(v, c, w, "");
    } else {
      var all := v + [c] + w;
      assert "" + all == all;
      WordRunsOn(all, "");
    }
  }

  // ---- Sentences ---------------------------------------------------------------------------

  /** Just before k a sentence may end: a terminator, and then only terminators and closers. */
  ghost predicate MayEndAt(line: string, k: nat)
    requires k <= |line|
  {
    exists t: nat | t < k :: line[t] in Terminators && forall j | t < j < k :: line[j] in Terminators + Closers
  }

  /** The first of these sentences end together at k. */
  ghost predicate CutAt(sentences: seq<string>, k: nat) {
    exists m | 0 < m < |sentences| :: |Join(sentences[..m], " ")| == k
  }

  lemma {:induction false} EndersAre(c: char)
    ensures IsTerminator(c) <==> c in Terminators
    ensures EndsRun(c) <==> c in Terminators + Closers
  {
    assert IsCloser(c) <==> c in Closers;
  }

  lemma {:induction false} MayEndIsRun(line: string, k: nat)
    requires k <= |line|
    ensures MayEndAt(line, k) <==> exists t :: Run(line, t, k)
  {
    forall c: char ensures IsTerminator(c) <==> c in Terminators {
      EndersAre(c);
    }
    forall c: char ensures EndsRun(c) <==> c in Terminators + Closers {
      EndersAre(c);
    }
    if MayEndAt(line, k) {
      var t: nat :| t < k && line[t] in Terminators && forall j | t < j < k :: line[j] in Terminators + Closers;
      assert Run(line, t, k);
    }
  }

  lemma {:induction false} CutsAreInFront(line: string, sentences: seq<string>, m: nat)
    requires SentencesOf(line, sentences) && 0 < m < |sentences|
    ensures |Join(sentences[..m], " ")| < |line| - |sentences[|sentences| - 1]|
    decreases |sentences|
  {
    var n := |sentences| - 1;
    LastIsSuffix(line, sentences);
    if m < n {
      FrontSentences(line, sentences);
      CutsAreInFront(Join(sentences[..n], " "), sentences[..n], m);
      assert sentences[..n][..m] == sentences[..m];
    }
  }

  /** Inside the last sentence there is no boundary, also not with a terminator in front of it. */
  lemma {:induction false} NoneInLast(line: string, sentences: seq<string>, k: nat)
    requires SentencesOf(line, sentences) && k < |line| && line[k] == ' '
    requires k >= |line| - |sentences[|sentences| - 1]|
    ensures !MayEndAt(line, k) && !CutAt(sentences, k)
  {
    var last := sentences[|sentences| - 1];
    var p := |line| - |last|;
    LastIsSuffix(line, sentences);
    assert last in sentences;
    MayEndIsRun(line, k);
    forall t ensures !Run(line, t, k) {
      if Run(line, t, k) {
        if p <= t {
          RunIntoSuffix(line, t, k, p);
        } else {
          StartsBehindRun(line, t, k, p);
        }
      }
    }
    forall m | 0 < m < |sentences| ensures |Join(sentences[..m], " ")| != k {
      CutsAreInFront(line, sentences, m);
    }
  }

  lemma {:induction false} MayEndInFront(line: string, front: string, k: nat)
    requires k <= |front| <= |line| && line[..|front|] == front
    ensures MayEndAt(line, k) <==> MayEndAt(front, k)
  {
    forall j | 0 <= j < k ensures line[j] == front[j] {
      assert line[..|front|][j] == line[j];
    }
  }

  lemma {:induction false} CutInFront(line: string, sentences: seq<string>, k: nat)
    requires SentencesOf(line, sentences) && |sentences| > 1
    requires k < |line| - |sentences[|sentences| - 1]| - 1
    ensures CutAt(sentences, k) <==> CutAt(sentences[..|sentences| - 1], k)
  {
    var n := |sentences| - 1;
    LastIsSuffix(line, sentences);
    forall m | 0 < m < n ensures sentences[..n][..m] == sentences[..m] {
    }
  }

  /** A line is cut at a blank if and only if the text in front of it ends with a terminator, closers
      and further terminators behind it left aside. */
  lemma {:induction false} CutIff(line: string, sentences: seq<string>, k: nat)
    requires SentencesOf(line, sentences) && k < |line| && line[k] == ' '
    ensures CutAt(sentences, k) <==> MayEndAt(line, k)
    decreases |sentences|
  {
    var n := |sentences| - 1;
    var p := |line| - |sentences[n]|;
    LastIsSuffix(line, sentences);
    if k >= p {
      NoneInLast(line, sentences, k);
    } else if k == p - 1 {
      var t, e := RunBeforeLast(line, sentences);
      MayEndIsRun(line, k);
      assert |Join(sentences[..n], " ")| == k;
    } else {
      var front := Join(sentences[..n], " ");
      FrontSentences(line, sentences);
      MayEndInFront(line, front, k);
      CutInFront(line, sentences, k);
      assert front[k] == line[..p - 1][k];
      CutIff(front, sentences[..n], k);
    }
  }

  // ---- Pieces ------------------------------------------------------------------------------

  lemma {:induction false} LeadingWordIs(text: string, n: nat)
    requires n <= |text| && (forall j | 0 <= j < n :: text[j] != ' ') && (n < |text| ==> text[n] == ' ')
    ensures |LeadingWord(text)| == n
  {
    if n > 0 {
      LeadingWordIs(text[1..], n - 1);
    }
  }

  /** Where a sentence is broken: inside a word only behind a full piece without blanks, and behind
      whole words only if the next word, of n runes, does not fit after a blank. */
  lemma {:induction false} PieceBreaks(pieces: seq<Piece>, limit: nat, i: nat, n: nat)
    requires WordPieces(pieces, limit) && 0 < i < |pieces|
    requires var next := pieces[i].text;
      n <= |next| && (forall j | 0 <= j < n :: next[j] != ' ') && (n < |next| ==> next[n] == ' ')
    ensures pieces[i].lead == "" ==>
      |pieces[i - 1].text| == limit && ' ' !in pieces[i - 1].text && n == |pieces[i].text|
    ensures pieces[i].lead == " " && pieces[i - 1].lead == " " ==> |pieces[i - 1].text| + 1 + n > limit
  {
    LeadingWordIs(pieces[i].text, n);
  }

  // ---- Chunks ------------------------------------------------------------------------------

  /** How long the units [a, b) are, put together. */
  function Runes(units: seq<Unit>, a: nat, b: nat): nat
    requires a <= b <= |units|
  {
    |Render(Slice(units, a, b))|
  }

  lemma {:induction false} RunesAreSize(units: seq<Unit>, a: nat, b: nat, limit: nat)
    requires UnitsOk(units, limit) && a <= b <= |units|
    ensures Runes(units, a, b) == Size(units, a, b)
  {
    SliceOk(units, a, b, limit);
    MeasureIsLength(Slice(units, a, b), limit);
  }

  /** Behind the units [a, k) there is no room for the next one: the text would be too long, or it begins
      a paragraph that would make it too long while half of the limit is used already. */
  ghost predicate NoRoom(units: seq<Unit>, a: nat, k: nat, settings: Settings)
    requires a < k < |units|
  {
    || Runes(units, a, k + 1) > settings.maxRunes
    || (&& units[k].first && Runes(units, a, k) + 2 + units[k].paragraphRunes > settings.maxRunes
        && 2 * Runes(units, a, k) + 1 >= settings.maxRunes)
  }

  /** The runes of the units from `a` on are those measured. */
  ghost predicate MeasuredFrom(units: seq<Unit>, a: nat, k: nat)
    requires a < k < |units|
  {
    Runes(units, a, k) == Size(units, a, k) && Runes(units, a, k + 1) == Size(units, a, k + 1)
  }

  lemma {:induction false} UnitsAreMeasuredFrom(units: seq<Unit>, a: nat, k: nat, limit: nat)
    requires UnitsOk(units, limit) && a < k < |units|
    ensures MeasuredFrom(units, a, k)
  {
    RunesAreSize(units, a, k, limit);
    RunesAreSize(units, a, k + 1, limit);
  }

  lemma {:induction false} NoRoomBreaks(units: seq<Unit>, a: nat, k: nat, settings: Settings)
    requires a < k < |units| && MeasuredFrom(units, a, k)
    ensures Breaks(units, a, k, settings) <==> NoRoom(units, a, k, settings)
  {
  }

  lemma {:induction false} FilledUp(units: seq<Unit>, chunk: Interval, e: nat, k: nat, settings: Settings)
    requires Fills(units, chunk, e, settings) && e < k < chunk.to
    ensures !Breaks(units, chunk.from, k, settings)
  {
  }

  lemma {:induction false} ChunkBreaksIff(units: seq<Unit>, chunks: seq<Interval>, i: nat, k: nat, settings: Settings)
    requires Packing(units, chunks, settings) && i < |chunks|
    requires chunks[i].from < k <= chunks[i].to && k < |units| && (i > 0 ==> chunks[i - 1].to < k)
    ensures chunks[i].to == k <==> Breaks(units, chunks[i].from, k, settings)
  {
    if k == chunks[i].to {
      ChunkEnds(units, chunks, i, settings);
    } else {
      ChainStep(units, chunks, i, settings);
      FilledUp(units, chunks[i], if i == 0 then 0 else chunks[i - 1].to, k, settings);
    }
  }

  /** Behind its first new unit a chunk ends where there is no room, and only there. */
  lemma {:induction false} ChunkEndsIff(units: seq<Unit>, chunks: seq<Interval>, i: nat, k: nat, settings: Settings)
    requires UnitsOk(units, settings.maxRunes) && Packing(units, chunks, settings) && i < |chunks|
    requires chunks[i].from < k <= chunks[i].to && k < |units| && (i > 0 ==> chunks[i - 1].to < k)
    ensures chunks[i].to == k <==> NoRoom(units, chunks[i].from, k, settings)
  {
    UnitsAreMeasuredFrom(units, chunks[i].from, k, settings.maxRunes);
    NoRoomBreaks(units, chunks[i].from, k, settings);
    ChunkBreaksIff(units, chunks, i, k, settings);
  }

  /** The units of `prev` from `s` on are its longest end, not all of it, that is within the budget, and
      `next` begins there, unless its first new unit does not fit behind them. */
  ghost predicate RepeatsFrom(units: seq<Unit>, prev: Interval, next: Interval, s: nat, settings: Settings) {
    && prev.from < s <= prev.to < |units| && Runes(units, s, prev.to) <= settings.overlapRunes
    && (s > prev.from + 1 ==> Runes(units, s - 1, prev.to) > settings.overlapRunes)
    && next.from == if s < prev.to && Runes(units, s, prev.to + 1) > settings.maxRunes then prev.to else s
  }

  ghost predicate Repeats(units: seq<Unit>, prev: Interval, next: Interval, settings: Settings) {
    exists s: nat :: RepeatsFrom(units, prev, next, s, settings)
  }

  /** Around `s` the runes are those measured. */
  ghost predicate Measured(units: seq<Unit>, s: nat, b: nat)
    requires 0 < s <= b < |units|
  {
    && Runes(units, s, b) == Size(units, s, b) && Runes(units, s, b + 1) == Size(units, s, b + 1)
    && Runes(units, s - 1, b) == Size(units, s - 1, b)
  }

  lemma {:induction false} UnitsAreMeasured(units: seq<Unit>, s: nat, b: nat, limit: nat)
    requires UnitsOk(units, limit) && 0 < s <= b < |units|
    ensures Measured(units, s, b)
  {
    RunesAreSize(units, s, b, limit);
    RunesAreSize(units, s, b + 1, limit);
    RunesAreSize(units, s - 1, b, limit);
  }

  lemma {:induction false} NextLonger(units: seq<Unit>, a: nat, b: nat, s: nat, budget: nat)
    requires a < b <= |units| && LongestTail(units, a, b, s, budget) && s > a + 1
    ensures Size(units, s - 1, b) > budget
  {
  }

  lemma {:induction false} TailRepeats(units: seq<Unit>, prev: Interval, next: Interval, s: nat, settings: Settings)
    requires prev.from < prev.to < |units| && TailKept(units, prev.from, prev.to, s, next.from, settings)
    requires Measured(units, s, prev.to)
    ensures RepeatsFrom(units, prev, next, s, settings)
  {
    if s > prev.from + 1 {
      NextLonger(units, prev.from, prev.to, s, settings.overlapRunes);
    }
  }

  lemma {:induction false} FollowerRepeats(units: seq<Unit>, prev: Interval, next: Interval, settings: Settings)
    requires UnitsOk(units, settings.maxRunes) && Follows(units, prev, next, settings)
    ensures Repeats(units, prev, next, settings)
  {
    var s: nat :| TailKept(units, prev.from, prev.to, s, next.from, settings);
    UnitsAreMeasured(units, s, prev.to, settings.maxRunes);
    TailRepeats(units, prev, next, s, settings);
  }

  /** Every chunk repeats the end of the one before it like this. */
  lemma {:induction false} ChunkRepeats(units: seq<Unit>, chunks: seq<Interval>, i: nat, settings: Settings)
    requires UnitsOk(units, settings.maxRunes) && Packing(units, chunks, settings) && 0 < i < |chunks|
    ensures Repeats(units, chunks[i - 1], chunks[i], settings)
  {
    ChainStep(units, chunks, i, settings);
    FollowerRepeats(units, chunks[i - 1], chunks[i], settings);
  }

  // ---- Small documents ---------------------------------------------------------------------

  /** The separators between paragraphs are not content. */
  lemma {:induction false} RunesOfJoined(paragraphs: seq<string>)
    requires paragraphs != []
    ensures ContentRunes(paragraphs) == |Join(paragraphs, "\n\n")| - 2 * (|paragraphs| - 1)
  {
    var n := |paragraphs| - 1;
    if n > 0 {
      RunesOfJoined(paragraphs[..n]);
    } else {
      assert paragraphs[..n] == [];
    }
  }

  lemma {:induction false} DistinctOfSome(texts: seq<string>)
    requires texts != []
    ensures Distinct(texts) != []
  {
    DistinctKeepsAll(texts);
    assert texts[0] in texts;
  }

  lemma {:induction false} CutHasUnits(doc: Document, paragraphs: seq<string>, units: seq<Unit>,
      intervals: seq<Interval>, settings: Settings)
    requires CutFrom(doc, paragraphs, units, intervals, settings) && paragraphs != []
    ensures units != [] && intervals != [] && Texts(units, intervals) != []
  {
    var joined, n := Join(paragraphs, ParagraphSeparator), |paragraphs| - 1;
    assert paragraphs[n] in paragraphs;
    NormalParagraphNotEmpty(paragraphs[n]);
    assert joined != "";
    ChunksCover(units, intervals, 0, settings);
  }

  /** A document has no chunks if and only if it has no paragraph or its paragraphs, put together without
      what is between them, are shorter than the settings ask for. */
  lemma {:induction false} NoChunksIff(doc: Document, chunks: seq<Chunk>, paragraphs: seq<string>, units: seq<Unit>,
      intervals: seq<Interval>, settings: Settings)
    requires ChunkedLike(doc, chunks, paragraphs, units, intervals, settings)
    ensures chunks == [] <==>
      (paragraphs == [] || |Join(paragraphs, "\n\n")| < settings.minDocumentRunes + 2 * (|paragraphs| - 1))
  {
    if paragraphs != [] {
      RunesOfJoined(paragraphs);
      if chunks != [] || !TooSmall(paragraphs, settings) {
        CutHasUnits(doc, paragraphs, units, intervals, settings);
        DistinctOfSome(Texts(units, intervals));
      }
    }
  }

  /** It has no paragraph if and only if it has no word. */
  lemma {:induction false} NoParagraphsIff(doc: Document, paragraphs: seq<string>)
    requires ParagraphsOf(doc, paragraphs)
    ensures paragraphs == [] <==> Words(doc.content) == []
  {
    if paragraphs != [] {
      var p := paragraphs[|paragraphs| - 1];
      assert p in paragraphs;
      NormalParagraphNotEmpty(p);
      NormalHasWords(p);
    }
  }

  lemma {:induction false} NormalHasWords(p: string)
    requires NormalParagraph(p)
    ensures Words(p) != []
  {
    var lines := SplitAt(p, '\n');
    var n := |lines| - 1;
    JoinOfSplit(p, '\n');
    WordsOfJoin(lines, '\n');
    assert lines[n] in lines && "" + lines[n] == lines[n];
    NormalLineIsItsWords(lines[n], "");
  }
}
