/** A document and the settings determine its chunks: every way of cutting that the contracts allow
    is the same one. */
module UniqueChunks {
  import opened Text
  import opened Split
  import opened Units
  import opened Pack
  import opened Chunker

  // ---- Sentences ---------------------------------------------------------------------------

  /** The last sentence is the end of the line, behind a blank if there are others. */
  lemma {:induction false} LastIsSuffix(line: string, out: seq<string>)
    requires SentencesOf(line, out)
    ensures var b := out[|out| - 1];
      && 0 < |b| <= |line| && line[|line| - |b|..] == b && !IsSpace(line[|line| - |b|])
      && (|out| > 1 ==> |b| < |line| && line[|line| - |b| - 1] == ' '
                        && line[..|line| - |b| - 1] == Join(out[..|out| - 1], " "))
      && (|out| == 1 ==> b == line)
  {
    var n := |out| - 1;
    assert out[n] in out;
    assert out == out[..n] + [out[n]];
    JoinAppend(out[..n], out[n], " ");
  }

  /** Those before the last are the sentences of what is before that blank. */
  lemma {:induction false} FrontSentences(line: string, out: seq<string>)
    requires SentencesOf(line, out) && |out| > 1
    ensures SentencesOf(Join(out[..|out| - 1], " "), out[..|out| - 1])
  {
    var front := out[..|out| - 1];
    forall s | s in front ensures NormalLine(s) && NoBoundaryInside(s) {
      assert s in out;
    }
    forall i | 0 <= i < |front| - 1 ensures EndsSentence(front[i]) {
      assert front[i] == out[i];
    }
  }

  /** A run that ends just before the blank in front of the last sentence. */
  lemma {:induction false} RunBeforeLast(line: string, out: seq<string>) returns (t: nat, e: nat)
    requires SentencesOf(line, out) && |out| > 1
    ensures e == |line| - |out[|out| - 1]| - 1 && e < |line| && line[e] == ' ' && Run(line, t, e)
  {
    var n := |out| - 1;
    var front := Join(out[..n], " ");
    LastIsSuffix(line, out);
    FrontSentences(line, out);
    LastIsSuffix(front, out[..n]);
    var last := out[n - 1];
    assert out[..n][n - 1] == last && EndsSentence(out[n - 1]);
    e := |front|;
    var k :| Run(last, k, |last|);
    t := e - |last| + k;
    RunInFront(line, front, last, k);
  }

  lemma {:induction false} RunInFront(line: string, front: string, last: string, k: int)
    requires |front| < |line| && line[..|front|] == front && |last| <= |front| && front[|front| - |last|..] == last
    requires Run(last, k, |last|)
    ensures Run(line, |front| - |last| + k, |front|)
  {
    var s := |front| - |last|;
    forall j | s + k <= j < |front| ensures line[j] == last[j - s] {
      assert line[j] == front[j] == front[s..][j - s];
    }
  }

  lemma {:induction false} RunIntoSuffix(line: string, t: nat, e: nat, p: nat)
    requires Run(line, t, e) && p <= t && e < |line|
    ensures Run(line[p..], t - p, e - p) && line[p..][e - p] == line[e]
  {
  }

  lemma {:induction false} EndersAreNoSpace(c: char)
    requires EndsRun(c)
    ensures !IsSpace(c)
  {
  }

  /** The last sentence cannot begin before a boundary. */
  lemma {:induction false} NoShorterLast(line: string, xs: seq<string>, ys: seq<string>)
    requires SentencesOf(line, xs) && SentencesOf(line, ys)
    ensures |xs[|xs| - 1]| >= |ys[|ys| - 1]|
  {
    var a, b := xs[|xs| - 1], ys[|ys| - 1];
    LastIsSuffix(line, xs);
    LastIsSuffix(line, ys);
    assert b in ys;
    if |xs| > 1 {
      var t, e := RunBeforeLast(line, xs);
      var p := |line| - |b|;
      if p <= t {
        RunIntoSuffix(line, t, e, p);
      } else {
        StartsBehindRun(line, t, e, p);
      }
    }
  }

  lemma {:induction false} StartsBehindRun(line: string, t: nat, e: nat, p: nat)
    requires Run(line, t, e) && t < p <= |line| && e < |line| && line[e] == ' '
    requires line[p - 1] == ' ' && (p < |line| ==> !IsSpace(line[p]))
    ensures p > e
  {
    if p <= e {
      EndersAreNoSpace(line[p - 1]);
    }
  }

  lemma {:induction false} SentencesAreUnique(line: string, xs: seq<string>, ys: seq<string>)
    requires SentencesOf(line, xs) && SentencesOf(line, ys)
    ensures xs == ys
    decreases |xs|
  {
    NoShorterLast(line, xs, ys);
    NoShorterLast(line, ys, xs);
    LastIsSuffix(line, xs);
    LastIsSuffix(line, ys);
    var m, n := |xs| - 1, |ys| - 1;
    assert xs == xs[..m] + [xs[m]] && ys == ys[..n] + [ys[n]];
    if m > 0 {
      FrontSentences(line, xs);
      FrontSentences(line, ys);
      SentencesAreUnique(Join(xs[..m], " "), xs[..m], ys[..n]);
    }
  }

  // ---- Words -------------------------------------------------------------------------------

  /** The end of a greedy packing: what is broken off a word holds nothing else. */
  ghost predicate WordTail(ps: seq<Piece>, limit: nat) {
    && ps != [] && PiecesOk(ps, limit) && (forall p | p in ps :: p.lead == "" || p.lead == " ") && Greedy(ps, limit)
    && (ps[0].lead == "" ==> ' ' !in ps[0].text)
  }

  lemma {:induction false} RenderedFirst(ps: seq<Piece>)
    requires ps != []
    ensures Rendered(ps) == ps[0].text + if |ps| == 1 then "" else ps[1].lead + Rendered(ps[1..])
  {
    if |ps| > 2 {
      var n := |ps| - 1;
      RenderedFirst(ps[..n]);
      assert ps[..n][1..] == ps[1..n] && ps[1..][..n - 1] == ps[1..n];
      Regrouped(ps[0].text, ps[1].lead, Rendered(ps[1..n]), ps[n].lead, ps[n].text);
    }
  }

  lemma {:induction false} Regrouped(a: string, b: string, c: string, d: string, e: string)
    ensures a + (b + c) + d + e == a + (b + (c + d + e))
  {
  }

  lemma {:induction false} TailOfTail(ps: seq<Piece>, limit: nat)
    requires WordTail(ps, limit) && |ps| > 1
    ensures WordTail(ps[1..], limit)
  {
    forall p | p in ps[1..] ensures p in ps {
    }
    forall i | 0 < i < |ps[1..]| ensures ps[1..][i] == ps[i + 1] && ps[1..][i - 1] == ps[i] {
    }
  }

  lemma {:induction false} LeadingWordIsPrefix(text: string)
    ensures var w := LeadingWord(text); |w| <= |text| && text[..|w|] == w && ' ' !in w
  {
    if text != "" && text[0] != ' ' {
      LeadingWordIsPrefix(text[1..]);
      var w := LeadingWord(text[1..]);
      assert text[..|w| + 1] == [text[0]] + text[1..][..|w|];
    }
  }

  /** What comes right behind the first piece. */
  lemma {:induction false} AfterFirst(ps: seq<Piece>, limit: nat)
    requires WordTail(ps, limit)
    ensures var text, n := Rendered(ps), |ps[0].text|;
      && n <= |text| && text[..n] == ps[0].text && (|ps| == 1 ==> text == ps[0].text)
      && (|ps| > 1 && ps[1].lead == "" ==> n < |text| && text[n..] == Rendered(ps[1..]) && text[n] != ' ')
      && (|ps| > 1 && ps[1].lead == " " ==> n < |text| && text[n] == ' ' && text[n + 1..] == Rendered(ps[1..]))
  {
    RenderedFirst(ps);
    if |ps| > 1 {
      RenderedFirst(ps[1..]);
      assert ps[1] in ps && ps[1].text[0] in ps[1].text;
    }
  }

  /** The word that did not fit stands behind the blank. */
  lemma {:induction false} WordBehindBlank(ps: seq<Piece>, limit: nat)
    requires WordTail(ps, limit) && |ps| > 1 && ps[1].lead == " "
    ensures var text, n, w := Rendered(ps), |ps[0].text|, LeadingWord(ps[1].text);
      n + 1 + |w| <= |text| && forall k | n < k < n + 1 + |w| :: text[k] != ' '
  {
    AfterFirst(ps, limit);
    LeadingWordIsPrefix(ps[1].text);
    RenderedFirst(ps[1..]);
    var text, n, w := Rendered(ps), |ps[0].text|, LeadingWord(ps[1].text);
    assert text[n + 1..][..|w|] == Rendered(ps[1..])[..|w|] == ps[1].text[..|w|];
    forall k | n < k < n + 1 + |w| ensures text[k] != ' ' {
      assert text[k] == text[n + 1..][..|w|][k - n - 1] == w[k - n - 1];
    }
  }

  /** A first piece cannot be longer than that of a greedy packing of the same text. */
  lemma {:induction false} NoLongerFirst(xs: seq<Piece>, ys: seq<Piece>, limit: nat)
    requires WordTail(xs, limit) && WordTail(ys, limit) && xs[0].lead == ys[0].lead && Rendered(xs) == Rendered(ys)
    ensures |xs[0].text| >= |ys[0].text|
  {
    AfterFirst(xs, limit);
    AfterFirst(ys, limit);
    assert ys[0] in ys;
    var text, m, n := Rendered(xs), |xs[0].text|, |ys[0].text|;
    if |xs| > 1 && xs[1].lead != "" && m < n {
      assert xs[1] in xs && Overflows(xs[0], xs[1], limit);
      assert ys[0].text[m] == text[m];
      WordBehindBlank(xs, limit);
    }
  }

  lemma {:induction false} SameFirstPiece(xs: seq<Piece>, ys: seq<Piece>, limit: nat)
    requires WordTail(xs, limit) && WordTail(ys, limit) && xs[0].lead == ys[0].lead && Rendered(xs) == Rendered(ys)
    ensures xs[0] == ys[0] && (|xs| > 1 <==> |ys| > 1)
    ensures |xs| > 1 && |ys| > 1 ==> xs[1].lead == ys[1].lead && Rendered(xs[1..]) == Rendered(ys[1..])
  {
    NoLongerFirst(xs, ys, limit);
    NoLongerFirst(ys, xs, limit);
    AfterFirst(xs, limit);
    AfterFirst(ys, limit);
    assert (|xs| > 1 ==> xs[1] in xs) && (|ys| > 1 ==> ys[1] in ys);
  }

  lemma {:induction false} FirstAndRest(ps: seq<Piece>)
    requires ps != []
    ensures ps == [ps[0]] + ps[1..] && (|ps| == 1 ==> ps[1..] == [])
  {
  }

  /** The text and the limit determine the pieces. */
  lemma {:induction false} WordPiecesAreUnique(xs: seq<Piece>, ys: seq<Piece>, limit: nat)
    requires WordTail(xs, limit) && WordTail(ys, limit) && xs[0].lead == ys[0].lead && Rendered(xs) == Rendered(ys)
    ensures xs == ys
    decreases |xs|
  {
    SameFirstPiece(xs, ys, limit);
    FirstAndRest(xs);
    FirstAndRest(ys);
    if |xs| > 1 {
      TailOfTail(xs, limit);
      TailOfTail(ys, limit);
      WordPiecesAreUnique(xs[1..], ys[1..], limit);
    }
  }

  // ---- Paragraphs --------------------------------------------------------------------------

  lemma {:induction false} SentencePiecesAreUnique(sentence: string, lead: string, limit: nat, ps: seq<Piece>,
      qs: seq<Piece>)
    requires SentencePieces(sentence, lead, limit, ps) && SentencePieces(sentence, lead, limit, qs)
    ensures ps == qs
  {
    if |sentence| > limit {
      var xs :| WordsWithLead(xs, sentence, lead, limit, ps);
      var ys :| WordsWithLead(ys, sentence, lead, limit, qs);
      WordPiecesAreUnique(xs, ys, limit);
    }
  }

  lemma {:induction false} TwoParts(ps: seq<Piece>, k: nat)
    requires k <= |ps|
    ensures ps == ps[..k] + ps[k..]
  {
  }

  lemma {:induction false} LinePiecesAreUnique(sentences: seq<string>, lead: string, limit: nat, ps: seq<Piece>,
      qs: seq<Piece>)
    requires LinePieces(sentences, lead, limit, ps) && LinePieces(sentences, lead, limit, qs)
    ensures ps == qs
    decreases |sentences|
  {
    if sentences != [] {
      var n := |sentences| - 1;
      var own := if n == 0 then lead else " ";
      var k: nat :| k <= |ps| && LinePieces(sentences[..n], lead, limit, ps[..k])
        && SentencePieces(sentences[n], own, limit, ps[k..]);
      var l: nat :| l <= |qs| && LinePieces(sentences[..n], lead, limit, qs[..l])
        && SentencePieces(sentences[n], own, limit, qs[l..]);
      LinePiecesAreUnique(sentences[..n], lead, limit, ps[..k], qs[..l]);
      SentencePiecesAreUnique(sentences[n], own, limit, ps[k..], qs[l..]);
      TwoParts(ps, k);
      TwoParts(qs, l);
    }
  }

  lemma {:induction false} PiecesOfLineAreUnique(line: string, lead: string, limit: nat, ps: seq<Piece>, qs: seq<Piece>)
    requires PiecesOfLine(line, lead, limit, ps) && PiecesOfLine(line, lead, limit, qs)
    ensures ps == qs
  {
    var xs :| SentencesOf(line, xs) && LinePieces(xs, lead, limit, ps);
    var ys :| SentencesOf(line, ys) && LinePieces(ys, lead, limit, qs);
    SentencesAreUnique(line, xs, ys);
    LinePiecesAreUnique(xs, lead, limit, ps, qs);
  }

  lemma {:induction false} ParagraphPiecesAreUnique(lines: seq<string>, limit: nat, ps: seq<Piece>, qs: seq<Piece>)
    requires ParagraphPieces(lines, limit, ps) && ParagraphPieces(lines, limit, qs)
    ensures ps == qs
    decreases |lines|
  {
    if lines != [] {
      var n := |lines| - 1;
      var lead := if n == 0 then "" else "\n";
      var k: nat :| k <= |ps| && ParagraphPieces(lines[..n], limit, ps[..k])
        && PiecesOfLine(lines[n], lead, limit, ps[k..]);
      var l: nat :| l <= |qs| && ParagraphPieces(lines[..n], limit, qs[..l])
        && PiecesOfLine(lines[n], lead, limit, qs[l..]);
      ParagraphPiecesAreUnique(lines[..n], limit, ps[..k], qs[..l]);
      PiecesOfLineAreUnique(lines[n], lead, limit, ps[k..], qs[l..]);
      TwoParts(ps, k);
      TwoParts(qs, l);
    }
  }

  // ---- Documents ---------------------------------------------------------------------------

  lemma {:induction false} UnitsOfParagraphAreUnique(p: string, i: nat, limit: nat, us: seq<Unit>, vs: seq<Unit>)
    requires UnitsOfParagraph(p, i, limit, us) && UnitsOfParagraph(p, i, limit, vs)
    ensures us == vs
  {
    if |p| > limit {
      var xs :| ParagraphPieces(SplitAt(p, '\n'), limit, xs) && us == PieceUnits(xs, i, |p|);
      var ys :| ParagraphPieces(SplitAt(p, '\n'), limit, ys) && vs == PieceUnits(ys, i, |p|);
      ParagraphPiecesAreUnique(SplitAt(p, '\n'), limit, xs, ys);
    }
  }

  lemma {:induction false} TwoPartsOfUnits(us: seq<Unit>, k: nat)
    requires k <= |us|
    ensures us == us[..k] + us[k..]
  {
  }

  /** The paragraphs and the limit determine the units. */
  lemma {:induction false} UnitsAreUnique(paragraphs: seq<string>, limit: nat, us: seq<Unit>, vs: seq<Unit>)
    requires CutUp(paragraphs, limit, us) && CutUp(paragraphs, limit, vs)
    ensures us == vs
    decreases |paragraphs|
  {
    if paragraphs != [] {
      var n := |paragraphs| - 1;
      var k: nat :| k <= |us| && CutUp(paragraphs[..n], limit, us[..k])
        && UnitsOfParagraph(paragraphs[n], n, limit, us[k..]);
      var l: nat :| l <= |vs| && CutUp(paragraphs[..n], limit, vs[..l])
        && UnitsOfParagraph(paragraphs[n], n, limit, vs[l..]);
      UnitsAreUnique(paragraphs[..n], limit, us[..k], vs[..l]);
      UnitsOfParagraphAreUnique(paragraphs[n], n, limit, us[k..], vs[l..]);
      TwoPartsOfUnits(us, k);
      TwoPartsOfUnits(vs, l);
    }
  }

  /** The theorem: a document and the settings determine its chunks. */
  lemma {:induction false} ChunksAreDetermined(doc: Document, settings: Settings, xs: seq<Chunk>, ps: seq<string>,
      us: seq<Unit>, cs: seq<Interval>, ys: seq<Chunk>, qs: seq<string>, vs: seq<Unit>, ds: seq<Interval>)
    requires ChunkedLike(doc, xs, ps, us, cs, settings) && ChunkedLike(doc, ys, qs, vs, ds, settings)
    ensures xs == ys && ps == qs
    ensures !TooSmall(ps, settings) ==> us == vs && cs == ds
  {
    ParagraphsAreUnique(Reduced(SplitAt(doc.content, '\n')), ps, qs);
    if !TooSmall(ps, settings) {
      UnitsAreUnique(ps, settings.maxRunes, us, vs);
      PackingIsUnique(us, cs, ds, settings);
    }
  }
}
