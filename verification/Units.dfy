/** Units: what the packer puts into chunks. Rendering a list of units writes the separator each
    unit needs behind the one before it. */
module Units {
  import opened Text
  import opened Split

  /** `paragraphRunes` is the size of the whole paragraph, kept on its first unit. */
  datatype Unit = Unit(text: string, runes: nat, paragraph: nat, lead: string, first: bool, paragraphRunes: nat)

  const ParagraphSeparator := "\n\n"
  const ParagraphSeparatorRunes := 2

  function Separator(prev: Unit, next: Unit): string {
    if prev.paragraph == next.paragraph then next.lead else ParagraphSeparator
  }

  function SeparatorRunes(prev: Unit, next: Unit): (n: nat)
    ensures n == |Separator(prev, next)|
  {
    if prev.paragraph == next.paragraph then |next.lead| else ParagraphSeparatorRunes
  }

  function Render(units: seq<Unit>): string {
    if units == [] then ""
    else if |units| == 1 then units[0].text
    else
      var n := |units| - 1;
      Render(units[..n]) + Separator(units[n - 1], units[n]) + units[n].text
  }

  function Measure(units: seq<Unit>): nat {
    if units == [] then 0
    else if |units| == 1 then units[0].runes
    else
      var n := |units| - 1;
      Measure(units[..n]) + SeparatorRunes(units[n - 1], units[n]) + units[n].runes
  }

  ghost predicate UnitOk(u: Unit, limit: nat) {
    u.runes == |u.text| && 1 <= u.runes <= limit && |u.lead| <= MaxLead
  }

  ghost predicate UnitsOk(units: seq<Unit>, limit: nat) {
    forall u | u in units :: UnitOk(u, limit)
  }

  lemma {:induction false} RenderAppend(units: seq<Unit>, u: Unit)
    ensures Render(units + [u])
      == if units == [] then u.text else Render(units) + Separator(units[|units| - 1], u) + u.text
  {
    assert (units + [u])[..|units|] == units;
  }

  lemma {:induction false} MeasureAppend(units: seq<Unit>, u: Unit)
    ensures Measure(units + [u])
      == if units == [] then u.runes else Measure(units) + SeparatorRunes(units[|units| - 1], u) + u.runes
  {
    assert (units + [u])[..|units|] == units;
  }

  /** The rune count kept beside a list is the length of what it renders to. */
  lemma {:induction false} MeasureIsLength(units: seq<Unit>, limit: nat)
    requires UnitsOk(units, limit)
    ensures Measure(units) == |Render(units)|
  {
    if units != [] {
      var n := |units| - 1;
      assert units[n] in units;
      MeasureIsLength(units[..n], limit);
    }
  }

  lemma {:induction false} LastOff(a: seq<Unit>, b: seq<Unit>)
    requires b != []
    ensures a + b == a + b[..|b| - 1] + [b[|b| - 1]]
  {
  }

  lemma {:induction false} RenderConcat(a: seq<Unit>, b: seq<Unit>)
    requires a != [] && b != []
    ensures Render(a + b) == Render(a) + Separator(a[|a| - 1], b[0]) + Render(b)
  {
    var n := |b| - 1;
    LastOff(a, b);
    RenderAppend(a + b[..n], b[n]);
    if n > 0 {
      RenderConcat(a, b[..n]);
      Regroup(Render(a) + Separator(a[|a| - 1], b[0]), Render(b[..n]), Separator(b[n - 1], b[n]), b[n].text);
    } else {
      assert a + b[..n] == a;
    }
  }

  lemma {:induction false} MeasureConcat(a: seq<Unit>, b: seq<Unit>)
    requires a != [] && b != []
    ensures Measure(a + b) == Measure(a) + SeparatorRunes(a[|a| - 1], b[0]) + Measure(b)
  {
    var n := |b| - 1;
    LastOff(a, b);
    MeasureAppend(a + b[..n], b[n]);
    if n > 0 {
      MeasureConcat(a, b[..n]);
    } else {
      assert a + b[..n] == a;
    }
  }

  ghost predicate IsSubstring(part: string, whole: string) {
    exists before, after :: whole == before + part + after
  }

  /** Units `[a, b)` of a list. */
  function Slice(units: seq<Unit>, a: nat, b: nat): seq<Unit>
    requires a <= b <= |units|
  {
    units[a..b]
  }

  lemma {:induction false} SliceConcat(units: seq<Unit>, a: nat, b: nat, c: nat)
    requires a <= b <= c <= |units|
    ensures Slice(units, a, c) == Slice(units, a, b) + Slice(units, b, c)
  {
  }

  lemma {:induction false} RenderPrefix(units: seq<Unit>, a: nat, b: nat)
    requires a < b <= |units|
    ensures exists before :: Render(Slice(units, 0, b)) == before + Render(Slice(units, a, b))
  {
    if a == 0 {
      assert Render(Slice(units, 0, b)) == "" + Render(Slice(units, a, b));
    } else {
      SliceConcat(units, 0, a, b);
      RenderConcat(Slice(units, 0, a), Slice(units, a, b));
    }
  }

  lemma {:induction false} SplitOff(a: string, b: string, c: string)
    ensures exists after :: a + b + c == a + after
  {
    assert a + b + c == a + (b + c);
  }

  lemma {:induction false} RenderSuffix(units: seq<Unit>, b: nat)
    requires 0 < b <= |units|
    ensures exists after :: Render(units) == Render(Slice(units, 0, b)) + after
  {
    assert Slice(units, 0, |units|) == units;
    if b == |units| {
      assert Render(units) == Render(units) + "";
    } else {
      SliceConcat(units, 0, b, |units|);
      var x, y := Slice(units, 0, b), Slice(units, b, |units|);
      RenderConcat(x, y);
      SplitOff(Render(x), Separator(x[|x| - 1], y[0]), Render(y));
    }
  }

  /** Rendering an interval of the units gives a substring of rendering them all. */
  lemma {:induction false} IntervalIsSubstring(units: seq<Unit>, a: nat, b: nat)
    requires a < b <= |units|
    ensures IsSubstring(Render(Slice(units, a, b)), Render(units))
  {
    RenderPrefix(units, a, b);
    RenderSuffix(units, b);
  }

  method RenderUnits(units: seq<Unit>) returns (text: string)
    ensures text == Render(units)
  {
    text := "";
    for i := 0 to |units|
      invariant text == Render(units[..i])
    {
      assert units[..i + 1][..i] == units[..i];
      if i > 0 {
        text := text + Separator(units[i - 1], units[i]);
      }
      text := text + units[i].text;
    }
    assert units[..|units|] == units;
  }

  method MeasureUnits(units: seq<Unit>) returns (total: nat)
    ensures total == Measure(units)
  {
    total := 0;
    for i := 0 to |units|
      invariant total == Measure(units[..i])
    {
      assert units[..i + 1][..i] == units[..i];
      if i > 0 {
        total := total + SeparatorRunes(units[i - 1], units[i]);
      }
      total := total + units[i].runes;
    }
    assert units[..|units|] == units;
  }

  // ---- From paragraphs to units ------------------------------------------------------------

  lemma {:induction false} NormalParagraphNotEmpty(p: string)
    requires NormalParagraph(p)
    ensures p != ""
  {
    assert "" in SplitAt("", '\n');
  }

  /** A paragraph after the text of those before it. */
  function AndThen(text: string, paragraph: string): string {
    if text == "" then paragraph else text + ParagraphSeparator + paragraph
  }

  /** A unit of one of the first `next` paragraphs; the first of a paragraph knows its size. */
  ghost predicate UnitOf(u: Unit, paragraphs: seq<string>, next: nat, limit: nat) {
    && UnitOk(u, limit) && u.paragraph < next
    && (u.first ==> u.paragraph < |paragraphs| && u.paragraphRunes == |paragraphs[u.paragraph]|)
  }

  ghost predicate UnitsOf(units: seq<Unit>, paragraphs: seq<string>, next: nat, limit: nat) {
    forall u | u in units :: UnitOf(u, paragraphs, next, limit)
  }

  /** Units of the paragraphs before `next`, rendering to `text`. */
  ghost predicate UnitsFor(units: seq<Unit>, text: string, paragraphs: seq<string>, next: nat, limit: nat) {
    UnitsOf(units, paragraphs, next, limit) && Render(units) == text && (text == "" <==> units == [])
  }

  function PieceUnit(p: Piece, j: nat, paragraph: nat, paragraphRunes: nat): Unit {
    var u := Unit(p.text, |p.text|, paragraph, p.lead, false, 0);
    if j == 0 then u.(first := true, lead := "", paragraphRunes := paragraphRunes) else u
  }

  function PieceUnits(pieces: seq<Piece>, paragraph: nat, paragraphRunes: nat): seq<Unit> {
    seq(|pieces|, j requires 0 <= j < |pieces| => PieceUnit(pieces[j], j, paragraph, paragraphRunes))
  }

  /** One unit for paragraph `i` if it fits, and one for each of its pieces if not. */
  ghost predicate UnitsOfParagraph(paragraph: string, i: nat, limit: nat, us: seq<Unit>) {
    if |paragraph| <= limit then us == [Unit(paragraph, |paragraph|, i, "", true, |paragraph|)]
    else exists pieces ::
      ParagraphPieces(SplitAt(paragraph, '\n'), limit, pieces) && us == PieceUnits(pieces, i, |paragraph|)
  }

  /** The units of all paragraphs, one after the other. */
  ghost predicate CutUp(paragraphs: seq<string>, limit: nat, us: seq<Unit>)
    decreases |paragraphs|
  {
    if paragraphs == [] then us == []
    else
      var n := |paragraphs| - 1;
      exists k: nat | k <= |us| ::
        CutUp(paragraphs[..n], limit, us[..k]) && UnitsOfParagraph(paragraphs[n], n, limit, us[k..])
  }

  lemma {:induction false} NextParagraph(paragraphs: seq<string>, i: nat, limit: nat, out: seq<Unit>, m: nat)
    requires i < |paragraphs| && m <= |out| && CutUp(paragraphs[..i], limit, out[..m])
    requires UnitsOfParagraph(paragraphs[i], i, limit, out[m..])
    ensures CutUp(paragraphs[..i + 1], limit, out)
  {
    var more := paragraphs[..i + 1];
    assert more[..|more| - 1] == paragraphs[..i] && more[|more| - 1] == paragraphs[i];
  }

  /** The units of the first `i` paragraphs, and what they render to. */
  ghost predicate UnitsSoFar(paragraphs: seq<string>, i: nat, out: seq<Unit>, limit: nat) {
    && i <= |paragraphs| && UnitsFor(out, Join(paragraphs[..i], ParagraphSeparator), paragraphs, i, limit)
    && (i > 0 ==> out != []) && CutUp(paragraphs[..i], limit, out)
  }

  method TakeParagraph(paragraphs: seq<string>, i: nat, before: seq<Unit>, limit: nat) returns (out: seq<Unit>)
    requires limit > 0 && i < |paragraphs| && NormalParagraph(paragraphs[i]) && UnitsSoFar(paragraphs, i, before, limit)
    ensures UnitsSoFar(paragraphs, i + 1, out, limit)
  {
    OneMoreParagraph(paragraphs, i);
    out := AppendParagraph(before, paragraphs, i, limit);
    NextParagraph(paragraphs, i, limit, out, |before|);
  }

  /** One unit for a paragraph that fits, its pieces for one that does not. The units render to
      the paragraphs joined by blank lines, for every limit. */
  method ToUnits(paragraphs: seq<string>, limit: nat) returns (out: seq<Unit>)
    requires limit > 0 && forall p | p in paragraphs :: NormalParagraph(p)
    ensures UnitsFor(out, Join(paragraphs, ParagraphSeparator), paragraphs, |paragraphs|, limit)
    ensures CutUp(paragraphs, limit, out)
  {
    out := [];
    for i := 0 to |paragraphs|
      invariant UnitsSoFar(paragraphs, i, out, limit)
    {
      assert paragraphs[i] in paragraphs;
      out := TakeParagraph(paragraphs, i, out, limit);
    }
    assert paragraphs[..|paragraphs|] == paragraphs;
  }

  lemma {:induction false} OneMoreParagraph(paragraphs: seq<string>, i: nat)
    requires i < |paragraphs| && (i > 0 ==> Join(paragraphs[..i], ParagraphSeparator) != "")
    ensures Join(paragraphs[..i + 1], ParagraphSeparator)
      == AndThen(Join(paragraphs[..i], ParagraphSeparator), paragraphs[i])
  {
    JoinAppend(paragraphs[..i], paragraphs[i], ParagraphSeparator);
    assert paragraphs[..i + 1] == paragraphs[..i] + [paragraphs[i]];
  }

  method AppendParagraph(before: seq<Unit>, paragraphs: seq<string>, i: nat, limit: nat) returns (out: seq<Unit>)
    requires limit > 0 && i < |paragraphs| && NormalParagraph(paragraphs[i])
    requires UnitsFor(before, Render(before), paragraphs, i, limit)
    ensures UnitsFor(out, AndThen(Render(before), paragraphs[i]), paragraphs, i + 1, limit) && out != []
    ensures |before| <= |out| && out[..|before|] == before
    ensures UnitsOfParagraph(paragraphs[i], i, limit, out[|before|..])
  {
    NormalParagraphNotEmpty(paragraphs[i]);
    var runes := |paragraphs[i]|;
    if runes <= limit {
      var u := Unit(paragraphs[i], runes, i, "", true, runes);
      UnitAppended(before, u, i);
      out := before + [u];
    } else {
      out := AppendPieces(before, paragraphs, i, limit);
    }
  }

  lemma {:induction false} UnitAppended(before: seq<Unit>, u: Unit, i: nat)
    requires (forall v | v in before :: v.paragraph < i) && u.paragraph == i
    requires Render(before) == "" <==> before == []
    ensures Render(before + [u]) == AndThen(Render(before), u.text)
  {
    RenderAppend(before, u);
    if before != [] {
      assert before[|before| - 1] in before;
    }
  }

  /** Some pieces of paragraph `i`, put together as `text`, appended to the units before it. */
  ghost predicate Gathered(out: seq<Unit>, before: seq<Unit>, text: string, i: nat) {
    out != [] && out[|out| - 1].paragraph == i && Render(out) == AndThen(Render(before), text)
  }

  /** The first `j` pieces of paragraph `i` behind the units before it. */
  ghost predicate PiecesBehind(before: seq<Unit>, out: seq<Unit>, pieces: seq<Piece>, j: nat, paragraphs: seq<string>,
      i: nat, limit: nat)
  {
    && j <= |pieces| && i < |paragraphs| && UnitsOf(out, paragraphs, i + 1, limit)
    && out == before + PieceUnits(pieces, i, |paragraphs[i]|)[..j]
    && (j > 0 ==> Gathered(out, before, Rendered(pieces[..j]), i))
  }

  lemma {:induction false} OnePieceBehind(before: seq<Unit>, out: seq<Unit>, pieces: seq<Piece>, j: nat,
      paragraphs: seq<string>, i: nat, limit: nat)
    requires i < |paragraphs| && UnitsFor(before, Render(before), paragraphs, i, limit)
    requires j < |pieces| && PiecesBehind(before, out, pieces, j, paragraphs, i, limit) && PieceOk(pieces[j], limit)
    ensures PiecesBehind(before, out + [PieceUnit(pieces[j], j, i, |paragraphs[i]|)], pieces, j + 1, paragraphs, i,
      limit)
  {
    var u := PieceUnit(pieces[j], j, i, |paragraphs[i]|);
    OneMorePiece(pieces, j);
    if j == 0 {
      UnitAppended(before, u, i);
      assert out == before;
    } else {
      NextGathered(before, out, u, Rendered(pieces[..j]), i);
    }
    UnitsAppend(out, u, paragraphs, i + 1, limit);
    OneMoreUnit(before, PieceUnits(pieces, i, |paragraphs[i]|), j);
  }

  lemma {:induction false} OneMoreUnit(before: seq<Unit>, us: seq<Unit>, j: nat)
    requires j < |us|
    ensures before + us[..j] + [us[j]] == before + us[..j + 1]
  {
  }

  method AppendPieces(before: seq<Unit>, paragraphs: seq<string>, i: nat, limit: nat) returns (out: seq<Unit>)
    requires limit > 0 && i < |paragraphs| && NormalParagraph(paragraphs[i]) && |paragraphs[i]| > limit
    requires UnitsFor(before, Render(before), paragraphs, i, limit)
    ensures UnitsFor(out, AndThen(Render(before), paragraphs[i]), paragraphs, i + 1, limit) && out != []
    ensures |before| <= |out| && out[..|before|] == before
    ensures UnitsOfParagraph(paragraphs[i], i, limit, out[|before|..])
  {
    NormalParagraphNotEmpty(paragraphs[i]);
    var pieces := SplitOversized(paragraphs[i], limit);
    out := before;
    for j := 0 to |pieces|
      invariant PiecesBehind(before, out, pieces, j, paragraphs, i, limit)
    {
      assert pieces[j] in pieces;
      OnePieceBehind(before, out, pieces, j, paragraphs, i, limit);
      out := out + [PieceUnit(pieces[j], j, i, |paragraphs[i]|)];
    }
    AllPiecesBehind(before, out, pieces, i, |paragraphs[i]|);
  }

  lemma {:induction false} AllPiecesBehind(before: seq<Unit>, out: seq<Unit>, pieces: seq<Piece>, i: nat, runes: nat)
    requires out == before + PieceUnits(pieces, i, runes)[..|pieces|]
    ensures out[|before|..] == PieceUnits(pieces, i, runes) && out[..|before|] == before && pieces[..|pieces|] == pieces
  {
  }

  lemma {:induction false} UnitsAppend(units: seq<Unit>, u: Unit, paragraphs: seq<string>, next: nat, limit: nat)
    requires UnitsOf(units, paragraphs, next, limit) && UnitOf(u, paragraphs, next, limit)
    ensures UnitsOf(units + [u], paragraphs, next, limit)
  {
  }

  lemma {:induction false} OneMorePiece(pieces: seq<Piece>, j: nat)
    requires j < |pieces|
    ensures Rendered(pieces[..j + 1])
      == if j == 0 then pieces[0].text else Rendered(pieces[..j]) + pieces[j].lead + pieces[j].text
  {
    assert pieces[..j + 1] == pieces[..j] + [pieces[j]];
    RenderedAppend(pieces[..j], pieces[j]);
  }

  lemma {:induction false} AndThenExtends(before: string, text: string, lead: string, more: string)
    ensures AndThen(before, text) + lead + more == AndThen(before, text + lead + more)
  {
    if before != "" {
      Regroup(before + ParagraphSeparator, text, lead, more);
    }
  }

  lemma {:induction false} NextGathered(before: seq<Unit>, out: seq<Unit>, u: Unit, text: string, i: nat)
    requires Gathered(out, before, text, i) && u.paragraph == i
    ensures Gathered(out + [u], before, text + u.lead + u.text, i)
  {
    RenderAppend(out, u);
    AndThenExtends(Render(before), text, u.lead, u.text);
  }
}
