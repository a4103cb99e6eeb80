/** Splitting a document: into normalised paragraphs, and a paragraph too long for one chunk into
    pieces by line, sentence, word and finally rune. */
module Split {
  import opened Text

  /** `lead` is what stood between the piece and the one before it. */
  datatype Piece = Piece(text: string, lead: string)

  const MaxLead := 1

  /** The pieces put together again; the first lead belongs to whatever came before. */
  function Rendered(pieces: seq<Piece>): string {
    if pieces == [] then ""
    else if |pieces| == 1 then pieces[0].text
    else
      var n := |pieces| - 1;
      Rendered(pieces[..n]) + pieces[n].lead + pieces[n].text
  }

  lemma {:induction false} RenderedAppend(pieces: seq<Piece>, p: Piece)
    ensures Rendered(pieces + [p]) == if pieces == [] then p.text else Rendered(pieces) + p.lead + p.text
  {
    assert (pieces + [p])[..|pieces|] == pieces;
  }

  ghost predicate PieceOk(p: Piece, limit: nat) {
    1 <= |p.text| <= limit && |p.lead| <= MaxLead
  }

  ghost predicate PiecesOk(pieces: seq<Piece>, limit: nat) {
    forall p | p in pieces :: PieceOk(p, limit)
  }

  // ---- Paragraphs --------------------------------------------------------------------------

  ghost predicate NormalParagraph(p: string) {
    forall l | l in SplitAt(p, '\n') :: NormalLine(l)
  }

  function WordsOf(parts: seq<string>): seq<string> {
    if parts == [] then [] else WordsOf(parts[..|parts| - 1]) + Words(parts[|parts| - 1])
  }

  lemma {:induction false} WordsOfAppend(parts: seq<string>, part: string)
    ensures WordsOf(parts + [part]) == WordsOf(parts) + Words(part)
  {
    assert (parts + [part])[..|parts|] == parts;
  }

  lemma {:induction false} WordsOfJoin(parts: seq<string>, space: char)
    requires IsSpace(space)
    ensures Words(Join(parts, [space])) == WordsOf(parts)
  {
    var n := |parts| - 1;
    if n == 0 {
      assert WordsOf(parts) == WordsOf(parts[..0]) + Words(parts[0]) == Words(parts[0]);
    } else if n > 0 {
      WordsOfJoin(parts[..n], space);
      WordsAcrossSpace(Join(parts[..n], [space]), space, parts[n], "");
    }
  }

  lemma {:induction false} WordsOfWords(words: seq<string>)
    requires forall w | w in words :: IsWord(w)
    ensures WordsOf(words) == words
  {
    if words != [] {
      var n := |words| - 1;
      WordsOfWords(words[..n]);
      assert words[n] in words;
      WordRunsOn(words[n], "");
      assert "" + words[n] == words[n] && words[..n] + [words[n]] == words;
    }
  }

  /** A line reduced to its words is empty or normal, and has the same words. */
  lemma {:induction false} NormalisedLine(line: string)
    ensures var l := Join(Words(line), " ");
      (l == "" <==> Words(line) == []) && (l != "" ==> NormalLine(l)) && Words(l) == Words(line)
  {
    WordsAreWords(line, "");
    WordsOfJoin(Words(line), ' ');
    WordsOfWords(Words(line));
    if Words(line) != [] {
      JoinedWordsAreNormal(Words(line));
    }
  }

  lemma {:induction false} JoinedLinesAreNormal(lines: seq<string>)
    requires lines != [] && forall l | l in lines :: NormalLine(l)
    ensures NormalParagraph(Join(lines, "\n"))
  {
    forall l | l in lines ensures '\n' !in l {
      if '\n' in l {
        var i :| 0 <= i < |l| && l[i] == '\n';
        assert IsSpace(l[i]);
      }
    }
    SplitOfJoin(lines, '\n');
  }

  /** Lines reduced to their words. */
  function Reduced(all: seq<string>): seq<string> {
    seq(|all|, i requires 0 <= i < |all| => Join(Words(all[i]), " "))
  }

  /** Lines `[i, j)` are a whole block, with only blank lines behind it, and make this paragraph. */
  ghost predicate LastBlock(lines: seq<string>, i: nat, j: nat, paragraph: string) {
    && i < j <= |lines| && (i > 0 ==> lines[i - 1] == "")
    && (forall k | i <= k < j :: lines[k] != "") && (forall k | j <= k < |lines| :: lines[k] == "")
    && paragraph == Join(lines[i..j], "\n")
  }

  /** The paragraphs are the blocks of lines between blank ones. */
  ghost predicate Blocks(lines: seq<string>, paragraphs: seq<string>)
    decreases |paragraphs|
  {
    if paragraphs == [] then forall k | 0 <= k < |lines| :: lines[k] == ""
    else
      var n := |paragraphs| - 1;
      exists i: nat, j: nat :: LastBlock(lines, i, j, paragraphs[n]) && Blocks(lines[..i], paragraphs[..n])
  }

  lemma {:induction false} BlankBehind(lines: seq<string>, k: nat, i: nat, j: nat, p: string)
    requires k < |lines| && LastBlock(lines[..k], i, j, p) && lines[k] == ""
    ensures LastBlock(lines[..k + 1], i, j, p)
  {
    assert lines[..k][i..j] == lines[..k + 1][i..j];
  }

  lemma {:induction false} BlankAfterBlocks(lines: seq<string>, k: nat, paragraphs: seq<string>)
    requires k < |lines| && Blocks(lines[..k], paragraphs) && lines[k] == ""
    ensures Blocks(lines[..k + 1], paragraphs)
  {
    if paragraphs != [] {
      var n := |paragraphs| - 1;
      var i: nat, j: nat :| LastBlock(lines[..k], i, j, paragraphs[n]) && Blocks(lines[..k][..i], paragraphs[..n]);
      assert lines[..k][..i] == lines[..k + 1][..i];
      BlankBehind(lines, k, i, j, paragraphs[n]);
    }
  }

  lemma {:induction false} OneMoreBlock(lines: seq<string>, a: nat, b: nat, paragraphs: seq<string>)
    requires a < b <= |lines| && Blocks(lines[..a], paragraphs) && (a > 0 ==> lines[a - 1] == "")
    requires forall k | a <= k < b :: lines[k] != ""
    ensures Blocks(lines[..b], paragraphs + [Join(lines[a..b], "\n")])
  {
    var more := paragraphs + [Join(lines[a..b], "\n")];
    assert more[..|more| - 1] == paragraphs && lines[..b][a..b] == lines[a..b] && lines[..b][..a] == lines[..a];
    assert LastBlock(lines[..b], a, b, more[|more| - 1]);
  }

  lemma {:induction false} SameLastBlock(lines: seq<string>, i: nat, j: nat, p: string, k: nat, l: nat, q: string)
    requires LastBlock(lines, i, j, p) && LastBlock(lines, k, l, q)
    ensures i == k && j == l && p == q
  {
    assert lines[j - 1] != "" && lines[l - 1] != "";
    assert i > 0 ==> !(k <= i - 1 < l);
    assert k > 0 ==> !(i <= k - 1 < j);
  }

  lemma {:induction false} SomeLineNotBlank(lines: seq<string>, ps: seq<string>)
    requires Blocks(lines, ps)
    ensures ps != [] <==> exists k | 0 <= k < |lines| :: lines[k] != ""
  {
    if ps != [] {
      var n := |ps| - 1;
      var i: nat, j: nat :| LastBlock(lines, i, j, ps[n]) && Blocks(lines[..i], ps[..n]);
      assert lines[i] != "";
    }
  }

  /** The lines of a text determine its paragraphs. */
  lemma {:induction false} ParagraphsAreUnique(lines: seq<string>, ps: seq<string>, qs: seq<string>)
    requires Blocks(lines, ps) && Blocks(lines, qs)
    ensures ps == qs
    decreases |ps|
  {
    SomeLineNotBlank(lines, ps);
    SomeLineNotBlank(lines, qs);
    if ps != [] {
      var m, n := |ps| - 1, |qs| - 1;
      SameBlocks(lines, ps, qs);
      var i: nat :| i <= |lines| && Blocks(lines[..i], ps[..m]) && Blocks(lines[..i], qs[..n]);
      ParagraphsAreUnique(lines[..i], ps[..m], qs[..n]);
      FrontAndLast(ps);
      FrontAndLast(qs);
    }
  }

  lemma {:induction false} FrontAndLast(ps: seq<string>)
    requires ps != []
    ensures ps == ps[..|ps| - 1] + [ps[|ps| - 1]]
  {
  }

  lemma {:induction false} SameBlocks(lines: seq<string>, ps: seq<string>, qs: seq<string>)
    requires Blocks(lines, ps) && Blocks(lines, qs) && ps != [] && qs != []
    ensures ps[|ps| - 1] == qs[|qs| - 1]
    ensures exists i: nat | i <= |lines| :: Blocks(lines[..i], ps[..|ps| - 1]) && Blocks(lines[..i], qs[..|qs| - 1])
  {
    var m, n := |ps| - 1, |qs| - 1;
    var i: nat, j: nat :| LastBlock(lines, i, j, ps[m]) && Blocks(lines[..i], ps[..m]);
    var k: nat, l: nat :| LastBlock(lines, k, l, qs[n]) && Blocks(lines[..k], qs[..n]);
    SameLastBlock(lines, i, j, ps[m], k, l, qs[n]);
  }

  /** What the loop has after the first `i` lines: the blocks closed by a blank line, and the lines
      of the block that is open. */
  ghost predicate BlocksSoFar(all: seq<string>, i: nat, paragraphs: seq<string>, lines: seq<string>) {
    && |lines| <= i <= |all| && lines == all[i - |lines|..i]
    && (forall k | i - |lines| <= k < i :: all[k] != "")
    && (i - |lines| > 0 ==> all[i - |lines| - 1] == "") && Blocks(all[..i - |lines|], paragraphs)
  }

  lemma {:induction false} BlockClosed(all: seq<string>, i: nat, paragraphs: seq<string>, lines: seq<string>)
    requires BlocksSoFar(all, i, paragraphs, lines)
    ensures Blocks(all[..i], if lines == [] then paragraphs else paragraphs + [Join(lines, "\n")])
  {
    if lines != [] {
      OneMoreBlock(all, i - |lines|, i, paragraphs);
    }
  }

  lemma {:induction false} BlankLine(all: seq<string>, i: nat, paragraphs: seq<string>)
    requires i < |all| && all[i] == "" && Blocks(all[..i], paragraphs)
    ensures BlocksSoFar(all, i + 1, paragraphs, [])
  {
    BlankAfterBlocks(all, i, paragraphs);
    assert all[i + 1..i + 1] == [];
  }

  lemma {:induction false} BlockGrows(all: seq<string>, i: nat, paragraphs: seq<string>, lines: seq<string>)
    requires i < |all| && BlocksSoFar(all, i, paragraphs, lines) && all[i] != ""
    ensures BlocksSoFar(all, i + 1, paragraphs, lines + [all[i]])
  {
  }

  lemma {:induction false} OneMoreLine(before: seq<string>, lines: seq<string>, all: seq<string>, i: nat)
    requires i < |all| && before + WordsOf(lines) == WordsOf(all[..i])
    ensures var line := Join(Words(all[i]), " ");
      WordsOf(all[..i + 1]) == if line == "" then before + WordsOf(lines) else before + WordsOf(lines + [line])
  {
    var line := Join(Words(all[i]), " ");
    NormalisedLine(all[i]);
    WordsOfAppend(all[..i], all[i]);
    assert all[..i + 1] == all[..i] + [all[i]];
    WordsOfAppend(lines, line);
    assert before + WordsOf(lines) + Words(line) == before + (WordsOf(lines) + Words(line));
  }

  /** The paragraphs and, if there are any, the open lines as one more. */
  ghost predicate Flushed(paragraphs: seq<string>, lines: seq<string>, flushed: seq<string>) {
    && (forall p | p in flushed :: NormalParagraph(p)) && WordsOf(flushed) == WordsOf(paragraphs) + WordsOf(lines)
    && flushed == if lines == [] then paragraphs else paragraphs + [Join(lines, "\n")]
  }

  method FlushLines(paragraphs: seq<string>, lines: seq<string>) returns (flushed: seq<string>)
    requires (forall p | p in paragraphs :: NormalParagraph(p)) && forall l | l in lines :: NormalLine(l)
    ensures Flushed(paragraphs, lines, flushed)
  {
    flushed := paragraphs;
    if |lines| > 0 {
      flushed := paragraphs + [Join(lines, "\n")];
      JoinedLinesAreNormal(lines);
      WordsOfAppend(paragraphs, Join(lines, "\n"));
      WordsOfJoin(lines, '\n');
    }
  }

  /** And all words so far are in these, in order. */
  ghost predicate ParagraphsSoFar(all: seq<string>, i: nat, paragraphs: seq<string>, lines: seq<string>) {
    && i <= |all| && BlocksSoFar(Reduced(all), i, paragraphs, lines)
    && (forall p | p in paragraphs :: NormalParagraph(p)) && (forall l | l in lines :: NormalLine(l))
    && WordsOf(paragraphs) + WordsOf(lines) == WordsOf(all[..i])
  }

  lemma {:induction false} NothingTaken(all: seq<string>)
    ensures ParagraphsSoFar(all, 0, [], [])
  {
  }

  lemma {:induction false} LineTaken(all: seq<string>, i: nat, paragraphs: seq<string>, lines: seq<string>)
    requires i < |all| && ParagraphsSoFar(all, i, paragraphs, lines) && Join(Words(all[i]), " ") != ""
    ensures ParagraphsSoFar(all, i + 1, paragraphs, lines + [Join(Words(all[i]), " ")])
  {
    NormalisedLine(all[i]);
    OneMoreLine(WordsOf(paragraphs), lines, all, i);
    assert Reduced(all)[i] == Join(Words(all[i]), " ");
    BlockGrows(Reduced(all), i, paragraphs, lines);
  }

  lemma {:induction false} BlankTaken(all: seq<string>, i: nat, paragraphs: seq<string>, lines: seq<string>,
      flushed: seq<string>)
    requires i < |all| && ParagraphsSoFar(all, i, paragraphs, lines) && Join(Words(all[i]), " ") == ""
    requires Flushed(paragraphs, lines, flushed)
    ensures ParagraphsSoFar(all, i + 1, flushed, [])
  {
    OneMoreLine(WordsOf(paragraphs), lines, all, i);
    assert Reduced(all)[i] == Join(Words(all[i]), " ");
    BlockEnds(Reduced(all), i, paragraphs, lines, flushed);
    NoOpenLines(WordsOf(flushed));
  }

  lemma {:induction false} NoOpenLines(words: seq<string>)
    ensures words + WordsOf([]) == words
  {
  }

  lemma {:induction false} BlockEnds(all: seq<string>, i: nat, paragraphs: seq<string>, lines: seq<string>,
      flushed: seq<string>)
    requires i < |all| && BlocksSoFar(all, i, paragraphs, lines) && all[i] == ""
    requires flushed == if lines == [] then paragraphs else paragraphs + [Join(lines, "\n")]
    ensures BlocksSoFar(all, i + 1, flushed, [])
  {
    BlockClosed(all, i, paragraphs, lines);
    BlankLine(all, i, flushed);
  }

  lemma {:induction false} AllBlocks(all: seq<string>, paragraphs: seq<string>, lines: seq<string>)
    requires BlocksSoFar(all, |all|, paragraphs, lines)
    ensures Blocks(all, if lines == [] then paragraphs else paragraphs + [Join(lines, "\n")])
  {
    assert all[..|all|] == all;
    BlockClosed(all, |all|, paragraphs, lines);
  }

  lemma {:induction false} AllWords(content: string)
    ensures var all := SplitAt(content, '\n'); WordsOf(all[..|all|]) == Words(content)
  {
    var all := SplitAt(content, '\n');
    assert all[..|all|] == all;
    WordsOfJoin(all, '\n');
    JoinOfSplit(content, '\n');
  }

  lemma {:induction false} AllTaken(content: string, paragraphs: seq<string>, lines: seq<string>, flushed: seq<string>)
    requires var all := SplitAt(content, '\n'); ParagraphsSoFar(all, |all|, paragraphs, lines)
    requires Flushed(paragraphs, lines, flushed)
    ensures Blocks(Reduced(SplitAt(content, '\n')), flushed) && WordsOf(flushed) == Words(content)
  {
    AllBlocks(Reduced(SplitAt(content, '\n')), paragraphs, lines);
    AllWords(content);
  }

  /** Takes one more line: it closes the open block if it is blank, and belongs to it if not. */
  method TakeLine(all: seq<string>, i: nat, paragraphs: seq<string>, lines: seq<string>)
      returns (flushed: seq<string>, open: seq<string>)
    requires i < |all| && ParagraphsSoFar(all, i, paragraphs, lines)
    ensures ParagraphsSoFar(all, i + 1, flushed, open)
  {
    var line := Join(Words(all[i]), " ");
    if line == "" {
      flushed := FlushLines(paragraphs, lines);
      open := [];
      BlankTaken(all, i, paragraphs, lines, flushed);
    } else {
      flushed, open := paragraphs, lines + [line];
      LineTaken(all, i, paragraphs, lines);
    }
  }

  method TakeLines(all: seq<string>) returns (paragraphs: seq<string>, open: seq<string>)
    ensures ParagraphsSoFar(all, |all|, paragraphs, open)
  {
    paragraphs, open := [], [];
    NothingTaken(all);
    for i := 0 to |all|
      invariant ParagraphsSoFar(all, i, paragraphs, open)
    {
      paragraphs, open := TakeLine(all, i, paragraphs, open);
    }
  }

  /** Paragraphs are the blocks of lines between blank ones, every line reduced to its words; no word
      is lost, added or moved. */
  method SplitParagraphs(content: string) returns (paragraphs: seq<string>)
    ensures Blocks(Reduced(SplitAt(content, '\n')), paragraphs)
    ensures forall p | p in paragraphs :: NormalParagraph(p)
    ensures WordsOf(paragraphs) == Words(content)
  {
    var closed, open := TakeLines(SplitAt(content, '\n'));
    paragraphs := FlushLines(closed, open);
    AllTaken(content, closed, open, paragraphs);
  }

  // ---- Sentences ---------------------------------------------------------------------------

  predicate IsTerminator(c: char) {
    c == '.' || c == '!' || c == '?' || c == '\U{2026}'
  }

  predicate IsCloser(c: char) {
    c == '"' || c == '\'' || c == ')' || c == ']' || c == '}' || c == '\U{BB}' || c == '\U{201D}' || c == '\U{2019}'
  }

  predicate EndsRun(c: char) {
    IsTerminator(c) || IsCloser(c)
  }

  /** A terminator at t, then only terminators and closers up to e. */
  ghost predicate Run(s: string, t: int, e: int) {
    0 <= t < e <= |s| && IsTerminator(s[t]) && forall j | t < j < e :: EndsRun(s[j])
  }

  /** White space right after such a run is where a sentence ends. */
  ghost predicate NoBoundaryInside(s: string) {
    forall t, e | Run(s, t, e) && e < |s| :: !IsSpace(s[e])
  }

  ghost predicate EndsSentence(s: string) {
    exists t :: Run(s, t, |s|)
  }

  /** The sentences of a normal line: they join to the line, are split at every boundary, and
      nowhere else. */
  ghost predicate SentencesOf(line: string, out: seq<string>) {
    && out != [] && Join(out, " ") == line
    && (forall s | s in out :: NormalLine(s) && NoBoundaryInside(s))
    && (forall i | 0 <= i < |out| - 1 :: EndsSentence(out[i]))
  }

  function TrimLeft(s: string): string {
    if s != "" && IsSpace(s[0]) then TrimLeft(s[1..]) else s
  }

  function TrimRight(s: string): string {
    if s != "" && IsSpace(s[|s| - 1]) then TrimRight(s[..|s| - 1]) else s
  }

  function TrimSpace(s: string): string {
    TrimRight(TrimLeft(s))
  }

  /** No boundary starts in line[start..i]. */
  ghost predicate NoneYet(line: string, start: int, i: int) {
    forall t, e | start <= t < i && Run(line, t, e) && e < |line| :: !IsSpace(line[e])
  }

  /** What the loop has when it stands at a sentence start of a normal line. */
  ghost predicate SplitUpTo(line: string, out: seq<string>, start: int) {
    && 0 <= start <= |line|
    && (if out == [] then start == 0 else start < |line| && Join(out, " ") + " " == line[..start])
    && (start < |line| ==> !IsSpace(line[start]))
    && (forall s | s in out :: NormalLine(s) && NoBoundaryInside(s) && EndsSentence(s))
  }

  lemma {:induction false} SliceIsNormal(line: string, a: int, b: int)
    requires NormalLine(line) && 0 <= a < b <= |line| && !IsSpace(line[a]) && !IsSpace(line[b - 1])
    ensures NormalLine(line[a..b]) && TrimSpace(line[a..b]) == line[a..b]
  {
    var s := line[a..b];
    forall i | 0 <= i < |s| && IsSpace(s[i]) ensures s[i] == ' ' && i + 1 < |s| && !IsSpace(s[i + 1]) {
      assert s[i] == line[a + i];
      assert a + i != b - 1;
      assert s[i + 1] == line[a + i + 1];
    }
  }

  lemma {:induction false} SliceHasNoBoundary(line: string, a: int, b: int)
    requires 0 <= a <= b <= |line|
    requires forall t, e | a <= t && Run(line, t, e) && e < b :: !IsSpace(line[e])
    ensures NoBoundaryInside(line[a..b])
  {
    var s := line[a..b];
    forall t, e | Run(s, t, e) && e < |s| ensures !IsSpace(s[e]) {
      assert Run(line, a + t, a + e) by {
        forall j | a + t < j < a + e ensures EndsRun(line[j]) {
          assert s[j - a] == line[j];
        }
      }
      assert s[e] == line[a + e];
    }
  }

  /** The next sentence line[start..end] ends with the run from i to end, before a blank. */
  lemma {:induction false} SentenceFound(line: string, out: seq<string>, start: int, i: int, end: int)
    requires NormalLine(line) && SplitUpTo(line, out, start) && NoneYet(line, start, i)
    requires start <= i && Run(line, i, end) && end < |line| && IsSpace(line[end])
    ensures TrimSpace(line[start..end]) == line[start..end] && line[start..end] != ""
    ensures SplitUpTo(line, out + [line[start..end]], end + 1)
  {
    var s := line[start..end];
    assert !IsSpace(line[end - 1]);
    SliceIsNormal(line, start, end);
    SentenceIsWhole(line, start, i, end);
    JoinAppend(out, s, " ");
    SentenceAppended(line, out, start, end);
  }

  lemma {:induction false} SentenceIsWhole(line: string, start: int, i: int, end: int)
    requires 0 <= start <= i && NoneYet(line, start, i) && Run(line, i, end) && end < |line|
    ensures NoBoundaryInside(line[start..end]) && EndsSentence(line[start..end])
  {
    var s := line[start..end];
    forall t, e | start <= t && Run(line, t, e) && e < end ensures !IsSpace(line[e]) {
      if i <= t && i < e {
        assert EndsRun(line[e]);
      }
    }
    SliceHasNoBoundary(line, start, end);
    assert Run(s, i - start, |s|) by {
      forall j | i - start < j < |s| ensures EndsRun(s[j]) {
        assert s[j] == line[start + j];
      }
    }
  }

  lemma {:induction false} SentenceAppended(line: string, out: seq<string>, start: int, end: int)
    requires 0 <= start < end < |line| && line[end] == ' '
    requires if out == [] then start == 0 else Join(out, " ") + " " == line[..start]
    ensures Join(out + [line[start..end]], " ") + " " == line[..end + 1]
  {
    JoinAppend(out, line[start..end], " ");
    SlicesJoin(line, start, end);
  }

  lemma {:induction false} SlicesJoin(line: string, start: int, end: int)
    requires 0 <= start <= end < |line| && line[end] == ' '
    ensures line[..start] + line[start..end] == line[..end] && line[..end] + " " == line[..end + 1]
  {
  }

  lemma {:induction false} LastSentence(line: string, out: seq<string>, start: int)
    requires NormalLine(line) && SplitUpTo(line, out, start) && NoneYet(line, start, |line|)
    ensures start < |line| && TrimSpace(line[start..]) == line[start..] && line[start..] != ""
    ensures SentencesOf(line, out + [line[start..]])
  {
    SliceIsNormal(line, start, |line|);
    assert line[start..|line|] == line[start..];
    SliceHasNoBoundary(line, start, |line|);
    JoinAppend(out, line[start..], " ");
    assert line[..start] + line[start..] == line;
  }

  lemma {:induction false} NotHere(line: string, start: int, i: int)
    requires 0 <= i < |line| && NoneYet(line, start, i) && !IsTerminator(line[i])
    ensures NoneYet(line, start, i + 1)
  {
  }

  /** A terminator whose run is not followed by a blank starts no boundary. */
  lemma {:induction false} RunIsNoBoundary(line: string, start: int, i: int, end: int)
    requires 0 <= i < |line| && NoneYet(line, start, i) && Run(line, i, end)
    requires end < |line| ==> !EndsRun(line[end]) && !IsSpace(line[end])
    ensures NoneYet(line, start, i + 1)
  {
    forall e | Run(line, i, e) && e < |line| ensures !IsSpace(line[e]) {
      assert e < end ==> EndsRun(line[e]);
    }
  }

  /** The end of the run of terminators and closers that starts at i. */
  method RunEnd(line: string, i: int) returns (end: int)
    requires 0 <= i < |line| && IsTerminator(line[i])
    ensures Run(line, i, end) && (end < |line| ==> !EndsRun(line[end]))
  {
    end := i + 1;
    while end < |line| && EndsRun(line[end])
      invariant i < end <= |line|
      invariant Run(line, i, end)
    {
      end := end + 1;
    }
  }

  /** What the loop knows at rune `i`, with the sentences so far and the start of the next one. */
  ghost predicate SplittingAt(line: string, out: seq<string>, start: int, i: int) {
    && 0 <= start <= |line| && start <= i && (i <= |line| || start == i) && (forall s | s in out :: s != "")
    && (NormalLine(line) ==> SplitUpTo(line, out, start) && NoneYet(line, start, i))
  }

  lemma {:induction false} PassesRune(line: string, out: seq<string>, start: int, i: int)
    requires SplittingAt(line, out, start, i) && i < |line| && !IsTerminator(line[i])
    ensures SplittingAt(line, out, start, i + 1)
  {
    if NormalLine(line) {
      NotHere(line, start, i);
    }
  }

  lemma {:induction false} PassesRun(line: string, out: seq<string>, start: int, i: int, end: int)
    requires SplittingAt(line, out, start, i) && i < |line| && Run(line, i, end)
    requires end < |line| ==> !EndsRun(line[end]) && !IsSpace(line[end])
    ensures SplittingAt(line, out, start, i + 1)
  {
    if NormalLine(line) {
      RunIsNoBoundary(line, start, i, end);
    }
  }

  function WithSentence(out: seq<string>, sentence: string): seq<string> {
    if sentence != "" then out + [sentence] else out
  }

  lemma {:induction false} Splits(line: string, out: seq<string>, start: int, i: int, end: int)
    requires SplittingAt(line, out, start, i) && i < |line| && Run(line, i, end) && end < |line| && IsSpace(line[end])
    ensures SplittingAt(line, WithSentence(out, TrimSpace(line[start..end])), end + 1, end + 1)
  {
    if NormalLine(line) {
      SentenceFound(line, out, start, i, end);
    }
  }

  method AddSentence(out: seq<string>, slice: string) returns (added: seq<string>)
    ensures added == WithSentence(out, TrimSpace(slice))
  {
    added := out;
    var sentence := TrimSpace(slice);
    if sentence != "" {
      added := out + [sentence];
    }
  }

  method SplitSentences(line: string) returns (out: seq<string>)
    ensures NormalLine(line) ==> SentencesOf(line, out)
    ensures forall s | s in out :: s != ""
  {
    out := [];
    var start, i := 0, 0;
    while i < |line|
      invariant SplittingAt(line, out, start, i)
    {
      if !IsTerminator(line[i]) {
        PassesRune(line, out, start, i);
        i := i + 1;
        continue;
      }
      var end := RunEnd(line, i);
      if end < |line| && IsSpace(line[end]) {
        Splits(line, out, start, i, end);
        out := AddSentence(out, line[start..end]);
        start := end + 1;
        i := end;
      } else {
        PassesRun(line, out, start, i, end);
      }
      i := i + 1;
    }
    if start < |line| {
      if NormalLine(line) { LastSentence(line, out, start); }
      out := AddSentence(out, line[start..]);
    }
  }

  // ---- Words -------------------------------------------------------------------------------

  /** A piece up to its first blank. */
  function LeadingWord(text: string): string {
    if text == "" || text[0] == ' ' then "" else [text[0]] + LeadingWord(text[1..])
  }

  /** A piece without a lead continues a word longer than the limit: it is of that word only, and so
      is the piece before it, which is full. */
  ghost predicate Continues(prev: Piece, next: Piece, limit: nat) {
    |prev.text| == limit && ' ' !in prev.text && ' ' !in next.text
  }

  /** A piece begins with a word that did not fit behind the piece before it, or is the first after
      a broken word. */
  ghost predicate Overflows(prev: Piece, next: Piece, limit: nat) {
    prev.lead == "" || |prev.text| + 1 + |LeadingWord(next.text)| > limit
  }

  /** Words packed greedily: a piece ends only where the next word does not fit, and only a word
      longer than the limit is broken. */
  ghost predicate Greedy(pieces: seq<Piece>, limit: nat) {
    forall i | 0 < i < |pieces| ::
      if pieces[i].lead == "" then Continues(pieces[i - 1], pieces[i], limit)
        else Overflows(pieces[i - 1], pieces[i], limit)
  }

  ghost predicate WordPieces(pieces: seq<Piece>, limit: nat) {
    && PiecesOk(pieces, limit)
    && (forall p | p in pieces :: p.lead == "" || p.lead == " ")
    && (pieces != [] ==> pieces[0].lead == " ")
    && Greedy(pieces, limit)
  }

  lemma {:induction false} WordPieceAppend(pieces: seq<Piece>, p: Piece, limit: nat)
    requires WordPieces(pieces, limit) && 1 <= |p.text| <= limit && (p.lead == "" || p.lead == " ")
    requires pieces == [] ==> p.lead == " "
    requires pieces != [] ==>
      var prev := pieces[|pieces| - 1];
      if p.lead == "" then Continues(prev, p, limit) else Overflows(prev, p, limit)
    ensures WordPieces(pieces + [p], limit)
    ensures Rendered(pieces + [p]) == if pieces == [] then p.text else Rendered(pieces) + p.lead + p.text
  {
    RenderedAppend(pieces, p);
    GreedyAppend(pieces, p, limit);
  }

  lemma {:induction false} GreedyAppend(pieces: seq<Piece>, p: Piece, limit: nat)
    requires Greedy(pieces, limit)
    requires pieces != [] ==>
      var prev := pieces[|pieces| - 1];
      if p.lead == "" then Continues(prev, p, limit) else Overflows(prev, p, limit)
    ensures Greedy(pieces + [p], limit)
  {
    var all := pieces + [p];
    forall i | 0 < i < |all|
      ensures if all[i].lead == "" then Continues(all[i - 1], all[i], limit) else Overflows(all[i - 1], all[i], limit)
    {
      assert all[i - 1] == pieces[i - 1] && (i < |pieces| ==> all[i] == pieces[i]);
    }
  }

  /** The text so far: the pieces, and the piece being filled. */
  function WithCurrent(pieces: seq<Piece>, current: string): seq<Piece> {
    if current == "" then pieces else pieces + [Piece(current, " ")]
  }

  /** No piece is being filled only at the start and after a broken word. */
  ghost predicate Filling(pieces: seq<Piece>, current: string, limit: nat) {
    && WordPieces(WithCurrent(pieces, current), limit)
    && (current == "" && pieces != [] ==> pieces[|pieces| - 1].lead == "")
  }

  lemma {:induction false} LeadingWordOfWord(word: string)
    requires ' ' !in word
    ensures LeadingWord(word) == word
  {
    if word != "" {
      assert forall c | c in word[1..] :: c in word;
      LeadingWordOfWord(word[1..]);
      assert word == [word[0]] + word[1..];
    }
  }

  lemma {:induction false} LeadingWordStays(text: string, more: string)
    requires text != ""
    ensures LeadingWord(text + " " + more) == LeadingWord(text)
  {
    var all := text + " " + more;
    assert all[0] == text[0];
    if text[0] != ' ' {
      assert all[1..] == text[1..] + " " + more;
      if text[1..] != "" {
        LeadingWordStays(text[1..], more);
      } else {
        assert all[1] == ' ';
      }
    }
  }

  /** The last piece is the one that was cut off last. */
  ghost predicate Broken(out: seq<Piece>, word: string, start: nat, limit: nat) {
    && out != [] && ' ' !in out[|out| - 1].text && (start < |word| ==> |out[|out| - 1].text| == limit)
    && (start > limit ==> out[|out| - 1].lead == "")
  }

  /** Behind these pieces the word is cut up to `start`. */
  ghost predicate Breaking(pieces: seq<Piece>, out: seq<Piece>, word: string, start: nat, limit: nat) {
    && WordPieces(out, limit)
    && if start == 0 then out == pieces
       else Broken(out, word, start, limit) && Rendered(out) == Behind(pieces) + word[..Min(start, |word|)]
  }

  /** The text of the pieces and the blank behind it. */
  function Behind(pieces: seq<Piece>): string {
    if pieces == [] then "" else Rendered(pieces) + " "
  }

  function CutOff(word: string, start: nat, limit: nat): Piece
    requires start < |word|
  {
    Piece(word[start..Min(start + limit, |word|)], if start > 0 then "" else " ")
  }

  /** A word longer than the limit is cut every `limit` runes. */
  method BreakWord(pieces: seq<Piece>, word: string, limit: nat) returns (out: seq<Piece>)
    requires limit > 0 && WordPieces(pieces, limit) && |word| > limit && ' ' !in word
    ensures WordPieces(out, limit) && out != [] && out[|out| - 1].lead == ""
    ensures Rendered(out) == Behind(pieces) + word
  {
    out := pieces;
    var start := 0;
    while start < |word|
      invariant 0 <= start && Breaking(pieces, out, word, start, limit)
      decreases |word| - start
    {
      CutKeeps(pieces, out, word, start, limit);
      out := out + [CutOff(word, start, limit)];
      start := start + limit;
    }
    WholeWord(pieces, out, word, start, limit);
  }

  lemma {:induction false} WholeWord(pieces: seq<Piece>, out: seq<Piece>, word: string, start: nat, limit: nat)
    requires limit > 0 && |word| > limit && start >= |word| && Breaking(pieces, out, word, start, limit)
    ensures out != [] && out[|out| - 1].lead == "" && Rendered(out) == Behind(pieces) + word
  {
    assert word[..|word|] == word;
  }

  lemma {:induction false} CutKeeps(pieces: seq<Piece>, out: seq<Piece>, word: string, start: nat, limit: nat)
    requires limit > 0 && |word| > limit && ' ' !in word && start < |word|
    requires Breaking(pieces, out, word, start, limit)
    ensures Breaking(pieces, out + [CutOff(word, start, limit)], word, start + limit, limit)
  {
    CutFits(out, word, start, limit);
    WordPieceAppend(out, CutOff(word, start, limit), limit);
    CutWord(Behind(pieces), word, start, Min(start + limit, |word|));
  }

  lemma {:induction false} CutFits(out: seq<Piece>, word: string, start: nat, limit: nat)
    requires limit > 0 && |word| > limit && ' ' !in word && start < |word|
    requires WordPieces(out, limit) && (start > 0 ==> Broken(out, word, start, limit))
    ensures ' ' !in CutOff(word, start, limit).text
    ensures out != [] ==>
      var prev, p := out[|out| - 1], CutOff(word, start, limit);
      if start > 0 then Continues(prev, p, limit) else Overflows(prev, p, limit)
  {
    var text := CutOff(word, start, limit).text;
    assert forall c | c in text :: c in word;
    LeadingWordOfWord(text);
    if out != [] {
      assert out[|out| - 1] in out;
    }
  }

  lemma {:induction false} CutWord(before: string, word: string, start: int, end: int)
    requires 0 <= start <= end <= |word|
    ensures before + word[..start] + "" + word[start..end] == before + word[..end]
    ensures before + word[0..end] == before + word[..end]
  {
    assert word[..start] + word[start..end] == word[..end];
  }

  function Min(a: int, b: int): int {
    if a < b then a else b
  }

  /** Adds a word to the piece being filled, or starts the next one, or breaks the word. */
  method AddWord(pieces: seq<Piece>, current: string, word: string, limit: nat)
      returns (out: seq<Piece>, grown: string)
    requires limit > 0 && Filling(pieces, current, limit) && word != "" && ' ' !in word
    ensures Filling(out, grown, limit) && WithCurrent(out, grown) != []
    ensures var before := WithCurrent(pieces, current);
      Rendered(WithCurrent(out, grown)) == if before == [] then word else Rendered(before) + " " + word
  {
    if |word| > limit {
      var closed := FlushCurrent(pieces, current);
      out := BreakWord(closed, word, limit);
      grown := "";
    } else {
      var separator := if current == "" then 0 else 1;
      if |current| + separator + |word| > limit {
        out := FlushCurrent(pieces, current);
        grown := word;
        WordOverflows(pieces, current, word, limit);
      } else {
        out := pieces;
        grown := (if separator == 1 then current + " " else current) + word;
        GrowCurrent(pieces, current, word);
        WordFits(pieces, current, word, limit);
      }
    }
  }

  /** The piece being filled is closed and the word starts the next one. */
  lemma {:induction false} WordOverflows(pieces: seq<Piece>, current: string, word: string, limit: nat)
    requires Filling(pieces, current, limit) && 1 <= |word| <= limit && ' ' !in word
    requires current != "" && |current| + 1 + |word| > limit
    ensures Filling(WithCurrent(pieces, current), word, limit)
    ensures Rendered(WithCurrent(WithCurrent(pieces, current), word))
      == Rendered(WithCurrent(pieces, current)) + " " + word
  {
    LeadingWordOfWord(word);
    WordPieceAppend(WithCurrent(pieces, current), Piece(word, " "), limit);
  }

  lemma {:induction false} WordFits(pieces: seq<Piece>, current: string, word: string, limit: nat)
    requires Filling(pieces, current, limit) && word != "" && ' ' !in word
    requires |current| + (if current == "" then 0 else 1) + |word| <= limit
    ensures Filling(pieces, (if current == "" then current else current + " ") + word, limit)
  {
    var grown := (if current == "" then current else current + " ") + word;
    if current == "" {
      assert grown == word;
      WordPieceAppend(pieces, Piece(grown, " "), limit);
    } else {
      LeadingWordStays(current, word);
      LongerPiece(pieces, current, grown, limit);
    }
  }

  lemma {:induction false} LongerPiece(pieces: seq<Piece>, current: string, grown: string, limit: nat)
    requires current != "" && WordPieces(pieces + [Piece(current, " ")], limit)
    requires |grown| <= limit && grown != "" && LeadingWord(grown) == LeadingWord(current)
    ensures WordPieces(pieces + [Piece(grown, " ")], limit)
  {
    var before, after := pieces + [Piece(current, " ")], pieces + [Piece(grown, " ")];
    FrontPieces(pieces, Piece(current, " "), limit);
    if pieces != [] {
      assert before[|pieces|] == Piece(current, " ") && before[|pieces| - 1] == pieces[|pieces| - 1];
    }
    WordPieceAppend(pieces, Piece(grown, " "), limit);
  }

  lemma {:induction false} FrontPieces(pieces: seq<Piece>, p: Piece, limit: nat)
    requires WordPieces(pieces + [p], limit)
    ensures WordPieces(pieces, limit)
  {
    var all := pieces + [p];
    forall q | q in pieces ensures q in all {
    }
    forall i | 0 <= i < |pieces| ensures pieces[i] == all[i] {
    }
  }

  lemma {:induction false} NormalIsItsWords(sentence: string)
    requires NormalLine(sentence)
    ensures Join(Words(sentence), " ") == sentence
  {
    assert "" + sentence == sentence;
    NormalLineIsItsWords(sentence, "");
  }

  lemma {:induction false} OneMoreWord(words: seq<string>, k: nat)
    requires k < |words| && forall w | w in words :: IsWord(w)
    ensures Join(words[..k + 1], " ") == if k == 0 then words[k] else Join(words[..k], " ") + " " + words[k]
    ensures words[k] != "" && ' ' !in words[k]
  {
    assert words[k] in words && IsSpace(' ');
    JoinAppend(words[..k], words[k], " ");
    assert words[..k + 1] == words[..k] + [words[k]];
  }

  /** Words packed greedily into pieces of at most `limit` runes: nothing but blanks between them
      is dropped, and only a word longer than the limit is broken. */
  method SplitWords(sentence: string, limit: nat) returns (out: seq<Piece>)
    requires limit > 0
    ensures WordPieces(out, limit)
    ensures Rendered(out) == Join(Words(sentence), " ")
    ensures NormalLine(sentence) ==> Rendered(out) == sentence
  {
    var words := Words(sentence);
    WordsAreWords(sentence, "");
    out := PackWords(words, limit);
    if NormalLine(sentence) {
      NormalIsItsWords(sentence);
    }
  }

  /** The first `k` words, packed. */
  ghost predicate WordsPacked(words: seq<string>, k: nat, out: seq<Piece>, current: string, limit: nat) {
    && k <= |words| && Filling(out, current, limit) && (k == 0 <==> WithCurrent(out, current) == [])
    && Rendered(WithCurrent(out, current)) == Join(words[..k], " ")
  }

  method PackWord(words: seq<string>, k: nat, out: seq<Piece>, current: string, limit: nat)
      returns (packed: seq<Piece>, grown: string)
    requires limit > 0 && (forall w | w in words :: IsWord(w)) && k < |words|
      && WordsPacked(words, k, out, current, limit)
    ensures WordsPacked(words, k + 1, packed, grown, limit)
  {
    OneMoreWord(words, k);
    packed, grown := AddWord(out, current, words[k], limit);
  }

  method PackWords(words: seq<string>, limit: nat) returns (out: seq<Piece>)
    requires limit > 0 && forall w | w in words :: IsWord(w)
    ensures WordPieces(out, limit)
    ensures Rendered(out) == Join(words, " ")
  {
    out := [];
    var current := "";
    for k := 0 to |words|
      invariant WordsPacked(words, k, out, current, limit)
    {
      out, current := PackWord(words, k, out, current, limit);
    }
    assert words[..|words|] == words;
    out := FlushCurrent(out, current);
  }

  method FlushCurrent(pieces: seq<Piece>, current: string) returns (out: seq<Piece>)
    ensures out == WithCurrent(pieces, current)
  {
    out := pieces;
    if |current| > 0 {
      out := pieces + [Piece(current, " ")];
    }
  }

  lemma {:induction false} GrowCurrent(pieces: seq<Piece>, current: string, word: string)
    requires word != ""
    ensures var grown := (if current == "" then current else current + " ") + word;
      Rendered(WithCurrent(pieces, grown))
        == if WithCurrent(pieces, current) == [] then word else Rendered(WithCurrent(pieces, current)) + " " + word
  {
    var grown := (if current == "" then current else current + " ") + word;
    RenderedAppend(pieces, Piece(grown, " "));
    RenderedAppend(pieces, Piece(current, " "));
    if current == "" {
      assert grown == word;
    } else if pieces != [] {
      assert Rendered(pieces) + " " + grown == Rendered(pieces) + " " + current + " " + word;
    }
  }

  // ---- Paragraphs too long -----------------------------------------------------------------

  /** The pieces of an oversized paragraph so far, `done` being the text they render to. */
  ghost predicate PiecesOf(pieces: seq<Piece>, done: string, limit: nat) {
    && PiecesOk(pieces, limit) && Rendered(pieces) == done && (pieces != [] ==> pieces[0].lead == "")
  }

  /** A sentence is one piece if it fits, and packed by words if not; the first piece has its lead. */
  ghost predicate SentencePieces(sentence: string, lead: string, limit: nat, ps: seq<Piece>) {
    if |sentence| <= limit then ps == [Piece(sentence, lead)]
    else exists words :: WordsWithLead(words, sentence, lead, limit, ps)
  }

  ghost predicate WordsWithLead(words: seq<Piece>, sentence: string, lead: string, limit: nat, ps: seq<Piece>) {
    && words != [] && WordPieces(words, limit) && Rendered(words) == sentence
    && ps == [words[0].(lead := lead)] + words[1..]
  }

  /** A line is cut by its sentences. */
  ghost predicate LinePieces(sentences: seq<string>, lead: string, limit: nat, ps: seq<Piece>)
    decreases |sentences|
  {
    if sentences == [] then ps == []
    else
      var n := |sentences| - 1;
      exists k: nat | k <= |ps| ::
        && LinePieces(sentences[..n], lead, limit, ps[..k])
        && SentencePieces(sentences[n], if n == 0 then lead else " ", limit, ps[k..])
  }

  /** The pieces of one line, whatever its sentences are. */
  ghost predicate PiecesOfLine(line: string, lead: string, limit: nat, ps: seq<Piece>) {
    exists sentences :: SentencesOf(line, sentences) && LinePieces(sentences, lead, limit, ps)
  }

  /** A paragraph is cut by its lines first. */
  ghost predicate ParagraphPieces(lines: seq<string>, limit: nat, ps: seq<Piece>)
    decreases |lines|
  {
    if lines == [] then ps == []
    else
      var n := |lines| - 1;
      exists k: nat | k <= |ps| ::
        && ParagraphPieces(lines[..n], limit, ps[..k])
        && PiecesOfLine(lines[n], if n == 0 then "" else "\n", limit, ps[k..])
  }

  lemma {:induction false} NextSentence(sentences: seq<string>, si: nat, lead: string, limit: nat, out: seq<Piece>,
      n: nat, m: nat)
    requires si < |sentences| && n <= m <= |out| && LinePieces(sentences[..si], lead, limit, out[n..m])
    requires SentencePieces(sentences[si], if si == 0 then lead else " ", limit, out[m..])
    ensures LinePieces(sentences[..si + 1], lead, limit, out[n..])
  {
    var more, ps, k := sentences[..si + 1], out[n..], m - n;
    assert more[..|more| - 1] == sentences[..si] && more[|more| - 1] == sentences[si];
    assert ps[..k] == out[n..m] && ps[k..] == out[m..];
  }

  lemma {:induction false} NextLine(lines: seq<string>, li: nat, limit: nat, out: seq<Piece>, m: nat)
    requires li < |lines| && m <= |out| && ParagraphPieces(lines[..li], limit, out[..m])
    requires PiecesOfLine(lines[li], if li == 0 then "" else "\n", limit, out[m..])
    ensures ParagraphPieces(lines[..li + 1], limit, out)
  {
    var more := lines[..li + 1];
    assert more[..|more| - 1] == lines[..li] && more[|more| - 1] == lines[li];
  }

  /** The first `wi` words of a sentence behind these pieces. */
  ghost predicate WordsBehind(pieces: seq<Piece>, out: seq<Piece>, words: seq<Piece>, wi: nat, lead: string, limit: nat)
  {
    && wi <= |words| && PiecesOk(out, limit) && (out != [] ==> out[0].lead == "")
    && if wi == 0 then out == pieces
       else
         && out == pieces + ([words[0].(lead := lead)] + words[1..wi])
         && Rendered(out) == Rendered(pieces) + lead + Rendered(words[..wi])
  }

  /** The piece that comes next; the first has the sentence's lead. */
  function NextPiece(words: seq<Piece>, wi: nat, lead: string): Piece
    requires wi < |words|
  {
    if wi == 0 then words[0].(lead := lead) else words[wi]
  }

  lemma {:induction false} WordBehind(pieces: seq<Piece>, out: seq<Piece>, words: seq<Piece>, wi: nat, lead: string,
      limit: nat)
    requires wi < |words| && PiecesOk(words, limit) && |lead| <= MaxLead && (pieces == [] ==> lead == "")
    requires WordsBehind(pieces, out, words, wi, lead, limit)
    ensures WordsBehind(pieces, out + [NextPiece(words, wi, lead)], words, wi + 1, lead, limit)
  {
    PieceAppended(out, NextPiece(words, wi, lead), words, wi, limit);
    if wi == 0 {
      FirstWord(pieces, words, lead);
      assert words[1..1] == [];
    } else {
      NextWord(Rendered(pieces) + lead, out, words, wi);
      OneMorePieceBehind(pieces, words, lead, wi);
    }
  }

  /** The pieces of one sentence behind what is there, the first one with the sentence's lead. */
  method AppendWords(pieces: seq<Piece>, words: seq<Piece>, lead: string, limit: nat) returns (out: seq<Piece>)
    requires PiecesOk(words, limit) && words != [] && |lead| <= MaxLead
    requires PiecesOk(pieces, limit) && (if pieces == [] then lead == "" else pieces[0].lead == "")
    ensures PiecesOf(out, Rendered(pieces) + lead + Rendered(words), limit)
    ensures out == pieces + ([words[0].(lead := lead)] + words[1..])
  {
    out := pieces;
    for wi := 0 to |words|
      invariant WordsBehind(pieces, out, words, wi, lead, limit)
    {
      WordBehind(pieces, out, words, wi, lead, limit);
      out := out + [NextPiece(words, wi, lead)];
    }
    assert words[..|words|] == words && words[1..|words|] == words[1..];
  }

  lemma {:induction false} OneMorePieceBehind(pieces: seq<Piece>, words: seq<Piece>, lead: string, wi: nat)
    requires 0 < wi < |words|
    ensures pieces + ([words[0].(lead := lead)] + words[1..wi]) + [words[wi]]
      == pieces + ([words[0].(lead := lead)] + words[1..wi + 1])
  {
  }

  lemma {:induction false} PieceAppended(out: seq<Piece>, word: Piece, words: seq<Piece>, wi: nat, limit: nat)
    requires PiecesOk(out, limit) && PiecesOk(words, limit) && wi < |words| && word.text == words[wi].text
    requires |word.lead| <= MaxLead || word.lead == words[wi].lead
    ensures PiecesOk(out + [word], limit)
  {
    assert words[wi] in words;
  }

  lemma {:induction false} FirstWord(pieces: seq<Piece>, words: seq<Piece>, lead: string)
    requires words != [] && (pieces == [] ==> lead == "")
    ensures Rendered(pieces + [words[0].(lead := lead)]) == Rendered(pieces) + lead + Rendered(words[..1])
  {
    RenderedAppend(pieces, words[0].(lead := lead));
  }

  lemma {:induction false} NextWord(before: string, out: seq<Piece>, words: seq<Piece>, wi: nat)
    requires 0 < wi < |words| && out != [] && Rendered(out) == before + Rendered(words[..wi])
    ensures Rendered(out + [words[wi]]) == before + Rendered(words[..wi + 1])
  {
    RenderedAppend(out, words[wi]);
    RenderedAppend(words[..wi], words[wi]);
    assert words[..wi + 1] == words[..wi] + [words[wi]];
    Regroup(before, Rendered(words[..wi]), words[wi].lead, words[wi].text);
  }

  lemma {:induction false} Regroup(a: string, b: string, c: string, d: string)
    ensures a + b + c + d == a + (b + c + d)
  {
  }

  /** One sentence, whole if it fits and by words if not. */
  method AppendSentence(pieces: seq<Piece>, sentence: string, lead: string, limit: nat) returns (out: seq<Piece>)
    requires limit > 0 && NormalLine(sentence) && |lead| <= MaxLead
    requires PiecesOk(pieces, limit) && (if pieces == [] then lead == "" else pieces[0].lead == "")
    ensures PiecesOf(out, Rendered(pieces) + lead + sentence, limit)
    ensures |out| > |pieces| && out[..|pieces|] == pieces && SentencePieces(sentence, lead, limit, out[|pieces|..])
  {
    if |sentence| <= limit {
      RenderedAppend(pieces, Piece(sentence, lead));
      assert "" + "" + sentence == sentence;
      return pieces + [Piece(sentence, lead)];
    }
    var words := SplitWords(sentence, limit);
    out := AppendWords(pieces, words, lead, limit);
    assert out[|pieces|..] == [words[0].(lead := lead)] + words[1..];
    assert WordsWithLead(words, sentence, lead, limit, out[|pieces|..]);
  }

  /** The first `si` sentences behind these pieces. */
  ghost predicate SentencesBehind(pieces: seq<Piece>, out: seq<Piece>, sentences: seq<string>, si: nat, lead: string,
      limit: nat) {
    && si <= |sentences| && |out| >= |pieces| && out[..|pieces|] == pieces
    && LinePieces(sentences[..si], lead, limit, out[|pieces|..])
    && if si == 0 then out == pieces
       else |out| > |pieces| && PiecesOf(out, Rendered(pieces) + lead + Join(sentences[..si], " "), limit)
  }

  method TakeSentence(pieces: seq<Piece>, out: seq<Piece>, sentences: seq<string>, si: nat, lineLead: string,
      limit: nat)
      returns (longer: seq<Piece>)
    requires limit > 0 && si < |sentences| && |lineLead| <= MaxLead && NormalLine(sentences[si])
    requires PiecesOk(pieces, limit) && (if pieces == [] then lineLead == "" else pieces[0].lead == "")
    requires SentencesBehind(pieces, out, sentences, si, lineLead, limit)
    ensures SentencesBehind(pieces, longer, sentences, si + 1, lineLead, limit)
  {
    OneMoreSentence(Rendered(pieces), lineLead, sentences, si);
    longer := AppendSentence(out, sentences[si], if si == 0 then lineLead else " ", limit);
    SameFront(pieces, out, longer);
    NextSentence(sentences, si, lineLead, limit, longer, |pieces|, |out|);
  }

  /** Sentences in order, the first behind the line's own lead. */
  method AppendSentences(pieces: seq<Piece>, sentences: seq<string>, lineLead: string, limit: nat)
      returns (out: seq<Piece>)
    requires limit > 0 && sentences != [] && |lineLead| <= MaxLead
    requires forall s | s in sentences :: NormalLine(s)
    requires PiecesOk(pieces, limit) && (if pieces == [] then lineLead == "" else pieces[0].lead == "")
    ensures PiecesOf(out, Rendered(pieces) + lineLead + Join(sentences, " "), limit)
    ensures |out| > |pieces| && out[..|pieces|] == pieces && LinePieces(sentences, lineLead, limit, out[|pieces|..])
  {
    out := pieces;
    for si := 0 to |sentences|
      invariant SentencesBehind(pieces, out, sentences, si, lineLead, limit)
    {
      assert sentences[si] in sentences;
      out := TakeSentence(pieces, out, sentences, si, lineLead, limit);
    }
    assert sentences[..|sentences|] == sentences;
  }

  lemma {:induction false} SameFront(pieces: seq<Piece>, out: seq<Piece>, longer: seq<Piece>)
    requires |pieces| <= |out| <= |longer| && out[..|pieces|] == pieces && longer[..|out|] == out
    ensures longer[..|pieces|] == pieces && longer[|pieces|..|out|] == out[|pieces|..]
  {
    assert longer[..|pieces|] == longer[..|out|][..|pieces|];
    assert longer[|pieces|..|out|] == longer[..|out|][|pieces|..];
  }

  lemma {:induction false} OneMoreSentence(before: string, lineLead: string, sentences: seq<string>, si: nat)
    requires si < |sentences|
    ensures sentences[si] in sentences
    ensures before + lineLead + Join(sentences[..si + 1], " ")
      == if si == 0 then before + lineLead + sentences[0]
         else before + lineLead + Join(sentences[..si], " ") + " " + sentences[si]
  {
    JoinAppend(sentences[..si], sentences[si], " ");
    assert sentences[..si + 1] == sentences[..si] + [sentences[si]];
    Regroup(before + lineLead, Join(sentences[..si], " "), " ", sentences[si]);
  }

  /** One line by sentences. */
  method AppendLine(pieces: seq<Piece>, line: string, lineLead: string, limit: nat) returns (out: seq<Piece>)
    requires limit > 0 && NormalLine(line) && |lineLead| <= MaxLead
    requires PiecesOk(pieces, limit) && (if pieces == [] then lineLead == "" else pieces[0].lead == "")
    ensures PiecesOf(out, Rendered(pieces) + lineLead + line, limit)
    ensures |out| > |pieces| && out[..|pieces|] == pieces && PiecesOfLine(line, lineLead, limit, out[|pieces|..])
  {
    var sentences := SplitSentences(line);
    out := AppendSentences(pieces, sentences, lineLead, limit);
  }

  /** The pieces put together again are the paragraph, each of them between 1 and `limit` runes; it
      is cut by lines, these by sentences, and these by words only where they do not fit. */
  method SplitOversized(paragraph: string, limit: nat) returns (out: seq<Piece>)
    requires limit > 0 && NormalParagraph(paragraph)
    ensures PiecesOf(out, paragraph, limit) && out != []
    ensures ParagraphPieces(SplitAt(paragraph, '\n'), limit, out)
  {
    var lines := SplitAt(paragraph, '\n');
    JoinOfSplit(paragraph, '\n');
    out := AppendLines(lines, limit);
  }

  /** The pieces of the first `li` lines. */
  ghost predicate LinesDone(lines: seq<string>, li: nat, out: seq<Piece>, limit: nat) {
    && li <= |lines| && ParagraphPieces(lines[..li], limit, out)
    && if li == 0 then out == [] else out != [] && PiecesOf(out, Join(lines[..li], "\n"), limit)
  }

  method TakeOversizedLine(lines: seq<string>, li: nat, out: seq<Piece>, limit: nat) returns (longer: seq<Piece>)
    requires limit > 0 && li < |lines| && NormalLine(lines[li]) && LinesDone(lines, li, out, limit)
    ensures LinesDone(lines, li + 1, longer, limit)
  {
    OneMoreJoined(lines, li);
    longer := AppendLine(out, lines[li], if li == 0 then "" else "\n", limit);
    NextLine(lines, li, limit, longer, |out|);
  }

  method AppendLines(lines: seq<string>, limit: nat) returns (out: seq<Piece>)
    requires limit > 0 && lines != [] && forall l | l in lines :: NormalLine(l)
    ensures PiecesOf(out, Join(lines, "\n"), limit) && out != []
    ensures ParagraphPieces(lines, limit, out)
  {
    out := [];
    for li := 0 to |lines|
      invariant LinesDone(lines, li, out, limit)
    {
      assert lines[li] in lines;
      out := TakeOversizedLine(lines, li, out, limit);
    }
    assert lines[..|lines|] == lines;
  }

  lemma {:induction false} OneMoreJoined(lines: seq<string>, li: nat)
    requires li < |lines|
    ensures lines[li] in lines
    ensures Join(lines[..li + 1], "\n")
      == if li == 0 then "" + "" + lines[0] else Join(lines[..li], "\n") + "\n" + lines[li]
  {
    JoinAppend(lines[..li], lines[li], "\n");
    assert lines[..li + 1] == lines[..li] + [lines[li]];
  }
}
