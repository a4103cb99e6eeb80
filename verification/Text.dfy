/** Strings as the chunker sees them: sequences of runes, split into lines and words. */
module Text {
  /** Unicode white space. */
  predicate IsSpace(c: char) {
    || c == ' ' || c == '\t' || c == '\n' || c == '\r' || c == '\U{0B}' || c == '\U{0C}'
    || c == '\U{85}' || c == '\U{A0}' || c == '\U{1680}' || '\U{2000}' <= c <= '\U{200A}'
    || c == '\U{2028}' || c == '\U{2029}' || c == '\U{202F}' || c == '\U{205F}' || c == '\U{3000}'
  }

  predicate IsWord(w: string) {
    w != "" && forall c | c in w :: !IsSpace(c)
  }

  function Join(parts: seq<string>, separator: string): string {
    if parts == [] then ""
    else if |parts| == 1 then parts[0]
    else Join(parts[..|parts| - 1], separator) + separator + parts[|parts| - 1]
  }

  lemma {:induction false} JoinAppend(parts: seq<string>, part: string, separator: string)
    ensures Join(parts + [part], separator)
      == if parts == [] then part else Join(parts, separator) + separator + part
  {
    assert (parts + [part])[..|parts|] == parts;
  }

  /** The words of a string: its maximal runs without white space. `word` is the run in progress. */
  function WordsFrom(s: string, word: string): seq<string> {
    if s == "" then Flush(word)
    else if IsSpace(s[0]) then Flush(word) + WordsFrom(s[1..], "")
    else WordsFrom(s[1..], word + [s[0]])
  }

  function Flush(word: string): seq<string> {
    if word == "" then [] else [word]
  }

  function Words(s: string): seq<string> {
    WordsFrom(s, "")
  }

  lemma {:induction false} WordsAreWords(s: string, word: string)
    requires word == "" || IsWord(word)
    ensures forall w | w in WordsFrom(s, word) :: IsWord(w)
  {
    if s != "" {
      if IsSpace(s[0]) {
        WordsAreWords(s[1..], "");
      } else {
        WordsAreWords(s[1..], word + [s[0]]);
      }
    }
  }

  /** A space between two strings keeps their words apart. */
  lemma {:induction false} WordsAcrossSpace(a: string, space: char, b: string, word: string)
    requires IsSpace(space)
    ensures WordsFrom(a + [space] + b, word) == WordsFrom(a, word) + Words(b)
  {
    var s := a + [space] + b;
    if a == "" {
      assert s[0] == space && s[1..] == b;
    } else {
      assert s[0] == a[0] && s[1..] == a[1..] + [space] + b;
      if IsSpace(a[0]) {
        WordsAcrossSpace(a[1..], space, b, "");
      } else {
        WordsAcrossSpace(a[1..], space, b, word + [a[0]]);
      }
    }
  }

  lemma {:induction false} WordRunsOn(w: string, word: string)
    requires forall c | c in w :: !IsSpace(c)
    ensures WordsFrom(w, word) == Flush(word + w)
  {
    if w == "" {
      assert word + w == word;
    } else {
      assert word + [w[0]] + w[1..] == word + w;
      WordRunsOn(w[1..], word + [w[0]]);
    }
  }

  /** A line without white space at its ends and with single blanks inside. */
  ghost predicate NormalLine(l: string) {
    && l != "" && !IsSpace(l[0]) && !IsSpace(l[|l| - 1])
    && forall i | 0 <= i < |l| && IsSpace(l[i]) :: l[i] == ' ' && i + 1 < |l| && !IsSpace(l[i + 1])
  }

  lemma {:induction false} WordIsNormal(w: string)
    requires IsWord(w)
    ensures NormalLine(w)
  {
    assert forall i | 0 <= i < |w| :: w[i] in w;
  }

  lemma {:induction false} JoinedWordsAreNormal(words: seq<string>)
    requires words != [] && forall w | w in words :: IsWord(w)
    ensures NormalLine(Join(words, " "))
  {
    var n := |words| - 1;
    assert words[n] in words;
    WordIsNormal(words[n]);
    if n > 0 {
      JoinedWordsAreNormal(words[..n]);
      NormalLinesJoin(Join(words[..n], " "), words[n]);
    }
  }

  lemma {:induction false} NormalLinesJoin(a: string, b: string)
    requires NormalLine(a) && NormalLine(b)
    ensures NormalLine(a + " " + b)
  {
    var l := a + " " + b;
    forall i | 0 <= i < |l| && IsSpace(l[i]) ensures l[i] == ' ' && i + 1 < |l| && !IsSpace(l[i + 1]) {
      if i < |a| {
        assert l[i] == a[i] && l[i + 1] == a[i + 1];
      } else if i > |a| {
        assert l[i] == b[i - |a| - 1];
      } else {
        assert l[i + 1] == b[0];
      }
    }
  }

  /** After a blank inside a normal line comes a normal line again. */
  lemma {:induction false} NormalAfterBlank(word: string, s: string)
    requires NormalLine(word + s) && s != "" && IsSpace(s[0]) && forall c | c in word :: !IsSpace(c)
    ensures word != "" && s[0] == ' ' && NormalLine(s[1..]) && word + s == word + " " + s[1..]
  {
    var l := word + s;
    assert l[|word|] == s[0];
    assert word != "" && |s| > 1 && l[|word| + 1] == s[1];
    SuffixIsNormal(l, |word| + 1);
    assert l[|word| + 1..] == s[1..];
  }

  /** Joining the words of a normal line gives it back; `word` is the part already read. */
  lemma {:induction false} NormalLineIsItsWords(s: string, word: string)
    requires NormalLine(word + s) && s != "" && forall c | c in word :: !IsSpace(c)
    ensures WordsFrom(s, word) != [] && Join(WordsFrom(s, word), " ") == word + s
  {
    if IsSpace(s[0]) {
      NormalAfterBlank(word, s);
      assert "" + s[1..] == s[1..];
      NormalLineIsItsWords(s[1..], "");
      JoinPrepend(word, WordsFrom(s[1..], ""), " ");
    } else {
      assert word + [s[0]] + s[1..] == word + s;
      if s[1..] != "" {
        NormalLineIsItsWords(s[1..], word + [s[0]]);
      }
    }
  }

  lemma {:induction false} SuffixIsNormal(l: string, k: nat)
    requires NormalLine(l) && k < |l| && !IsSpace(l[k])
    ensures NormalLine(l[k..])
  {
    var r := l[k..];
    forall i | 0 <= i < |r| && IsSpace(r[i]) ensures r[i] == ' ' && i + 1 < |r| && !IsSpace(r[i + 1]) {
      assert r[i] == l[k + i] && l[k + i] == ' ' && r[i + 1] == l[k + i + 1];
    }
  }

  lemma {:induction false} JoinPrepend(part: string, parts: seq<string>, separator: string)
    requires parts != []
    ensures Join([part] + parts, separator) == part + separator + Join(parts, separator)
  {
    var n := |parts| - 1;
    assert ([part] + parts)[..n + 1] == [part] + parts[..n];
    if n > 0 {
      JoinPrepend(part, parts[..n], separator);
    } else {
      assert [part] + parts[..n] == [part];
    }
  }

  /** strings.Split at one rune: always at least one part. */
  function SplitAt(s: string, at: char): (parts: seq<string>)
    ensures parts != []
  {
    if s == "" then [""]
    else
      var rest := SplitAt(s[1..], at);
      if s[0] == at then [""] + rest else [[s[0]] + rest[0]] + rest[1..]
  }

  lemma {:induction false} SplitPlain(s: string, at: char)
    requires at !in s
    ensures SplitAt(s, at) == [s]
  {
    if s != "" {
      assert s == [s[0]] + s[1..];
      SplitPlain(s[1..], at);
    }
  }

  lemma {:induction false} SplitFirst(a: string, at: char, b: string)
    requires at !in a
    ensures SplitAt(a + [at] + b, at) == [a] + SplitAt(b, at)
  {
    var s := a + [at] + b;
    if a == "" {
      assert s[0] == at && s[1..] == b;
    } else {
      assert s[0] == a[0] && s[1..] == a[1..] + [at] + b && a == [a[0]] + a[1..];
      SplitFirst(a[1..], at, b);
    }
  }

  lemma {:induction false} SplitLast(a: string, at: char, b: string)
    requires at !in b
    ensures SplitAt(a + [at] + b, at) == SplitAt(a, at) + [b]
  {
    var s := a + [at] + b;
    if a == "" {
      assert s[0] == at && s[1..] == b;
      SplitPlain(b, at);
    } else {
      assert s[0] == a[0] && s[1..] == a[1..] + [at] + b;
      SplitLast(a[1..], at, b);
    }
  }

  /** Splitting undoes joining when no part holds the separator. */
  lemma {:induction false} SplitOfJoin(parts: seq<string>, at: char)
    requires parts != [] && forall p | p in parts :: at !in p
    ensures SplitAt(Join(parts, [at]), at) == parts
  {
    var n := |parts| - 1;
    if n == 0 {
      SplitPlain(parts[0], at);
    } else {
      SplitOfJoin(parts[..n], at);
      SplitLast(Join(parts[..n], [at]), at, parts[n]);
      assert parts[..n] + [parts[n]] == parts;
    }
  }

  lemma {:induction false} JoinHead(prefix: string, head: string, tail: seq<string>, separator: string)
    ensures Join([prefix + head] + tail, separator) == prefix + Join([head] + tail, separator)
  {
    if tail == [] {
      assert [prefix + head] + tail == [prefix + head] && [head] + tail == [head];
    } else {
      JoinPrepend(prefix + head, tail, separator);
      JoinPrepend(head, tail, separator);
    }
  }

  /** And joining undoes splitting. */
  lemma {:induction false} JoinOfSplit(s: string, at: char)
    ensures Join(SplitAt(s, at), [at]) == s
  {
    if s != "" {
      var rest := SplitAt(s[1..], at);
      JoinOfSplit(s[1..], at);
      assert s == [s[0]] + s[1..];
      if s[0] == at {
        JoinPrepend("", rest, [at]);
      } else {
        JoinHead([s[0]], rest[0], rest[1..], [at]);
        assert rest == [rest[0]] + rest[1..];
      }
    }
  }
}
