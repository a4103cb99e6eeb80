/** What a fused result is, said by the positions of its page in the two lists: its score, who comes
    before whom, the signals it carries, and the snippet, which is the chunk without the title the
    indexer put in front of it. */
module FusionLaws {
  import opened Retrieval
  import Chunker

  /** The results of a query. */
  function Results(dense: seq<Page>, bm25: seq<Page>, k: nat, mode: Mode): seq<Entry>
    requires k > 0
  {
    StableSort(Candidates(dense, bm25, k, mode))
  }

  /** The page of this URL is ranked `rank` in the list; 0 says that the list does not have it. */
  ghost predicate Ranked(pages: seq<Page>, url: string, rank: nat) {
    if rank == 0 then forall i | 0 <= i < |pages| :: pages[i].hit.url != url
    else rank <= |pages| && pages[rank - 1].hit.url == url
  }

  /** The signal a result carries for a list in which its page is ranked like this. */
  predicate Carries(signal: Option<Signal>, pages: seq<Page>, rank: nat) {
    if rank == 0 then signal == None
    else rank <= |pages| && signal == Some(Signal(rank, pages[rank - 1].hit.score))
  }

  lemma {:induction false} RankedIsFound(pages: seq<Page>, url: string, rank: nat)
    requires PagesOk(pages) && Ranked(pages, url, rank)
    ensures Find(pages, url) == if rank == 0 then None else Some(pages[rank - 1])
  {
    if rank == 0 {
      FindIs(pages, url);
    } else {
      FindAt(pages, rank - 1);
    }
  }

  lemma {:induction false} FoundEntry(dense: seq<Page>, bm25: seq<Page>, k: nat, mode: Mode, e: Entry)
    requires k > 0 && PagesOk(dense) && PagesOk(bm25) && Asked(dense, bm25, mode)
    requires e in Results(dense, bm25, k, mode)
    ensures e == EntryOf(dense, bm25, e.url).(score := e.score) && e.score == ScoreOf(e, k, mode)
    ensures Lists(dense, e.url) || Lists(bm25, e.url)
  {
    var candidates := Candidates(dense, bm25, k, mode);
    ResultIsCandidate(dense, bm25, k, mode, e);
    CandidateIs(dense, bm25, k, mode, e);
    var i :| 0 <= i < |candidates| && candidates[i] == e;
    assert e.url == Merged(dense, bm25)[i];
  }

  // ---- Scores ------------------------------------------------------------------------------

  /** What a list adds to a page's score. */
  function Share(k: nat, rank: nat): real
    requires k > 0
  {
    if rank == 0 then 0.0 else 1.0 / (k + rank) as real
  }

  /** A result carries its page's ranks and scores in the two lists. In hybrid mode its score is one
      over the sum of k and the rank, added up over the lists that have the page; in the other modes
      it is the score in the one list. */
  lemma {:induction false} ResultIs(dense: seq<Page>, bm25: seq<Page>, k: nat, mode: Mode, e: Entry, p: nat, q: nat)
    requires k > 0 && PagesOk(dense) && PagesOk(bm25) && Asked(dense, bm25, mode)
    requires e in Results(dense, bm25, k, mode) && Ranked(dense, e.url, p) && Ranked(bm25, e.url, q)
    ensures Carries(e.dense, dense, p) && Carries(e.bm25, bm25, q) && (p > 0 || q > 0)
    ensures mode == Hybrid ==> e.score == Share(k, p) + Share(k, q)
    ensures mode == Dense ==> p > 0 && e.score == dense[p - 1].hit.score
    ensures mode == BM25 ==> q > 0 && e.score == bm25[q - 1].hit.score
  {
    FoundEntry(dense, bm25, k, mode, e);
    RankedIsFound(dense, e.url, p);
    RankedIsFound(bm25, e.url, q);
    FindIs(dense, e.url);
    FindIs(bm25, e.url);
  }

  lemma {:induction false} SumOfShares(a: real, b: real, c: real)
    requires a > 0.0 && b > 0.0 && c > 0.0
    ensures (a + b) * c > a * b ==> 1.0 / a + 1.0 / b > 1.0 / c
    ensures (a + b) * c < a * b ==> 1.0 / a + 1.0 / b < 1.0 / c
  {
    var x, y := 1.0 / a + 1.0 / b - 1.0 / c, a * b * c;
    assert a * b > 0.0 && y > 0.0;
    Expanded(a, b, c);
    assert x * y == (a + b) * c - a * b;
    Sign(x, y);
  }

  lemma {:induction false} Expanded(a: real, b: real, c: real)
    requires a > 0.0 && b > 0.0 && c > 0.0
    ensures (1.0 / a + 1.0 / b - 1.0 / c) * (a * b * c) == (a + b) * c - a * b
  {
    var u, v, w := 1.0 / a, 1.0 / b, 1.0 / c;
    assert u * a == 1.0 && v * b == 1.0 && w * c == 1.0;
    calc {
      (u + v - w) * (a * b * c);
      u * (a * b * c) + v * (a * b * c) - w * (a * b * c);
      (u * a) * (b * c) + (v * b) * (a * c) - (w * c) * (a * b);
      b * c + a * c - a * b;
    }
  }

  lemma {:induction false} Sign(x: real, y: real)
    requires y > 0.0
    ensures (x * y > 0.0 <==> x > 0.0) && (x * y < 0.0 <==> x < 0.0)
  {
  }

  lemma {:induction false} HigherIsFirst(dense: seq<Page>, bm25: seq<Page>, k: nat, mode: Mode, i: nat, j: nat)
    requires k > 0
    requires var results := Results(dense, bm25, k, mode);
      i < |results| && j < |results| && results[i].score > results[j].score
    ensures i < j
  {
    StableSortSorts(Candidates(dense, bm25, k, mode));
    assert Before(Results(dense, bm25, k, mode)[i], Results(dense, bm25, k, mode)[j]);
  }

  lemma {:induction false} InReals(a: nat, b: nat, c: nat, d: nat)
    ensures a * b > c * d <==> a as real * b as real > c as real * d as real
    ensures a * b < c * d <==> a as real * b as real < c as real * d as real
  {
    assert (a * b) as real == a as real * b as real && (c * d) as real == c as real * d as real;
  }

  lemma {:induction false} SharesCompare(k: nat, p: nat, q: nat, m: nat)
    requires k > 0 && p > 0 && q > 0 && m > 0
    ensures (2 * k + p + q) * (k + m) > (k + p) * (k + q) ==> Share(k, p) + Share(k, q) > Share(k, m)
    ensures (2 * k + p + q) * (k + m) < (k + p) * (k + q) ==> Share(k, p) + Share(k, q) < Share(k, m)
  {
    var a, b, c := (k + p) as real, (k + q) as real, (k + m) as real;
    assert (2 * k + p + q) as real == a + b;
    InReals(2 * k + p + q, k + m, k + p, k + q);
    SumOfShares(a, b, c);
  }

  /** A page in both lists, at ranks p and q, comes before a page in one list, at rank m + n of which one
      is 0, if (2k + p + q) (k + m + n) > (k + p) (k + q), and behind it if the product is smaller. So
      with k large two middling ranks beat a good one, and with k small they do not. */
  lemma {:induction false} BothAgainstOne(dense: seq<Page>, bm25: seq<Page>, k: nat, i: nat, j: nat, p: nat, q: nat,
      m: nat, n: nat)
    requires k > 0 && PagesOk(dense) && PagesOk(bm25) && p > 0 && q > 0 && (m == 0 || n == 0)
    requires var results := Results(dense, bm25, k, Hybrid);
      && i < |results| && j < |results|
      && Ranked(dense, results[i].url, p) && Ranked(bm25, results[i].url, q)
      && Ranked(dense, results[j].url, m) && Ranked(bm25, results[j].url, n)
    ensures (2 * k + p + q) * (k + m + n) > (k + p) * (k + q) ==> i < j
    ensures (2 * k + p + q) * (k + m + n) < (k + p) * (k + q) ==> j < i
  {
    var results := Results(dense, bm25, k, Hybrid);
    ScoresAre(dense, bm25, k, i, p, q);
    ScoresAre(dense, bm25, k, j, m, n);
    assert Share(k, m) + Share(k, n) == Share(k, m + n);
    assert k + (m + n) == k + m + n;
    SharesCompare(k, p, q, m + n);
    if results[i].score > results[j].score {
      HigherIsFirst(dense, bm25, k, Hybrid, i, j);
    } else if results[i].score < results[j].score {
      HigherIsFirst(dense, bm25, k, Hybrid, j, i);
    }
  }

  lemma {:induction false} ScoresAre(dense: seq<Page>, bm25: seq<Page>, k: nat, i: nat, p: nat, q: nat)
    requires k > 0 && PagesOk(dense) && PagesOk(bm25)
    requires var results := Results(dense, bm25, k, Hybrid);
      i < |results| && Ranked(dense, results[i].url, p) && Ranked(bm25, results[i].url, q)
    ensures p > 0 || q > 0
    ensures Results(dense, bm25, k, Hybrid)[i].score == Share(k, p) + Share(k, q)
  {
    ResultIs(dense, bm25, k, Hybrid, Results(dense, bm25, k, Hybrid)[i], p, q);
  }

  /** The better of two ranks, of which at least one is there. */
  function Better(p: nat, q: nat): nat {
    if p == 0 then q else if q == 0 then p else if p < q then p else q
  }

  /** Results with the same score are ordered by the better of their ranks. */
  lemma {:induction false} TiesByBetterRank(dense: seq<Page>, bm25: seq<Page>, k: nat, mode: Mode, i: nat, j: nat,
      p: nat, q: nat, m: nat, n: nat)
    requires k > 0 && PagesOk(dense) && PagesOk(bm25) && Asked(dense, bm25, mode)
    requires |dense| < MaxInt && |bm25| < MaxInt
    requires var results := Results(dense, bm25, k, mode);
      && i < j < |results| && results[i].score == results[j].score
      && Ranked(dense, results[i].url, p) && Ranked(bm25, results[i].url, q)
      && Ranked(dense, results[j].url, m) && Ranked(bm25, results[j].url, n)
    ensures Better(p, q) <= Better(m, n)
  {
    var results := Results(dense, bm25, k, mode);
    ResultIs(dense, bm25, k, mode, results[i], p, q);
    ResultIs(dense, bm25, k, mode, results[j], m, n);
    StableSortSorts(Candidates(dense, bm25, k, mode));
    assert !Before(results[j], results[i]);
  }

  // ---- Names and snippets ------------------------------------------------------------------

  /** The snippet is the text, without the title and a blank line if it begins with these. */
  ghost predicate IsSnippetOf(snippet: string, hit: Hit) {
    hit.text == hit.title + "\n\n" + snippet || (hit.text == snippet && !(hit.title + "\n\n" <= hit.text))
  }

  /** The hit a result shows: that of the list which ranks the page higher, the dense one on a tie. */
  function Shown(dense: seq<Page>, bm25: seq<Page>, p: nat, q: nat): Hit
    requires p <= |dense| && q <= |bm25| && (p > 0 || q > 0)
  {
    if p > 0 && (q == 0 || p <= q) then dense[p - 1].hit else bm25[q - 1].hit
  }

  lemma {:induction false} SnippetIs(hit: Hit)
    ensures IsSnippetOf(Snippet(hit), hit)
  {
    var lead := hit.title + "\n\n";
    if lead <= hit.text {
      assert hit.text == hit.text[..|lead|] + hit.text[|lead|..];
    }
  }

  /** A result is named by the dense list if that has the page, and shows the chunk of the list that
      ranks it higher. */
  lemma {:induction false} ResultShows(dense: seq<Page>, bm25: seq<Page>, k: nat, mode: Mode, e: Entry, p: nat, q: nat)
    requires k > 0 && PagesOk(dense) && PagesOk(bm25) && Asked(dense, bm25, mode)
    requires e in Results(dense, bm25, k, mode) && Ranked(dense, e.url, p) && Ranked(bm25, e.url, q)
    ensures p > 0 || q > 0
    ensures var named := if p > 0 then dense[p - 1].hit else bm25[q - 1].hit;
      e.url == named.url && e.host == named.host && e.title == named.title
    ensures IsSnippetOf(e.snippet, Shown(dense, bm25, p, q))
  {
    ResultIs(dense, bm25, k, mode, e, p, q);
    FoundEntry(dense, bm25, k, mode, e);
    RankedIsFound(dense, e.url, p);
    RankedIsFound(bm25, e.url, q);
    SnippetIs(Shown(dense, bm25, p, q));
  }

  /** What the indexer stores for a chunk shows as the chunk, if and only if the page has a title or
      the chunk does not begin with a blank line. */
  lemma {:induction false} SnippetOfStored(title: string, text: string, url: string, host: string, score: real)
    ensures Snippet(Hit(url, host, title, Chunker.EmbeddingText(title, text), score)) == text
      <==> title != "" || !("\n\n" <= text)
  {
    var lead, stored := title + "\n\n", Chunker.EmbeddingText(title, text);
    if title != "" {
      assert stored == lead + text && stored[..|lead|] == lead && stored[|lead|..] == text;
    } else {
      assert lead == "\n\n" && stored == text;
      assert lead <= text ==> |text[2..]| < |text|;
    }
  }
}
