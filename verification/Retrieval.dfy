/** Ranking pages: chunk lists folded into page lists, two page lists fused by reciprocal rank. */
module Retrieval {
  datatype Option<T> = None | Some(value: T)

  datatype Mode = Hybrid | Dense | BM25

  datatype Hit = Hit(url: string, host: string, title: string, text: string, score: real)

  /** A page's best chunk in one list, and the page's rank there, from 1. */
  datatype Page = Page(hit: Hit, rank: nat)

  datatype Signal = Signal(rank: nat, score: real)

  datatype Entry = Entry(url: string, host: string, title: string, snippet: string, score: real,
    dense: Option<Signal>, bm25: Option<Signal>)

  // ---- Chunks to pages ---------------------------------------------------------------------

  ghost predicate Lists(pages: seq<Page>, url: string) {
    exists i | 0 <= i < |pages| :: pages[i].hit.url == url
  }

  /** Pages are ranked by position and differ. */
  ghost predicate PagesOk(pages: seq<Page>) {
    && (forall i | 0 <= i < |pages| :: pages[i].rank == i + 1)
    && forall i, j | 0 <= i < j < |pages| :: pages[i].hit.url != pages[j].hit.url
  }

  /** Hit `i` is the first of its URL. */
  ghost predicate FirstHit(hits: seq<Hit>, i: nat) {
    i < |hits| && forall j | 0 <= j < i :: hits[j].url != hits[i].url
  }

  /** The pages are the first hits of all URLs, in the order of the hits. */
  ghost predicate Folded(hits: seq<Hit>, pages: seq<Page>, at: seq<nat>) {
    && |at| == |pages|
    && (forall k | 0 <= k < |pages| :: FirstHit(hits, at[k]) && pages[k].hit == hits[at[k]])
    && (forall k, l | 0 <= k < l < |at| :: at[k] < at[l])
    && forall i | 0 <= i < |hits| :: Lists(pages, hits[i].url)
  }

  method Pages(hits: seq<Hit>) returns (pages: seq<Page>, ghost at: seq<nat>)
    ensures PagesOk(pages) && Folded(hits, pages, at)
  {
    pages, at := [], [];
    var seen: set<string> := {};
    for i := 0 to |hits|
      invariant PagesOk(pages) && |at| == |pages|
      invariant forall k | 0 <= k < |pages| :: at[k] < i && FirstHit(hits, at[k]) && pages[k].hit == hits[at[k]]
      invariant forall k, l | 0 <= k < l < |at| :: at[k] < at[l]
      invariant forall u :: u in seen <==> Lists(pages, u)
      invariant forall j | 0 <= j < i :: hits[j].url in seen
    {
      var hit := hits[i];
      if hit.url !in seen {
        AddPage(pages, Page(hit, |pages| + 1));
        seen := seen + {hit.url};
        pages := pages + [Page(hit, |pages| + 1)];
        at := at + [i];
      }
    }
  }

  lemma {:induction false} AddPage(pages: seq<Page>, page: Page)
    requires PagesOk(pages) && !Lists(pages, page.hit.url) && page.rank == |pages| + 1
    ensures PagesOk(pages + [page])
    ensures forall u :: Lists(pages + [page], u) <==> Lists(pages, u) || u == page.hit.url
  {
    var more := pages + [page];
    forall u ensures Lists(more, u) <==> Lists(pages, u) || u == page.hit.url {
      if Lists(pages, u) {
        var i :| 0 <= i < |pages| && pages[i].hit.url == u;
        assert more[i].hit.url == u;
      }
      assert more[|pages|].hit.url == page.hit.url;
    }
  }

  // ---- What a page's entry is --------------------------------------------------------------

  /** The page of this URL in a list. */
  function Find(pages: seq<Page>, url: string): Option<Page> {
    if pages == [] then None
    else
      var last := pages[|pages| - 1];
      if last.hit.url == url then Some(last) else Find(pages[..|pages| - 1], url)
  }

  function SignalOf(p: Option<Page>): Option<Signal> {
    if p.None? then None else Some(Signal(p.value.rank, p.value.hit.score))
  }

  predicate StartsWith(s: string, prefix: string) {
    prefix <= s
  }

  function Snippet(hit: Hit): string {
    var lead := hit.title + "\n\n";
    if StartsWith(hit.text, lead) then hit.text[|lead|..] else hit.text
  }

  /** An entry before it is scored: named by the dense list if that has the page; the snippet is
      from the list that ranks the page higher, the dense one on a tie. */
  function Unscored(d: Option<Page>, b: Option<Page>, url: string): Entry {
    var named := if d.Some? then d.value.hit else if b.Some? then b.value.hit else Hit(url, "", "", "", 0.0);
    var shown := if d.Some? && !(b.Some? && b.value.rank < d.value.rank) then d.value.hit
      else if b.Some? then b.value.hit else Hit(url, "", "", "", 0.0);
    Entry(url, named.host, named.title, Snippet(shown), 0.0, SignalOf(d), SignalOf(b))
  }

  function Reciprocal(k: nat, s: Option<Signal>): (r: real)
    requires k > 0
    ensures s.None? <==> r == 0.0
    ensures r >= 0.0
  {
    if s.None? then 0.0 else 1.0 / (k + s.value.rank) as real
  }

  function ScoreIn(s: Option<Signal>): real {
    if s.Some? then s.value.score else 0.0
  }

  function ScoreOf(e: Entry, k: nat, mode: Mode): real
    requires k > 0
  {
    match mode
    case Dense => ScoreIn(e.dense)
    case BM25 => ScoreIn(e.bm25)
    case Hybrid => Reciprocal(k, e.dense) + Reciprocal(k, e.bm25)
  }

  const MaxInt: nat := 0x7fff_ffff_ffff_ffff

  function BestRank(e: Entry): nat {
    var d := if e.dense.Some? && e.dense.value.rank < MaxInt then e.dense.value.rank else MaxInt;
    if e.bm25.Some? && e.bm25.value.rank < d then e.bm25.value.rank else d
  }

  // ---- Stable sorting ----------------------------------------------------------------------

  predicate Before(a: Entry, b: Entry) {
    if a.score != b.score then a.score > b.score else BestRank(a) < BestRank(b)
  }

  ghost predicate Sorted(s: seq<Entry>) {
    forall i, j | 0 <= i < j < |s| :: !Before(s[j], s[i])
  }

  /** `x` behind everything it is not before. */
  function Insert(s: seq<Entry>, x: Entry): seq<Entry> {
    if s != [] && Before(x, s[|s| - 1]) then Insert(s[..|s| - 1], x) + [s[|s| - 1]] else s + [x]
  }

  function StableSort(s: seq<Entry>): seq<Entry> {
    if s == [] then [] else Insert(StableSort(s[..|s| - 1]), s[|s| - 1])
  }

  lemma {:induction false} MultisetOfFront(s: seq<Entry>)
    requires s != []
    ensures multiset(s) == multiset(s[..|s| - 1]) + multiset{s[|s| - 1]}
  {
    assert s == s[..|s| - 1] + [s[|s| - 1]];
  }

  lemma {:induction false} MultisetOfBoth(a: multiset<Entry>, x: Entry, y: Entry)
    ensures a + multiset{x} + multiset{y} == a + multiset{y} + multiset{x}
  {
  }

  lemma {:induction false} InsertKeepsAll(s: seq<Entry>, x: Entry)
    ensures multiset(Insert(s, x)) == multiset(s) + multiset{x} && |Insert(s, x)| == |s| + 1
  {
    if s != [] && Before(x, s[|s| - 1]) {
      var n := |s| - 1;
      InsertKeepsAll(s[..n], x);
      MultisetOfFront(s);
      MultisetOfBoth(multiset(s[..n]), x, s[n]);
    }
  }

  lemma {:induction false} InsertKeepsSorted(s: seq<Entry>, x: Entry)
    requires Sorted(s)
    ensures Sorted(Insert(s, x))
  {
    if s != [] && Before(x, s[|s| - 1]) {
      var n := |s| - 1;
      var front := Insert(s[..n], x);
      InsertKeepsSorted(s[..n], x);
      InsertKeepsAll(s[..n], x);
      forall i | 0 <= i < |front| ensures !Before(s[n], front[i]) {
        assert front[i] in multiset(s[..n]) + multiset{x};
        assert front[i] in s[..n] || front[i] == x;
      }
    }
  }

  lemma {:induction false} StableSortKeepsAll(s: seq<Entry>)
    ensures multiset(StableSort(s)) == multiset(s) && |StableSort(s)| == |s|
  {
    if s != [] {
      StableSortKeepsAll(s[..|s| - 1]);
      InsertKeepsAll(StableSort(s[..|s| - 1]), s[|s| - 1]);
      MultisetOfFront(s);
    }
  }

  lemma {:induction false} StableSortSorts(s: seq<Entry>)
    ensures Sorted(StableSort(s))
  {
    if s != [] {
      StableSortSorts(s[..|s| - 1]);
      InsertKeepsSorted(StableSort(s[..|s| - 1]), s[|s| - 1]);
    }
  }

  /** What is sorted already stays as it is. */
  lemma {:induction false} SortedStays(s: seq<Entry>)
    requires Sorted(s)
    ensures StableSort(s) == s
  {
    if s != [] {
      var n := |s| - 1;
      SortedStays(s[..n]);
      assert s == s[..n] + [s[n]];
    }
  }

  predicate Tied(a: Entry, b: Entry) {
    !Before(a, b) && !Before(b, a)
  }

  function IfTied(x: Entry, e: Entry): seq<Entry> {
    if Tied(x, e) then [x] else []
  }

  /** The entries tied with `e`, in order. */
  function Ties(s: seq<Entry>, e: Entry): seq<Entry> {
    if s == [] then [] else Ties(s[..|s| - 1], e) + IfTied(s[|s| - 1], e)
  }

  lemma {:induction false} TiesAppend(s: seq<Entry>, x: Entry, e: Entry)
    ensures Ties(s + [x], e) == Ties(s, e) + IfTied(x, e)
  {
    assert (s + [x])[..|s|] == s;
  }

  lemma {:induction false} SwapEmpty(a: seq<Entry>, b: seq<Entry>, c: seq<Entry>)
    requires b == [] || c == []
    ensures a + b + c == a + c + b
  {
  }

  lemma {:induction false} InsertKeepsTies(s: seq<Entry>, x: Entry, e: Entry)
    ensures Ties(Insert(s, x), e) == Ties(s, e) + IfTied(x, e)
  {
    if s != [] && Before(x, s[|s| - 1]) {
      var n := |s| - 1;
      InsertKeepsTies(s[..n], x, e);
      TiesAppend(Insert(s[..n], x), s[n], e);
      SwapEmpty(Ties(s[..n], e), IfTied(x, e), IfTied(s[n], e));
    } else {
      TiesAppend(s, x, e);
    }
  }

  /** Tied entries keep their order. */
  lemma {:induction false} StableSortIsStable(s: seq<Entry>, e: Entry)
    ensures Ties(StableSort(s), e) == Ties(s, e)
  {
    if s != [] {
      var n := |s| - 1;
      StableSortIsStable(s[..n], e);
      InsertKeepsTies(StableSort(s[..n]), s[n], e);
    }
  }

  // ---- Fusing two lists --------------------------------------------------------------------

  function URLs(pages: seq<Page>): seq<string> {
    seq(|pages|, i requires 0 <= i < |pages| => pages[i].hit.url)
  }

  /** The URLs of both lists: the dense ones, then those only the other list has. */
  function Merged(dense: seq<Page>, bm25: seq<Page>): seq<string> {
    if bm25 == [] then URLs(dense)
    else
      var last := bm25[|bm25| - 1].hit.url;
      Merged(dense, bm25[..|bm25| - 1]) + if Find(dense, last).None? then [last] else []
  }

  function EntryOf(dense: seq<Page>, bm25: seq<Page>, url: string): Entry {
    Unscored(Find(dense, url), Find(bm25, url), url)
  }

  function Entries(urls: seq<string>, dense: seq<Page>, bm25: seq<Page>): seq<Entry> {
    seq(|urls|, i requires 0 <= i < |urls| => EntryOf(dense, bm25, urls[i]))
  }

  lemma {:induction false} FindAppend(pages: seq<Page>, p: Page, url: string)
    ensures Find(pages + [p], url) == if p.hit.url == url then Some(p) else Find(pages, url)
  {
    assert (pages + [p])[..|pages|] == pages;
  }

  lemma {:induction false} FindIs(pages: seq<Page>, url: string)
    ensures Find(pages, url).Some? <==> Lists(pages, url)
    ensures Find(pages, url).Some? ==> Find(pages, url).value in pages && Find(pages, url).value.hit.url == url
  {
    if pages != [] {
      var n := |pages| - 1;
      FindIs(pages[..n], url);
      if Lists(pages[..n], url) {
        var i :| 0 <= i < n && pages[..n][i].hit.url == url;
        assert pages[i].hit.url == url;
      }
      if Lists(pages, url) && pages[n].hit.url != url {
        var i :| 0 <= i < |pages| && pages[i].hit.url == url;
        assert pages[..n][i].hit.url == url;
      }
    }
  }

  ghost predicate Distinct(urls: seq<string>) {
    forall i, j | 0 <= i < j < |urls| :: urls[i] != urls[j]
  }

  /** Where each entry is. */
  ghost predicate Indexed(urls: seq<string>, byURL: map<string, nat>) {
    && (forall i | 0 <= i < |urls| :: urls[i] in byURL && byURL[urls[i]] == i)
    && forall u | u in byURL :: byURL[u] < |urls| && urls[byURL[u]] == u
  }

  lemma {:induction false} PrefixOk(pages: seq<Page>, n: nat)
    requires PagesOk(pages) && n <= |pages|
    ensures PagesOk(pages[..n])
  {
  }

  lemma {:induction false} NotListedBefore(pages: seq<Page>, i: nat)
    requires PagesOk(pages) && i < |pages|
    ensures !Lists(pages[..i], pages[i].hit.url) && Find(pages[..i], pages[i].hit.url).None?
  {
    FindIs(pages[..i], pages[i].hit.url);
  }

  lemma {:induction false} MergedIs(dense: seq<Page>, bm25: seq<Page>)
    requires PagesOk(dense) && PagesOk(bm25)
    ensures Distinct(Merged(dense, bm25))
    ensures forall u :: u in Merged(dense, bm25) <==> Lists(dense, u) || Lists(bm25, u)
  {
    if bm25 == [] {
      URLsAre(dense);
    } else {
      var n := |bm25| - 1;
      PrefixOk(bm25, n);
      MergedIs(dense, bm25[..n]);
      NotListedBefore(bm25, n);
      FindIs(dense, bm25[n].hit.url);
      assert bm25 == bm25[..n] + [bm25[n]];
      AddPage(bm25[..n], bm25[n]);
    }
  }

  lemma {:induction false} URLsAre(pages: seq<Page>)
    ensures forall u :: u in URLs(pages) <==> Lists(pages, u)
  {
    forall u ensures u in URLs(pages) <==> Lists(pages, u) {
      if Lists(pages, u) {
        var i :| 0 <= i < |pages| && pages[i].hit.url == u;
        assert URLs(pages)[i] == u;
      }
    }
  }

  lemma {:induction false} OneMoreDense(dense: seq<Page>, i: nat)
    requires PagesOk(dense) && i < |dense|
    ensures var before, after, p := dense[..i], dense[..i + 1], dense[i];
      && Entries(URLs(after), after, []) == Entries(URLs(before), before, []) + [Unscored(Some(p), None, p.hit.url)]
      && URLs(after) == URLs(before) + [p.hit.url]
  {
    var before, after, p := dense[..i], dense[..i + 1], dense[i];
    assert after == before + [p];
    forall j | 0 <= j < i ensures Find(after, URLs(after)[j]) == Find(before, URLs(before)[j]) {
      FindAppend(before, p, dense[j].hit.url);
    }
    FindAppend(before, p, p.hit.url);
  }

  lemma {:induction false} OneMoreBM25(dense: seq<Page>, bm25: seq<Page>, i: nat)
    requires PagesOk(dense) && PagesOk(bm25) && i < |bm25|
    ensures Merged(dense, bm25[..i + 1])
      == Merged(dense, bm25[..i]) + if Find(dense, bm25[i].hit.url).None? then [bm25[i].hit.url] else []
  {
    assert bm25[..i + 1][..i] == bm25[..i];
  }

  lemma {:induction false} FindNext(bm25: seq<Page>, i: nat, url: string)
    requires i < |bm25|
    ensures Find(bm25[..i + 1], url) == if url == bm25[i].hit.url then Some(bm25[i]) else Find(bm25[..i], url)
  {
    assert bm25[..i + 1] == bm25[..i] + [bm25[i]];
    FindAppend(bm25[..i], bm25[i], url);
  }

  lemma {:induction false} OthersSame(urls: seq<string>, dense: seq<Page>, bm25: seq<Page>, i: nat)
    requires i < |bm25|
    ensures forall j | 0 <= j < |urls| && urls[j] != bm25[i].hit.url ::
      EntryOf(dense, bm25[..i + 1], urls[j]) == EntryOf(dense, bm25[..i], urls[j])
  {
    forall j | 0 <= j < |urls| && urls[j] != bm25[i].hit.url
      ensures EntryOf(dense, bm25[..i + 1], urls[j]) == EntryOf(dense, bm25[..i], urls[j])
    {
      FindNext(bm25, i, urls[j]);
    }
  }

  lemma {:induction false} NewEntry(dense: seq<Page>, bm25: seq<Page>, i: nat)
    requires PagesOk(dense) && PagesOk(bm25) && i < |bm25| && Find(dense, bm25[i].hit.url).None?
    ensures var p, before, after := bm25[i], bm25[..i], bm25[..i + 1];
      Entries(Merged(dense, after), dense, after)
        == Entries(Merged(dense, before), dense, before) + [Unscored(None, Some(p), p.hit.url)]
  {
    var urls := Merged(dense, bm25[..i]);
    OneMoreBM25(dense, bm25, i);
    PrefixOk(bm25, i);
    MergedIs(dense, bm25[..i]);
    NotListedBefore(bm25, i);
    FindIs(dense, bm25[i].hit.url);
    assert forall j | 0 <= j < |urls| :: urls[j] in urls && urls[j] != bm25[i].hit.url;
    OthersSame(urls, dense, bm25, i);
    FindNext(bm25, i, bm25[i].hit.url);
  }

  lemma {:induction false} ChangedEntry(dense: seq<Page>, bm25: seq<Page>, i: nat, at: nat)
    requires PagesOk(dense) && PagesOk(bm25) && i < |bm25| && Find(dense, bm25[i].hit.url).Some?
    requires at < |Merged(dense, bm25[..i])| && Merged(dense, bm25[..i])[at] == bm25[i].hit.url
    ensures var p, before, after := bm25[i], bm25[..i], bm25[..i + 1];
      Entries(Merged(dense, after), dense, after)
        == Entries(Merged(dense, before), dense, before)[at := Unscored(Find(dense, p.hit.url), Some(p), p.hit.url)]
  {
    var urls := Merged(dense, bm25[..i]);
    OneMoreBM25(dense, bm25, i);
    PrefixOk(bm25, i);
    MergedIs(dense, bm25[..i]);
    assert forall j | 0 <= j < |urls| && j != at :: urls[j] != bm25[i].hit.url;
    OthersSame(urls, dense, bm25, i);
    FindNext(bm25, i, bm25[i].hit.url);
  }

  // ---- The loops ---------------------------------------------------------------------------

  /** Where the entry of a page is; made if there is none. */
  method Get(order: seq<Entry>, byURL: map<string, nat>, p: Page, ghost urls: seq<string>)
      returns (order': seq<Entry>, byURL': map<string, nat>, at: nat)
    requires Indexed(urls, byURL) && |order| == |urls|
    ensures p.hit.url in urls ==> order' == order && byURL' == byURL && at < |order| && urls[at] == p.hit.url
    ensures p.hit.url !in urls ==> at == |order| && Indexed(urls + [p.hit.url], byURL')
    ensures p.hit.url !in urls ==> order' == order + [Entry(p.hit.url, p.hit.host, p.hit.title, "", 0.0, None, None)]
  {
    if p.hit.url in byURL {
      return order, byURL, byURL[p.hit.url];
    }
    at := |order|;
    order' := order + [Entry(p.hit.url, p.hit.host, p.hit.title, "", 0.0, None, None)];
    byURL' := byURL[p.hit.url := at];
  }

  method AddDense(dense: seq<Page>) returns (order: seq<Entry>, byURL: map<string, nat>)
    requires PagesOk(dense)
    ensures order == Entries(URLs(dense), dense, []) && Indexed(URLs(dense), byURL)
  {
    order, byURL := [], map[];
    for i := 0 to |dense|
      invariant order == Entries(URLs(dense[..i]), dense[..i], []) && Indexed(URLs(dense[..i]), byURL)
    {
      var p, at := dense[i], 0;
      OneMoreDense(dense, i);
      NotListedBefore(dense, i);
      URLsAre(dense[..i]);
      order, byURL, at := Get(order, byURL, p, URLs(dense[..i]));
      order := order[at := order[at].(dense := Some(Signal(p.rank, p.hit.score)), snippet := Snippet(p.hit))];
    }
    assert dense[..|dense|] == dense;
  }

  method AddBM25(dense: seq<Page>, bm25: seq<Page>, order0: seq<Entry>, byURL0: map<string, nat>)
      returns (order: seq<Entry>)
    requires PagesOk(dense) && PagesOk(bm25)
    requires order0 == Entries(URLs(dense), dense, []) && Indexed(URLs(dense), byURL0)
    ensures order == Entries(Merged(dense, bm25), dense, bm25)
  {
    order := order0;
    var index := byURL0;
    for i := 0 to |bm25|
      invariant order == Entries(Merged(dense, bm25[..i]), dense, bm25[..i])
      invariant Indexed(Merged(dense, bm25[..i]), index)
    {
      order, index := AddOne(dense, bm25, i, order, index);
    }
    assert bm25[..|bm25|] == bm25;
  }

  method AddOne(dense: seq<Page>, bm25: seq<Page>, i: nat, order0: seq<Entry>, byURL0: map<string, nat>)
      returns (order: seq<Entry>, byURL: map<string, nat>)
    requires PagesOk(dense) && PagesOk(bm25) && i < |bm25|
    requires order0 == Entries(Merged(dense, bm25[..i]), dense, bm25[..i]) && Indexed(Merged(dense, bm25[..i]), byURL0)
    ensures order == Entries(Merged(dense, bm25[..i + 1]), dense, bm25[..i + 1])
    ensures Indexed(Merged(dense, bm25[..i + 1]), byURL)
  {
    var p, at := bm25[i], 0;
    OneMoreBM25(dense, bm25, i);
    PrefixOk(bm25, i);
    MergedIs(dense, bm25[..i]);
    NotListedBefore(bm25, i);
    FindIs(dense, p.hit.url);
    order, byURL, at := Get(order0, byURL0, p, Merged(dense, bm25[..i]));
    order := order[at := order[at].(bm25 := Some(Signal(p.rank, p.hit.score)))];
    if order[at].dense.None? || p.rank < order[at].dense.value.rank {
      order := order[at := order[at].(snippet := Snippet(p.hit))];
    }
    if Find(dense, p.hit.url).None? {
      NewEntry(dense, bm25, i);
    } else {
      ChangedEntry(dense, bm25, i, at);
    }
  }

  /** In a mode with one list the other was not asked for. */
  predicate Asked(dense: seq<Page>, bm25: seq<Page>, mode: Mode) {
    (mode == Dense ==> bm25 == []) && (mode == BM25 ==> dense == [])
  }

  predicate CanScore(e: Entry, mode: Mode) {
    (mode == Dense ==> e.dense.Some?) && (mode == BM25 ==> e.bm25.Some?)
  }

  function Scored(order: seq<Entry>, k: nat, mode: Mode): seq<Entry>
    requires k > 0
  {
    seq(|order|, i requires 0 <= i < |order| => order[i].(score := ScoreOf(order[i], k, mode)))
  }

  lemma {:induction false} CanScoreAll(dense: seq<Page>, bm25: seq<Page>, mode: Mode)
    requires PagesOk(dense) && PagesOk(bm25) && Asked(dense, bm25, mode)
    ensures var order := Entries(Merged(dense, bm25), dense, bm25);
      forall i | 0 <= i < |order| :: CanScore(order[i], mode)
  {
    MergedIs(dense, bm25);
    var urls := Merged(dense, bm25);
    forall i | 0 <= i < |urls| ensures CanScore(EntryOf(dense, bm25, urls[i]), mode) {
      assert urls[i] in urls;
      FindIs(dense, urls[i]);
      FindIs(bm25, urls[i]);
    }
  }

  /** Every page of either list, with its signals and its score. */
  function Candidates(dense: seq<Page>, bm25: seq<Page>, k: nat, mode: Mode): seq<Entry>
    requires k > 0
  {
    Scored(Entries(Merged(dense, bm25), dense, bm25), k, mode)
  }

  method ScoreAll(order: seq<Entry>, k: nat, mode: Mode) returns (scored: seq<Entry>)
    requires k > 0 && forall i | 0 <= i < |order| :: CanScore(order[i], mode) && order[i].score == 0.0
    ensures scored == Scored(order, k, mode)
  {
    scored := order;
    for i := 0 to |order|
      invariant |scored| == |order| && scored[..i] == Scored(order, k, mode)[..i] && scored[i..] == order[i..]
    {
      var e := scored[i];
      assert e == order[i];
      match mode {
        case Dense => e := e.(score := e.dense.value.score);
        case BM25 => e := e.(score := e.bm25.value.score);
        case Hybrid =>
          if e.dense.Some? {
            e := e.(score := e.score + 1.0 / (k + e.dense.value.rank) as real);
          }
          if e.bm25.Some? {
            e := e.(score := e.score + 1.0 / (k + e.bm25.value.rank) as real);
          }
      }
      assert e == Scored(order, k, mode)[i];
      scored := scored[i := e];
    }
  }

  method Fuse(dense: seq<Page>, bm25: seq<Page>, k: nat, mode: Mode) returns (results: seq<Entry>)
    requires k > 0 && PagesOk(dense) && PagesOk(bm25) && Asked(dense, bm25, mode)
    ensures results == StableSort(Candidates(dense, bm25, k, mode))
  {
    var order, byURL := AddDense(dense);
    order := AddBM25(dense, bm25, order, byURL);
    CanScoreAll(dense, bm25, mode);
    order := ScoreAll(order, k, mode);
    results := StableSort(order);
  }

  // ---- What fusion guarantees --------------------------------------------------------------

  lemma {:induction false} CandidateIs(dense: seq<Page>, bm25: seq<Page>, k: nat, mode: Mode, e: Entry)
    requires k > 0 && PagesOk(dense) && PagesOk(bm25) && Asked(dense, bm25, mode)
    requires e in Candidates(dense, bm25, k, mode)
    ensures Lists(dense, e.url) || Lists(bm25, e.url)
    ensures e.dense == SignalOf(Find(dense, e.url)) && e.bm25 == SignalOf(Find(bm25, e.url))
    ensures e.score == ScoreOf(e, k, mode)
  {
    MergedIs(dense, bm25);
    var urls := Merged(dense, bm25);
    var i :| 0 <= i < |urls| && Candidates(dense, bm25, k, mode)[i] == e;
    assert urls[i] in urls && e.url == urls[i];
  }

  lemma {:induction false} EveryPageHasACandidate(dense: seq<Page>, bm25: seq<Page>, k: nat, mode: Mode, url: string)
    requires k > 0 && PagesOk(dense) && PagesOk(bm25) && Asked(dense, bm25, mode)
    requires Lists(dense, url) || Lists(bm25, url)
    ensures exists e | e in Candidates(dense, bm25, k, mode) :: e.url == url
  {
    MergedIs(dense, bm25);
    var urls := Merged(dense, bm25);
    var i :| 0 <= i < |urls| && urls[i] == url;
    assert Candidates(dense, bm25, k, mode)[i].url == url;
  }

  ghost predicate DistinctURLs(s: seq<Entry>) {
    forall i, j | 0 <= i < j < |s| :: s[i].url != s[j].url
  }

  /** No entry of `s` has this URL. */
  ghost predicate Unused(s: seq<Entry>, url: string) {
    forall i | 0 <= i < |s| :: s[i].url != url
  }

  lemma {:induction false} InsertUses(s: seq<Entry>, x: Entry, url: string)
    requires Unused(s, url) && x.url != url
    ensures Unused(Insert(s, x), url)
  {
    if s != [] && Before(x, s[|s| - 1]) {
      InsertUses(s[..|s| - 1], x, url);
    }
  }

  lemma {:induction false} InsertKeepsDistinct(s: seq<Entry>, x: Entry)
    requires DistinctURLs(s) && Unused(s, x.url)
    ensures DistinctURLs(Insert(s, x))
  {
    if s != [] && Before(x, s[|s| - 1]) {
      var n := |s| - 1;
      InsertKeepsDistinct(s[..n], x);
      InsertUses(s[..n], x, s[n].url);
    }
  }

  lemma {:induction false} SortUses(s: seq<Entry>, url: string)
    requires Unused(s, url)
    ensures Unused(StableSort(s), url)
  {
    if s != [] {
      SortUses(s[..|s| - 1], url);
      InsertUses(StableSort(s[..|s| - 1]), s[|s| - 1], url);
    }
  }

  lemma {:induction false} SortKeepsDistinct(s: seq<Entry>)
    requires DistinctURLs(s)
    ensures DistinctURLs(StableSort(s))
  {
    if s != [] {
      var n := |s| - 1;
      SortKeepsDistinct(s[..n]);
      SortUses(s[..n], s[n].url);
      InsertKeepsDistinct(StableSort(s[..n]), s[n]);
    }
  }

  lemma {:induction false} ResultIsCandidate(dense: seq<Page>, bm25: seq<Page>, k: nat, mode: Mode, e: Entry)
    requires k > 0 && PagesOk(dense) && PagesOk(bm25) && Asked(dense, bm25, mode)
    ensures e in StableSort(Candidates(dense, bm25, k, mode)) <==> e in Candidates(dense, bm25, k, mode)
  {
    var candidates := Candidates(dense, bm25, k, mode);
    StableSortKeepsAll(candidates);
    assert e in StableSort(candidates) <==> e in multiset(StableSort(candidates));
    assert e in candidates <==> e in multiset(candidates);
  }

  /** The results are the pages of both lists, each once. */
  lemma {:induction false} ResultsAreTheUnion(dense: seq<Page>, bm25: seq<Page>, k: nat, mode: Mode, url: string)
    requires k > 0 && PagesOk(dense) && PagesOk(bm25) && Asked(dense, bm25, mode)
    ensures DistinctURLs(StableSort(Candidates(dense, bm25, k, mode)))
    ensures (exists e | e in StableSort(Candidates(dense, bm25, k, mode)) :: e.url == url)
      <==> Lists(dense, url) || Lists(bm25, url)
  {
    var candidates := Candidates(dense, bm25, k, mode);
    MergedIs(dense, bm25);
    SortKeepsDistinct(candidates);
    if Lists(dense, url) || Lists(bm25, url) {
      EveryPageHasACandidate(dense, bm25, k, mode, url);
      var e :| e in candidates && e.url == url;
      ResultIsCandidate(dense, bm25, k, mode, e);
    }
    if e :| e in StableSort(candidates) && e.url == url {
      ResultIsCandidate(dense, bm25, k, mode, e);
      CandidateIs(dense, bm25, k, mode, e);
    }
  }

  /** A page ranked like this is no worse than one ranked like that; a page a list does not have
      counts as last there. */
  predicate NoWorse(a: Option<Signal>, b: Option<Signal>) {
    b.None? || (a.Some? && a.value.rank <= b.value.rank)
  }

  predicate Dominates(a: Entry, b: Entry) {
    NoWorse(a.dense, b.dense) && NoWorse(a.bm25, b.bm25) && !(NoWorse(b.dense, a.dense) && NoWorse(b.bm25, a.bm25))
  }

  lemma {:induction false} ReciprocalFalls(k: nat, a: Option<Signal>, b: Option<Signal>)
    requires k > 0 && NoWorse(a, b)
    ensures Reciprocal(k, a) >= Reciprocal(k, b)
    ensures !NoWorse(b, a) ==> Reciprocal(k, a) > Reciprocal(k, b)
  {
    if b.Some? {
      FractionFalls((k + a.value.rank) as real, (k + b.value.rank) as real);
    }
  }

  lemma {:induction false} FractionFalls(x: real, y: real)
    requires 0.0 < x <= y
    ensures 1.0 / x >= 1.0 / y
    ensures x < y ==> 1.0 / x > 1.0 / y
  {
    assert 1.0 / x - 1.0 / y == (y - x) / (x * y);
  }

  /** In hybrid mode a page that is ranked no worse in each list, and better in one, comes first. */
  lemma {:induction false} DominanceIsRespected(dense: seq<Page>, bm25: seq<Page>, k: nat, i: nat, j: nat)
    requires k > 0 && PagesOk(dense) && PagesOk(bm25)
    requires var results := StableSort(Candidates(dense, bm25, k, Hybrid));
      i < |results| && j < |results| && Dominates(results[i], results[j])
    ensures i < j
  {
    var candidates := Candidates(dense, bm25, k, Hybrid);
    var results := StableSort(candidates);
    StableSortSorts(candidates);
    ResultIsCandidate(dense, bm25, k, Hybrid, results[i]);
    ResultIsCandidate(dense, bm25, k, Hybrid, results[j]);
    CandidateIs(dense, bm25, k, Hybrid, results[i]);
    CandidateIs(dense, bm25, k, Hybrid, results[j]);
    ReciprocalFalls(k, results[i].dense, results[j].dense);
    ReciprocalFalls(k, results[i].bm25, results[j].bm25);
    assert Before(results[i], results[j]);
  }

  ghost predicate ScoresFall(pages: seq<Page>) {
    forall i, j | 0 <= i < j < |pages| :: pages[i].hit.score >= pages[j].hit.score
  }

  lemma {:induction false} FindAt(pages: seq<Page>, i: nat)
    requires PagesOk(pages) && i < |pages|
    ensures Find(pages, pages[i].hit.url) == Some(pages[i])
  {
    FindIs(pages, pages[i].hit.url);
    assert Lists(pages, pages[i].hit.url);
  }

  lemma {:induction false} MergedAlone(bm25: seq<Page>)
    ensures Merged([], bm25) == URLs(bm25)
  {
    if bm25 != [] {
      MergedAlone(bm25[..|bm25| - 1]);
    }
  }

  /** The candidates of a single list. */
  function Alone(pages: seq<Page>, k: nat, mode: Mode): seq<Entry>
    requires k > 0
  {
    if mode == BM25 then Candidates([], pages, k, mode) else Candidates(pages, [], k, mode)
  }

  lemma {:induction false} AloneIs(pages: seq<Page>, k: nat, mode: Mode, i: nat)
    requires k > 0 && PagesOk(pages) && mode != Hybrid && i < |pages|
    ensures |Alone(pages, k, mode)| == |pages|
    ensures var e := Alone(pages, k, mode)[i];
      e.url == pages[i].hit.url && e.score == pages[i].hit.score
        && BestRank(e) == if i + 1 < MaxInt then i + 1 else MaxInt
  {
    MergedAlone(pages);
    FindAt(pages, i);
  }

  /** With one list, best scores first, the results are the pages in its order. */
  lemma {:induction false} SingleListOrderKept(pages: seq<Page>, k: nat, mode: Mode)
    requires k > 0 && PagesOk(pages) && mode != Hybrid && ScoresFall(pages)
    ensures var results := StableSort(Alone(pages, k, mode));
      |results| == |pages| && forall i | 0 <= i < |pages| :: results[i].url == pages[i].hit.url
  {
    var candidates := Alone(pages, k, mode);
    MergedAlone(pages);
    forall i | 0 <= i < |pages|
      ensures candidates[i].url == pages[i].hit.url && candidates[i].score == pages[i].hit.score
      ensures BestRank(candidates[i]) == if i + 1 < MaxInt then i + 1 else MaxInt
    {
      AloneIs(pages, k, mode, i);
    }
    SortedStays(candidates);
  }
}
