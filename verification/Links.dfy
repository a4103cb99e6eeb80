/** The link graph as a value: pages, links between them, and other names of pages. What saving a
    page does to it, what every save keeps, and why the order of saves does not matter. */
module Links {
  type URL = string

  datatype Link = Link(from: URL, to: URL)

  datatype Graph = Graph(pages: set<URL>, links: set<Link>, aliases: map<URL, URL>)

  // ---- The queries -------------------------------------------------------------------------

  function DropAlias(g: Graph, url: URL): Graph {
    g.(aliases := g.aliases - {url})
  }

  /** Where a link to `link` goes: to the page it is another name of, or to itself. */
  function Target(aliases: map<URL, URL>, link: URL): URL {
    if link in aliases then aliases[link] else link
  }

  /** Where the links of page `url` go, those back to it left out. */
  function Targets(aliases: map<URL, URL>, url: URL, links: seq<URL>): set<URL> {
    set l | l in links && Target(aliases, l) != url :: Target(aliases, l)
  }

  function LinksTo(url: URL, targets: set<URL>): set<Link> {
    set t | t in targets :: Link(url, t)
  }

  function Upsert(g: Graph, url: URL, links: seq<URL>): Graph {
    var targets := Targets(g.aliases, url, links);
    g.(pages := g.pages + {url} + targets, links := g.links + LinksTo(url, targets))
  }

  /** The links once page `alias` is folded into page `url`: its links move over, those between the
      two go. */
  function FoldLinks(links: set<Link>, alias: URL, url: URL): set<Link> {
    (set l | l in links && l.from != alias && l.to != alias)
    + (set l | l in links && l.to == alias && l.from != url && l.from != alias :: Link(l.from, url))
    + (set l | l in links && l.from == alias && l.to != url && l.to != alias :: Link(url, l.to))
  }

  function FoldPage(g: Graph, alias: URL, url: URL): Graph {
    if alias in g.pages then g.(pages := g.pages - {alias} + {url}, links := FoldLinks(g.links, alias, url)) else g
  }

  /** `alias` becomes another name of `url`, and so does every other name of `alias`. */
  function RecordAlias(aliases: map<URL, URL>, alias: URL, url: URL): map<URL, URL> {
    var recorded := aliases[alias := url];
    map a | a in recorded :: if recorded[a] == alias then url else recorded[a]
  }

  function Fold(g: Graph, alias: URL, url: URL): Graph {
    FoldPage(g, alias, url).(aliases := RecordAlias(g.aliases, alias, url))
  }

  function FoldAll(g: Graph, aliases: seq<URL>, url: URL): Graph {
    if aliases == [] then g
    else Fold(FoldAll(g, aliases[..|aliases| - 1], url), aliases[|aliases| - 1], url)
  }

  /** A page with its links and its other names, saved in one transaction. */
  datatype Save = Save(url: URL, links: seq<URL>, aliases: seq<URL>)

  function SavePage(g: Graph, s: Save): Graph {
    FoldAll(Upsert(DropAlias(g, s.url), s.url, s.links), s.aliases, s.url)
  }

  function SaveAll(g: Graph, saves: seq<Save>): Graph {
    if saves == [] then g else SavePage(SaveAll(g, saves[..|saves| - 1]), saves[|saves| - 1])
  }

  /** A page is no other name of itself. */
  predicate Proper(s: Save) {
    s.url !in s.aliases
  }

  // ---- What every save keeps ---------------------------------------------------------------

  ghost predicate LinksOk(g: Graph) {
    forall l | l in g.links :: l.from in g.pages && l.to in g.pages && l.from != l.to
  }

  ghost predicate AliasesOk(g: Graph) {
    forall a | a in g.aliases :: a !in g.pages && g.aliases[a] in g.pages
  }

  /** Links join different pages; nothing is both a page and another name; every other name is of an
      existing page, so never of another name. */
  ghost predicate WellFormed(g: Graph) {
    LinksOk(g) && AliasesOk(g)
  }

  lemma {:induction false} DropAliasKeeps(g: Graph, url: URL)
    requires WellFormed(g)
    ensures WellFormed(DropAlias(g, url)) && url !in DropAlias(g, url).aliases
  {
  }

  lemma {:induction false} UpsertKeeps(g: Graph, url: URL, links: seq<URL>)
    requires WellFormed(g) && url !in g.aliases
    ensures WellFormed(Upsert(g, url, links)) && url in Upsert(g, url, links).pages
  {
    var targets := Targets(g.aliases, url, links);
    forall t | t in targets ensures t !in g.aliases && t != url {
    }
  }

  lemma {:induction false} FoldKeeps(g: Graph, alias: URL, url: URL)
    requires WellFormed(g) && url in g.pages && alias != url
    ensures WellFormed(Fold(g, alias, url)) && url in Fold(g, alias, url).pages
  {
    var h := Fold(g, alias, url);
    FoldKeepsLinks(g, alias, url);
    forall a | a in h.aliases ensures a !in h.pages && h.aliases[a] in h.pages {
      if a != alias {
        assert a in g.aliases;
      }
    }
  }

  lemma {:induction false} FoldKeepsLinks(g: Graph, alias: URL, url: URL)
    requires WellFormed(g) && url in g.pages && alias != url
    ensures LinksOk(Fold(g, alias, url))
  {
  }

  lemma {:induction false} FoldAllKeeps(g: Graph, aliases: seq<URL>, url: URL)
    requires WellFormed(g) && url in g.pages && url !in aliases
    ensures WellFormed(FoldAll(g, aliases, url)) && url in FoldAll(g, aliases, url).pages
  {
    if aliases != [] {
      var n := |aliases| - 1;
      FoldAllKeeps(g, aliases[..n], url);
      FoldKeeps(FoldAll(g, aliases[..n], url), aliases[n], url);
    }
  }

  lemma {:induction false} SaveKeeps(g: Graph, s: Save)
    requires WellFormed(g) && Proper(s)
    ensures WellFormed(SavePage(g, s)) && s.url in SavePage(g, s).pages
  {
    DropAliasKeeps(g, s.url);
    UpsertKeeps(DropAlias(g, s.url), s.url, s.links);
    FoldAllKeeps(Upsert(DropAlias(g, s.url), s.url, s.links), s.aliases, s.url);
  }

  /** After any saves the graph is well formed. */
  lemma {:induction false} EveryGraphIsWellFormed(saves: seq<Save>)
    requires forall s | s in saves :: Proper(s)
    ensures WellFormed(SaveAll(Graph({}, {}, map[]), saves))
  {
    if saves != [] {
      EveryGraphIsWellFormed(saves[..|saves| - 1]);
      SaveKeeps(SaveAll(Graph({}, {}, map[]), saves[..|saves| - 1]), saves[|saves| - 1]);
    }
  }

  // ---- Folding is a quotient ---------------------------------------------------------------

  function Renamed(u: URL, alias: URL, url: URL): URL {
    if u == alias then url else u
  }

  function RenamedLink(l: Link, alias: URL, url: URL): Link {
    Link(Renamed(l.from, alias, url), Renamed(l.to, alias, url))
  }

  predicate IsLoop(l: Link) {
    l.from == l.to
  }

  function RenamedLinks(links: set<Link>, alias: URL, url: URL): set<Link> {
    set l | l in links && !IsLoop(RenamedLink(l, alias, url)) :: RenamedLink(l, alias, url)
  }

  lemma {:induction false} FoldLinksIsQuotient(links: set<Link>, alias: URL, url: URL)
    requires alias != url && forall l | l in links :: l.from != l.to
    ensures FoldLinks(links, alias, url) == RenamedLinks(links, alias, url)
  {
    forall l | l in FoldLinks(links, alias, url) ensures l in RenamedLinks(links, alias, url) {
      if l in links && l.from != alias && l.to != alias {
        assert l == RenamedLink(l, alias, url);
      } else if Link(l.from, alias) in links && l.to == url && l.from != url {
        assert l == RenamedLink(Link(l.from, alias), alias, url);
      } else {
        assert l == RenamedLink(Link(alias, l.to), alias, url);
      }
    }
  }

  function RenamedPages(pages: set<URL>, alias: URL, url: URL): set<URL> {
    set p | p in pages :: Renamed(p, alias, url)
  }

  lemma {:induction false} FoldPagesIsQuotient(pages: set<URL>, alias: URL, url: URL)
    requires alias in pages && url in pages && alias != url
    ensures pages - {alias} + {url} == RenamedPages(pages, alias, url)
  {
    forall p | p in pages && p != alias ensures p in RenamedPages(pages, alias, url) {
      assert p == Renamed(p, alias, url);
    }
    assert url == Renamed(alias, alias, url);
  }

  lemma {:induction false} FoldRenames(g: Graph, alias: URL, url: URL)
    requires WellFormed(g) && url in g.pages && alias != url
    ensures Fold(g, alias, url).links == RenamedLinks(g.links, alias, url)
    ensures Fold(g, alias, url).pages == RenamedPages(g.pages, alias, url)
  {
    if alias in g.pages {
      FoldLinksIsQuotient(g.links, alias, url);
      FoldPagesIsQuotient(g.pages, alias, url);
    } else {
      NothingRenamed(g, alias, url);
    }
  }

  ghost predicate Recorded(aliases: map<URL, URL>, after: map<URL, URL>, alias: URL, url: URL) {
    && after.Keys == aliases.Keys + {alias} && after[alias] == url
    && forall a | a in aliases && a != alias :: after[a] == Renamed(aliases[a], alias, url)
  }

  lemma {:induction false} RecordRenames(aliases: map<URL, URL>, alias: URL, url: URL)
    requires alias != url
    ensures Recorded(aliases, RecordAlias(aliases, alias, url), alias, url)
  {
  }

  /** Folding an alias maps pages, links and what other names stand for to their images under
      renaming the alias to the page, links that become loops left out. */
  lemma {:induction false} FoldIsQuotient(g: Graph, alias: URL, url: URL)
    requires WellFormed(g) && url in g.pages && alias != url
    ensures Fold(g, alias, url).links == RenamedLinks(g.links, alias, url)
    ensures Fold(g, alias, url).pages == RenamedPages(g.pages, alias, url)
    ensures Fold(g, alias, url).aliases.Keys == g.aliases.Keys + {alias}
    ensures forall a | a in g.aliases && a != alias ::
      Fold(g, alias, url).aliases[a] == Renamed(g.aliases[a], alias, url)
    ensures Fold(g, alias, url).aliases[alias] == url
  {
    FoldRenames(g, alias, url);
    RecordRenames(g.aliases, alias, url);
  }

  lemma {:induction false} NothingRenamed(g: Graph, alias: URL, url: URL)
    requires LinksOk(g) && alias !in g.pages
    ensures RenamedLinks(g.links, alias, url) == g.links
    ensures g.pages == RenamedPages(g.pages, alias, url)
  {
    assert forall p | p in g.pages :: p == Renamed(p, alias, url);
    forall l | l in g.links ensures l == RenamedLink(l, alias, url) {
    }
  }

  // ---- The order of saves ------------------------------------------------------------------

  /** `a` is another name of `q` and of nothing else so far. */
  ghost predicate FreeFor(g: Graph, a: URL, q: URL) {
    a in g.aliases ==> g.aliases[a] == q
  }

  /** Links resolve after folding `a` into `q` to what they resolved to before, renamed. */
  lemma {:induction false} TargetAfterFold(g: Graph, a: URL, q: URL, link: URL)
    requires WellFormed(g) && q in g.pages && a != q && FreeFor(g, a, q)
    ensures Target(Fold(g, a, q).aliases, link) == Renamed(Target(g.aliases, link), a, q)
  {
  }

  lemma {:induction false} TargetsAfterFold(g: Graph, a: URL, q: URL, p: URL, links: seq<URL>)
    requires WellFormed(g) && q in g.pages && a != q && FreeFor(g, a, q) && a != p
    ensures Targets(Fold(g, a, q).aliases, p, links)
      == RenamedPages(Targets(g.aliases, p, links), a, q) - {p}
  {
    var after := Targets(Fold(g, a, q).aliases, p, links);
    var renamed := RenamedPages(Targets(g.aliases, p, links), a, q);
    forall l | l in links ensures Target(Fold(g, a, q).aliases, l) == Renamed(Target(g.aliases, l), a, q) {
      TargetAfterFold(g, a, q, l);
    }
    forall x | x in after ensures x in renamed && x != p {
      var l :| l in links && x == Target(Fold(g, a, q).aliases, l);
      assert Target(g.aliases, l) in Targets(g.aliases, p, links);
    }
    forall x | x in renamed && x != p ensures x in after {
      var t :| t in Targets(g.aliases, p, links) && x == Renamed(t, a, q);
      var l :| l in links && t == Target(g.aliases, l);
    }
  }

  lemma {:induction false} RenamedUnion(xs: set<Link>, ys: set<Link>, a: URL, q: URL)
    ensures RenamedLinks(xs + ys, a, q) == RenamedLinks(xs, a, q) + RenamedLinks(ys, a, q)
  {
  }

  lemma {:induction false} RenamedLinksTo(p: URL, targets: set<URL>, a: URL, q: URL)
    requires a != p
    ensures RenamedLinks(LinksTo(p, targets), a, q) == LinksTo(p, RenamedPages(targets, a, q) - {p})
  {
    var renamed := RenamedPages(targets, a, q);
    forall l | l in RenamedLinks(LinksTo(p, targets), a, q) ensures l in LinksTo(p, renamed - {p}) {
      var k :| k in LinksTo(p, targets) && l == RenamedLink(k, a, q) && !IsLoop(l);
      assert k.to in targets;
    }
    forall l | l in LinksTo(p, renamed - {p}) ensures l in RenamedLinks(LinksTo(p, targets), a, q) {
      var t :| t in targets && l.to == Renamed(t, a, q);
      assert Link(p, t) in LinksTo(p, targets) && l == RenamedLink(Link(p, t), a, q);
    }
  }

  lemma {:induction false} RenamedMorePages(pages: set<URL>, p: URL, targets: set<URL>, a: URL, q: URL)
    requires a != p
    ensures RenamedPages(pages + {p} + targets, a, q)
      == RenamedPages(pages, a, q) + {p} + (RenamedPages(targets, a, q) - {p})
  {
  }

  /** Folding an alias into another page and saving a page's links may change places. */
  lemma {:induction false} FoldUpsertCommute(g: Graph, a: URL, q: URL, p: URL, links: seq<URL>)
    requires WellFormed(g) && q in g.pages && a != q && a != p && FreeFor(g, a, q) && p !in g.aliases
    ensures Upsert(Fold(g, a, q), p, links) == Fold(Upsert(g, p, links), a, q)
  {
    var targets := Targets(g.aliases, p, links);
    UpsertKeeps(g, p, links);
    FoldRenames(g, a, q);
    FoldRenames(Upsert(g, p, links), a, q);
    TargetsAfterFold(g, a, q, p, links);
    RenamedUnion(g.links, LinksTo(p, targets), a, q);
    RenamedLinksTo(p, targets, a, q);
    RenamedMorePages(g.pages, p, targets, a, q);
  }

  // ---- Saves of different pages ------------------------------------------------------------

  /** What folding all of `names` into `url` makes of a URL. */
  function Folded(u: URL, names: seq<URL>, url: URL): URL {
    if u in names then url else u
  }

  function FoldedLink(l: Link, names: seq<URL>, url: URL): Link {
    Link(Folded(l.from, names, url), Folded(l.to, names, url))
  }

  function FoldedLinks(links: set<Link>, names: seq<URL>, url: URL): set<Link> {
    set l | l in links && !IsLoop(FoldedLink(l, names, url)) :: FoldedLink(l, names, url)
  }

  function FoldedPages(pages: set<URL>, names: seq<URL>, url: URL): set<URL> {
    set p | p in pages :: Folded(p, names, url)
  }

  /** The table once all of `names` are other names of `url`. */
  ghost predicate AllRecorded(aliases: map<URL, URL>, after: map<URL, URL>, names: seq<URL>, url: URL) {
    && (forall a :: a in after <==> a in aliases || a in names)
    && (forall a | a in names :: a in after && after[a] == url)
    && forall a | a in aliases && a !in names :: a in after && after[a] == Folded(aliases[a], names, url)
  }

  lemma {:induction false} FoldedOneMore(names: seq<URL>, url: URL, u: URL)
    requires names != [] && url !in names
    ensures var n := |names| - 1; Renamed(Folded(u, names[..n], url), names[n], url) == Folded(u, names, url)
  {
    var n := |names| - 1;
    assert names == names[..n] + [names[n]];
  }

  lemma {:induction false} FoldedLinksOneMore(links: set<Link>, names: seq<URL>, url: URL)
    requires names != [] && url !in names
    ensures var n := |names| - 1;
      RenamedLinks(FoldedLinks(links, names[..n], url), names[n], url) == FoldedLinks(links, names, url)
  {
    var n := |names| - 1;
    forall l: Link ensures RenamedLink(FoldedLink(l, names[..n], url), names[n], url) == FoldedLink(l, names, url) {
      FoldedOneMore(names, url, l.from);
      FoldedOneMore(names, url, l.to);
    }
    forall l | l in links && !IsLoop(FoldedLink(l, names, url))
      ensures FoldedLink(l, names, url) in RenamedLinks(FoldedLinks(links, names[..n], url), names[n], url)
    {
      assert FoldedLink(l, names[..n], url) in FoldedLinks(links, names[..n], url);
    }
  }

  lemma {:induction false} FoldedPagesOneMore(pages: set<URL>, names: seq<URL>, url: URL)
    requires names != [] && url !in names
    ensures var n := |names| - 1;
      RenamedPages(FoldedPages(pages, names[..n], url), names[n], url) == FoldedPages(pages, names, url)
  {
    var n := |names| - 1;
    forall u: URL ensures Renamed(Folded(u, names[..n], url), names[n], url) == Folded(u, names, url) {
      FoldedOneMore(names, url, u);
    }
    forall u | u in pages
      ensures Folded(u, names, url) in RenamedPages(FoldedPages(pages, names[..n], url), names[n], url)
    {
      assert Folded(u, names[..n], url) in FoldedPages(pages, names[..n], url);
    }
  }

  lemma {:induction false} RecordedOneMore(aliases: map<URL, URL>, before: map<URL, URL>, after: map<URL, URL>,
      names: seq<URL>, url: URL)
    requires names != [] && url !in names
    requires var n := |names| - 1;
      AllRecorded(aliases, before, names[..n], url) && Recorded(before, after, names[n], url)
    ensures AllRecorded(aliases, after, names, url)
  {
    var n := |names| - 1;
    assert forall a :: a in names <==> a in names[..n] || a == names[n];
    assert forall a :: a in after <==> a in before || a == names[n];
    forall a | a in aliases && a !in names ensures a in after && after[a] == Folded(aliases[a], names, url) {
      FoldedOneMore(names, url, aliases[a]);
    }
  }

  /** Folding all other names of a page is one renaming. */
  lemma {:induction false} FoldAllIsQuotient(g: Graph, names: seq<URL>, url: URL)
    requires WellFormed(g) && url in g.pages && url !in names
    ensures FoldAll(g, names, url).links == FoldedLinks(g.links, names, url)
    ensures FoldAll(g, names, url).pages == FoldedPages(g.pages, names, url)
    ensures AllRecorded(g.aliases, FoldAll(g, names, url).aliases, names, url)
  {
    if names == [] {
      NoNamesFolded(g, url);
    } else {
      var n := |names| - 1;
      var before := FoldAll(g, names[..n], url);
      FoldAllIsQuotient(g, names[..n], url);
      FoldAllKeeps(g, names[..n], url);
      FoldRenames(before, names[n], url);
      RecordRenames(before.aliases, names[n], url);
      FoldedLinksOneMore(g.links, names, url);
      FoldedPagesOneMore(g.pages, names, url);
      RecordedOneMore(g.aliases, before.aliases, RecordAlias(before.aliases, names[n], url), names, url);
    }
  }

  lemma {:induction false} NoNamesFolded(g: Graph, url: URL)
    requires LinksOk(g)
    ensures FoldedLinks(g.links, [], url) == g.links && FoldedPages(g.pages, [], url) == g.pages
    ensures AllRecorded(g.aliases, g.aliases, [], url)
  {
    forall l | l in g.links ensures l in FoldedLinks(g.links, [], url) {
      assert l == FoldedLink(l, [], url);
    }
    forall p | p in g.pages ensures p in FoldedPages(g.pages, [], url) {
      assert p == Folded(p, [], url);
    }
  }

  /** A save as one renaming. */
  lemma {:induction false} SaveIsQuotient(g: Graph, s: Save)
    requires WellFormed(g) && Proper(s)
    ensures var targets := Targets(g.aliases - {s.url}, s.url, s.links);
      && SavePage(g, s).links == FoldedLinks(g.links + LinksTo(s.url, targets), s.aliases, s.url)
      && SavePage(g, s).pages == FoldedPages(g.pages + {s.url} + targets, s.aliases, s.url)
      && AllRecorded(g.aliases - {s.url}, SavePage(g, s).aliases, s.aliases, s.url)
  {
    DropAliasKeeps(g, s.url);
    UpsertKeeps(DropAlias(g, s.url), s.url, s.links);
    FoldAllIsQuotient(Upsert(DropAlias(g, s.url), s.url, s.links), s.aliases, s.url);
  }

  /** The page of a save, or a name it claims. */
  predicate Claims(s: Save, u: URL) {
    u == s.url || u in s.aliases
  }

  ghost predicate Disjoint(s: Save, t: Save) {
    forall u | Claims(s, u) :: !Claims(t, u)
  }

  /** A save takes another name over only together with the page it is a name of. */
  ghost predicate TakesWhole(aliases: map<URL, URL>, s: Save) {
    forall u | Claims(s, u) && u in aliases :: Claims(s, aliases[u])
  }

  /** Two saves that claim nothing of each other's, nor part of the names of another page. */
  ghost predicate Independent(aliases: map<URL, URL>, s: Save, t: Save) {
    Disjoint(s, t) && TakesWhole(aliases, s) && TakesWhole(aliases, t)
  }

  /** What both saves together make of a URL. */
  function Both(u: URL, s: Save, t: Save): URL {
    Folded(Folded(u, s.aliases, s.url), t.aliases, t.url)
  }

  lemma {:induction false} BothEitherWay(u: URL, s: Save, t: Save)
    requires Disjoint(s, t)
    ensures Both(u, s, t) == Both(u, t, s)
    ensures Both(u, s, t) == s.url <==> Claims(s, u)
    ensures Both(u, s, t) == t.url <==> Claims(t, u)
  {
    assert Claims(s, s.url) && Claims(t, t.url);
    assert u in s.aliases ==> Claims(s, u);
  }

  /** After a save links resolve to what they resolved to before, as the save renames it. */
  lemma {:induction false} ResolveAfter(aliases: map<URL, URL>, after: map<URL, URL>, s: Save, u: URL)
    requires Proper(s) && TakesWhole(aliases, s) && AllRecorded(aliases - {s.url}, after, s.aliases, s.url)
    ensures Target(after, u) == Folded(Target(aliases, u), s.aliases, s.url)
  {
    assert Claims(s, u) && u in aliases ==> Claims(s, aliases[u]);
    if u == s.url {
      assert u !in after;
    } else if u in s.aliases {
      assert after[u] == s.url;
    } else if u in aliases {
      assert u in aliases - {s.url};
    }
  }

  /** The same for the links of the save that comes second. */
  lemma {:induction false} ResolveSecond(aliases: map<URL, URL>, after: map<URL, URL>, s: Save, t: Save, u: URL)
    requires Proper(s) && Proper(t) && Independent(aliases, s, t)
    requires AllRecorded(aliases - {s.url}, after, s.aliases, s.url)
    ensures Folded(Target(after - {t.url}, u), t.aliases, t.url) == Both(Target(aliases, u), s, t)
  {
    ResolveAfter(aliases, after, s, u);
    if u == t.url {
      BothEitherWay(Target(aliases, u), s, t);
      assert Claims(t, u);
    }
  }

  /** And for the one that comes first. */
  lemma {:induction false} ResolveFirst(aliases: map<URL, URL>, s: Save, t: Save, u: URL)
    requires Proper(s) && Independent(aliases, s, t)
    ensures Both(Target(aliases - {s.url}, u), s, t) == Both(Target(aliases, u), s, t)
  {
    if u == s.url {
      BothEitherWay(Target(aliases, u), s, t);
      BothEitherWay(u, s, t);
      assert Claims(s, u);
    }
  }

  // ---- Two saves as one renaming -----------------------------------------------------------

  function Resolved(aliases: map<URL, URL>, links: seq<URL>): set<URL> {
    set l | l in links :: Target(aliases, l)
  }

  function BothLink(l: Link, s: Save, t: Save): Link {
    Link(Both(l.from, s, t), Both(l.to, s, t))
  }

  function BothLinks(links: set<Link>, s: Save, t: Save): set<Link> {
    set l | l in links && !IsLoop(BothLink(l, s, t)) :: BothLink(l, s, t)
  }

  function BothPages(pages: set<URL>, s: Save, t: Save): set<URL> {
    set p | p in pages :: Both(p, s, t)
  }

  /** All links there are, and all pages, before anything is renamed. */
  function RawLinks(g: Graph, s: Save, t: Save): set<Link> {
    g.links + LinksTo(s.url, Resolved(g.aliases, s.links)) + LinksTo(t.url, Resolved(g.aliases, t.links))
  }

  function RawPages(g: Graph, s: Save, t: Save): set<URL> {
    g.pages + {s.url, t.url} + Resolved(g.aliases, s.links) + Resolved(g.aliases, t.links)
  }

  lemma {:induction false} FoldedUnion(xs: set<Link>, ys: set<Link>, names: seq<URL>, url: URL)
    ensures FoldedLinks(xs + ys, names, url) == FoldedLinks(xs, names, url) + FoldedLinks(ys, names, url)
  {
  }

  lemma {:induction false} BothUnion(xs: set<Link>, ys: set<Link>, s: Save, t: Save)
    ensures BothLinks(xs + ys, s, t) == BothLinks(xs, s, t) + BothLinks(ys, s, t)
  {
  }

  lemma {:induction false} FoldedTwice(links: set<Link>, s: Save, t: Save)
    ensures FoldedLinks(FoldedLinks(links, s.aliases, s.url), t.aliases, t.url) == BothLinks(links, s, t)
  {
    forall l | l in links && !IsLoop(BothLink(l, s, t))
      ensures BothLink(l, s, t) in FoldedLinks(FoldedLinks(links, s.aliases, s.url), t.aliases, t.url)
    {
      assert FoldedLink(l, s.aliases, s.url) in FoldedLinks(links, s.aliases, s.url);
    }
  }

  lemma {:induction false} FirstLinks(aliases: map<URL, URL>, s: Save, t: Save)
    requires Proper(s) && Independent(aliases, s, t)
    ensures BothLinks(LinksTo(s.url, Targets(aliases - {s.url}, s.url, s.links)), s, t)
      == BothLinks(LinksTo(s.url, Resolved(aliases, s.links)), s, t)
  {
    var some, all := Targets(aliases - {s.url}, s.url, s.links), Resolved(aliases, s.links);
    forall l: URL ensures Both(Target(aliases - {s.url}, l), s, t) == Both(Target(aliases, l), s, t) {
      ResolveFirst(aliases, s, t, l);
    }
    forall k | k in BothLinks(LinksTo(s.url, some), s, t) ensures k in BothLinks(LinksTo(s.url, all), s, t) {
      var l :| l in s.links && k == BothLink(Link(s.url, Target(aliases - {s.url}, l)), s, t);
      assert Target(aliases, l) in all && Link(s.url, Target(aliases, l)) in LinksTo(s.url, all);
    }
    forall k | k in BothLinks(LinksTo(s.url, all), s, t) ensures k in BothLinks(LinksTo(s.url, some), s, t) {
      var l :| l in s.links && k == BothLink(Link(s.url, Target(aliases, l)), s, t);
      assert Target(aliases - {s.url}, l) in some;
      assert Link(s.url, Target(aliases - {s.url}, l)) in LinksTo(s.url, some);
    }
  }

  lemma {:induction false} SecondLink(aliases: map<URL, URL>, after: map<URL, URL>, s: Save, t: Save, l: URL)
    requires Proper(s) && Proper(t) && Independent(aliases, s, t)
    requires AllRecorded(aliases - {s.url}, after, s.aliases, s.url)
    ensures FoldedLink(Link(t.url, Target(after - {t.url}, l)), t.aliases, t.url)
      == BothLink(Link(t.url, Target(aliases, l)), s, t)
  {
    ResolveSecond(aliases, after, s, t, l);
    BothEitherWay(t.url, s, t);
    assert Claims(t, t.url);
  }

  lemma {:induction false} SecondLinks(aliases: map<URL, URL>, after: map<URL, URL>, s: Save, t: Save)
    requires Proper(s) && Proper(t) && Independent(aliases, s, t)
    requires AllRecorded(aliases - {s.url}, after, s.aliases, s.url)
    ensures FoldedLinks(LinksTo(t.url, Targets(after - {t.url}, t.url, t.links)), t.aliases, t.url)
      == BothLinks(LinksTo(t.url, Resolved(aliases, t.links)), s, t)
  {
    var some, all := Targets(after - {t.url}, t.url, t.links), Resolved(aliases, t.links);
    forall k | k in FoldedLinks(LinksTo(t.url, some), t.aliases, t.url)
      ensures k in BothLinks(LinksTo(t.url, all), s, t)
    {
      var l :| l in t.links && k == FoldedLink(Link(t.url, Target(after - {t.url}, l)), t.aliases, t.url);
      SecondLink(aliases, after, s, t, l);
      assert Target(aliases, l) in all && Link(t.url, Target(aliases, l)) in LinksTo(t.url, all);
    }
    forall k | k in BothLinks(LinksTo(t.url, all), s, t)
      ensures k in FoldedLinks(LinksTo(t.url, some), t.aliases, t.url)
    {
      var l :| l in t.links && k == BothLink(Link(t.url, Target(aliases, l)), s, t);
      SecondLink(aliases, after, s, t, l);
      assert Target(after - {t.url}, l) in some;
      assert Link(t.url, Target(after - {t.url}, l)) in LinksTo(t.url, some);
    }
  }

  lemma {:induction false} TwoSavesLinks(g: Graph, s: Save, t: Save)
    requires WellFormed(g) && Proper(s) && Proper(t) && Independent(g.aliases, s, t)
    ensures SavePage(SavePage(g, s), t).links == BothLinks(RawLinks(g, s, t), s, t)
  {
    var h := SavePage(g, s);
    SaveKeeps(g, s);
    SaveIsQuotient(g, s);
    SaveIsQuotient(h, t);
    var first := LinksTo(s.url, Targets(g.aliases - {s.url}, s.url, s.links));
    var second := LinksTo(t.url, Targets(h.aliases - {t.url}, t.url, t.links));
    FoldedUnion(h.links, second, t.aliases, t.url);
    FoldedTwice(g.links + first, s, t);
    BothUnion(g.links, first, s, t);
    FirstLinks(g.aliases, s, t);
    SecondLinks(g.aliases, h.aliases, s, t);
    BothUnion(g.links, LinksTo(s.url, Resolved(g.aliases, s.links)), s, t);
    BothUnion(g.links + LinksTo(s.url, Resolved(g.aliases, s.links)), LinksTo(t.url, Resolved(g.aliases, t.links)), s,
      t);
  }

  lemma {:induction false} TwoSavesPages(g: Graph, s: Save, t: Save)
    requires WellFormed(g) && Proper(s) && Proper(t) && Independent(g.aliases, s, t)
    ensures SavePage(SavePage(g, s), t).pages == BothPages(RawPages(g, s, t), s, t)
  {
    var h := SavePage(g, s);
    SaveKeeps(g, s);
    SaveIsQuotient(g, s);
    SaveIsQuotient(h, t);
    PagesOfBoth(g, h.aliases, h.pages, s, t);
  }

  lemma {:induction false} PagesOfBoth(g: Graph, after: map<URL, URL>, pages: set<URL>, s: Save, t: Save)
    requires Proper(s) && Proper(t) && Independent(g.aliases, s, t)
    requires AllRecorded(g.aliases - {s.url}, after, s.aliases, s.url)
    requires pages == FoldedPages(g.pages + {s.url} + Targets(g.aliases - {s.url}, s.url, s.links), s.aliases, s.url)
    ensures FoldedPages(pages + {t.url} + Targets(after - {t.url}, t.url, t.links), t.aliases, t.url)
      == BothPages(RawPages(g, s, t), s, t)
  {
    var all := FoldedPages(pages + {t.url} + Targets(after - {t.url}, t.url, t.links), t.aliases, t.url);
    PagesOfBothIn(g, after, pages, s, t);
    forall u | u in RawPages(g, s, t) ensures Both(u, s, t) in all {
      PageOfBoth(g, after, pages, s, t, u);
    }
  }

  lemma {:induction false} PagesOfBothIn(g: Graph, after: map<URL, URL>, pages: set<URL>, s: Save, t: Save)
    requires Proper(s) && Proper(t) && Independent(g.aliases, s, t)
    requires AllRecorded(g.aliases - {s.url}, after, s.aliases, s.url)
    requires pages == FoldedPages(g.pages + {s.url} + Targets(g.aliases - {s.url}, s.url, s.links), s.aliases, s.url)
    ensures FoldedPages(pages + {t.url} + Targets(after - {t.url}, t.url, t.links), t.aliases, t.url)
      <= BothPages(RawPages(g, s, t), s, t)
  {
    var goal := BothPages(RawPages(g, s, t), s, t);
    var second := Targets(after - {t.url}, t.url, t.links);
    BothEitherWay(t.url, s, t);
    assert Claims(t, t.url);
    forall v | v in pages + {t.url} + second ensures Folded(v, t.aliases, t.url) in goal {
      if v in pages {
        var u :| u in g.pages + {s.url} + Targets(g.aliases - {s.url}, s.url, s.links)
          && v == Folded(u, s.aliases, s.url);
        if u in Targets(g.aliases - {s.url}, s.url, s.links) {
          var l :| l in s.links && u == Target(g.aliases - {s.url}, l);
          ResolveFirst(g.aliases, s, t, l);
          assert Target(g.aliases, l) in RawPages(g, s, t);
        } else {
          assert u in RawPages(g, s, t);
        }
      } else if v == t.url {
        assert t.url in RawPages(g, s, t);
      } else {
        var l :| l in t.links && v == Target(after - {t.url}, l);
        ResolveSecond(g.aliases, after, s, t, l);
        assert Target(g.aliases, l) in RawPages(g, s, t);
      }
    }
  }

  lemma {:induction false} PageOfBoth(g: Graph, after: map<URL, URL>, pages: set<URL>, s: Save, t: Save, u: URL)
    requires Proper(s) && Proper(t) && Independent(g.aliases, s, t) && u in RawPages(g, s, t)
    requires AllRecorded(g.aliases - {s.url}, after, s.aliases, s.url)
    requires pages == FoldedPages(g.pages + {s.url} + Targets(g.aliases - {s.url}, s.url, s.links), s.aliases, s.url)
    ensures Both(u, s, t) in FoldedPages(pages + {t.url} + Targets(after - {t.url}, t.url, t.links), t.aliases, t.url)
  {
    var second := Targets(after - {t.url}, t.url, t.links);
    BothEitherWay(t.url, s, t);
    assert Claims(t, t.url);
    if u in Resolved(g.aliases, s.links) {
      var l :| l in s.links && u == Target(g.aliases, l);
      ResolveFirst(g.aliases, s, t, l);
      var v := Target(g.aliases - {s.url}, l);
      assert v in g.pages + {s.url} + Targets(g.aliases - {s.url}, s.url, s.links);
      assert Folded(v, s.aliases, s.url) in pages;
    } else if u in Resolved(g.aliases, t.links) {
      var l :| l in t.links && u == Target(g.aliases, l);
      ResolveSecond(g.aliases, after, s, t, l);
      assert Target(after - {t.url}, l) in {t.url} + second;
    } else if u == t.url {
      assert Folded(t.url, t.aliases, t.url) == t.url || t.url in t.aliases;
    } else {
      assert Folded(u, s.aliases, s.url) in pages;
    }
  }

  lemma {:induction false} TwoSavesNames(g: Graph, s: Save, t: Save)
    requires WellFormed(g) && Proper(s) && Proper(t) && Independent(g.aliases, s, t)
    ensures var after := SavePage(SavePage(g, s), t).aliases;
      && (forall a :: a in after <==> (a in g.aliases || a in s.aliases || a in t.aliases) && a != s.url && a != t.url)
      && forall a | a in after :: after[a] == Both(Target(g.aliases, a), s, t)
  {
    var h := SavePage(g, s);
    SaveKeeps(g, s);
    SaveIsQuotient(g, s);
    SaveIsQuotient(h, t);
    var after := SavePage(h, t).aliases;
    assert Claims(s, s.url) && Claims(t, t.url);
    assert forall a :: (a in s.aliases ==> Claims(s, a)) && (a in t.aliases ==> Claims(t, a));
    forall a | a in after ensures after[a] == Both(Target(g.aliases, a), s, t) {
      ResolveSecond(g.aliases, h.aliases, s, t, a);
      assert after[a] == Folded(Target(h.aliases - {t.url}, a), t.aliases, t.url);
    }
  }

  lemma {:induction false} BothLinksEitherWay(links: set<Link>, s: Save, t: Save)
    requires Disjoint(s, t)
    ensures BothLinks(links, s, t) == BothLinks(links, t, s)
  {
    forall u: URL ensures Both(u, s, t) == Both(u, t, s) {
      BothEitherWay(u, s, t);
    }
  }

  lemma {:induction false} BothPagesEitherWay(pages: set<URL>, s: Save, t: Save)
    requires Disjoint(s, t)
    ensures BothPages(pages, s, t) == BothPages(pages, t, s)
  {
    forall u: URL ensures Both(u, s, t) == Both(u, t, s) {
      BothEitherWay(u, s, t);
    }
  }

  lemma {:induction false} NamesCommute(g: Graph, s: Save, t: Save)
    requires WellFormed(g) && Proper(s) && Proper(t) && Independent(g.aliases, s, t)
    ensures SavePage(SavePage(g, s), t).aliases == SavePage(SavePage(g, t), s).aliases
  {
    TwoSavesNames(g, s, t);
    TwoSavesNames(g, t, s);
    SameNames(g.aliases, SavePage(SavePage(g, s), t).aliases, SavePage(SavePage(g, t), s).aliases, s, t);
  }

  lemma {:induction false} SameNames(aliases: map<URL, URL>, x: map<URL, URL>, y: map<URL, URL>, s: Save, t: Save)
    requires Disjoint(s, t) && forall a :: a in x <==> a in y
    requires forall a | a in x :: x[a] == Both(Target(aliases, a), s, t)
    requires forall a | a in y :: y[a] == Both(Target(aliases, a), t, s)
    ensures x == y
  {
    forall a | a in x ensures x[a] == y[a] {
      BothEitherWay(Target(aliases, a), s, t);
    }
  }

  /** The order in which pages and their other names are found does not matter. */
  lemma {:induction false} SavesCommute(g: Graph, s: Save, t: Save)
    requires WellFormed(g) && Proper(s) && Proper(t) && Independent(g.aliases, s, t)
    ensures SavePage(SavePage(g, s), t) == SavePage(SavePage(g, t), s)
  {
    assert Independent(g.aliases, t, s);
    TwoSavesLinks(g, s, t);
    TwoSavesLinks(g, t, s);
    TwoSavesPages(g, s, t);
    TwoSavesPages(g, t, s);
    NamesCommute(g, s, t);
    RawEitherWay(g, s, t);
    BothLinksEitherWay(RawLinks(g, s, t), s, t);
    BothPagesEitherWay(RawPages(g, s, t), s, t);
  }

  lemma {:induction false} RawEitherWay(g: Graph, s: Save, t: Save)
    ensures RawLinks(g, s, t) == RawLinks(g, t, s) && RawPages(g, s, t) == RawPages(g, t, s)
  {
  }

  // ---- Saves that do not commute -----------------------------------------------------------

  lemma {:induction false} SaveNames(g: Graph, s: Save)
    requires WellFormed(g) && Proper(s)
    ensures forall a | a in s.aliases :: a in SavePage(g, s).aliases && SavePage(g, s).aliases[a] == s.url
  {
    SaveIsQuotient(g, s);
  }

  /** Two saves that claim the same name, or one of which claims the other's page, leave different
      graphs in the two orders: the later one wins. */
  lemma {:induction false} CollidingClaims(g: Graph, s: Save, t: Save, a: URL)
    requires WellFormed(g) && Proper(s) && Proper(t) && s.url != t.url
    requires a in s.aliases && (a in t.aliases || a == t.url)
    ensures SavePage(SavePage(g, s), t) != SavePage(SavePage(g, t), s)
  {
    SaveKeeps(g, s);
    SaveKeeps(g, t);
    SaveKeeps(SavePage(g, s), t);
    SaveKeeps(SavePage(g, t), s);
    SaveNames(SavePage(g, s), t);
    SaveNames(SavePage(g, t), s);
  }

  /** Link `u` of page t, after save s claimed `u`, goes to the page of s. */
  lemma {:induction false} LinkAfterClaim(g: Graph, s: Save, t: Save, u: URL)
    requires WellFormed(g) && Proper(s) && Proper(t) && Disjoint(s, t) && Claims(s, u) && u in t.links
    ensures Link(t.url, s.url) in SavePage(SavePage(g, s), t).links
  {
    var h := SavePage(g, s);
    SaveKeeps(g, s);
    SaveIsQuotient(g, s);
    SaveIsQuotient(h, t);
    assert Claims(s, s.url) && Claims(t, t.url) && Target(h.aliases - {t.url}, u) == s.url;
    assert s.url in Targets(h.aliases - {t.url}, t.url, t.links);
    var k := Link(t.url, s.url);
    assert k in h.links + LinksTo(t.url, Targets(h.aliases - {t.url}, t.url, t.links));
    assert k == FoldedLink(k, t.aliases, t.url);
  }

  /** Nothing that t links to, and no link of its pages so far, goes to what s claims. */
  ghost predicate NoOtherLink(g: Graph, s: Save, t: Save) {
    && (forall l | l in g.links && Claims(t, l.from) :: !Claims(s, l.to))
    && forall l | l in t.links :: !Claims(s, Target(g.aliases, l))
  }

  /** A link to a page that s claims comes from where t left it. */
  lemma {:induction false} LinkCameFrom(h: Graph, s: Save, q: URL)
    requires WellFormed(h) && Proper(s) && !Claims(s, q) && Link(q, s.url) in SavePage(h, s).links
    ensures exists u :: Claims(s, u) && Link(q, u) in h.links
  {
    SaveIsQuotient(h, s);
    var l :| l in h.links + LinksTo(s.url, Targets(h.aliases - {s.url}, s.url, s.links))
      && Link(q, s.url) == FoldedLink(l, s.aliases, s.url);
    assert l == Link(q, l.to) && Claims(s, l.to) && l in h.links;
  }

  lemma {:induction false} NoLinkToClaimed(g: Graph, s: Save, t: Save, u: URL)
    requires WellFormed(g) && Proper(t) && Disjoint(s, t) && NoOtherLink(g, s, t) && Claims(s, u)
    ensures Link(t.url, u) !in SavePage(g, t).links
  {
    SaveIsQuotient(g, t);
    assert Claims(t, t.url);
    forall x | x in Targets(g.aliases - {t.url}, t.url, t.links) ensures !Claims(s, x) {
      var l :| l in t.links && x == Target(g.aliases - {t.url}, l) && x != t.url;
      assert !Claims(s, Target(g.aliases, l));
    }
    if Link(t.url, u) in SavePage(g, t).links {
      var j :| j in g.links + LinksTo(t.url, Targets(g.aliases - {t.url}, t.url, t.links))
        && Link(t.url, u) == FoldedLink(j, t.aliases, t.url);
      assert Claims(t, j.from) && j.to == u;
    }
  }

  /** In the other order the link went elsewhere, and stays there. */
  lemma {:induction false} LinkBeforeClaim(g: Graph, s: Save, t: Save)
    requires WellFormed(g) && Proper(s) && Proper(t) && Disjoint(s, t) && NoOtherLink(g, s, t)
    ensures Link(t.url, s.url) !in SavePage(SavePage(g, t), s).links
  {
    SaveKeeps(g, t);
    assert Claims(t, t.url) && !Claims(s, t.url);
    if Link(t.url, s.url) in SavePage(SavePage(g, t), s).links {
      LinkCameFrom(SavePage(g, t), s, t.url);
      var u :| Claims(s, u) && Link(t.url, u) in SavePage(g, t).links;
      NoLinkToClaimed(g, s, t, u);
    }
  }

  /** A save that takes over part of another page's names does not commute with the save of a page
      that links to such a name, unless that one links to the first page in another way as well. */
  lemma {:induction false} TakenOverName(g: Graph, s: Save, t: Save, u: URL)
    requires WellFormed(g) && Proper(s) && Proper(t) && Disjoint(s, t)
    requires Claims(s, u) && u in g.aliases && !Claims(s, g.aliases[u]) && u in t.links && NoOtherLink(g, s, t)
    ensures SavePage(SavePage(g, s), t) != SavePage(SavePage(g, t), s)
  {
    LinkAfterClaim(g, s, t, u);
    LinkBeforeClaim(g, s, t);
  }

  ghost predicate Commute(g: Graph, s: Save, t: Save) {
    SavePage(SavePage(g, s), t) == SavePage(SavePage(g, t), s)
  }

  /** Two pages with these other names may be saved in either order, whatever links there are. */
  ghost predicate AnyOrder(pages: set<URL>, aliases: map<URL, URL>, p: URL, ps: seq<URL>, q: URL, qs: seq<URL>) {
    forall links: set<Link>, pLinks: seq<URL>, qLinks: seq<URL> | WellFormed(Graph(pages, links, aliases)) ::
      Commute(Graph(pages, links, aliases), Save(p, pLinks, ps), Save(q, qLinks, qs))
  }

  lemma {:induction false} PartTakenOver(pages: set<URL>, aliases: map<URL, URL>, p: URL, ps: seq<URL>, q: URL,
      qs: seq<URL>, u: URL)
    requires AliasesOk(Graph(pages, {}, aliases)) && p !in ps && q !in qs
    requires Disjoint(Save(p, [], ps), Save(q, [u], qs))
    requires Claims(Save(p, [], ps), u) && u in aliases && !Claims(Save(p, [], ps), aliases[u])
    ensures !AnyOrder(pages, aliases, p, ps, q, qs) && !AnyOrder(pages, aliases, q, qs, p, ps)
  {
    var g, s, t := Graph(pages, {}, aliases), Save(p, [], ps), Save(q, [u], qs);
    TakenOverName(g, s, t, u);
    assert !Commute(g, s, t) && !Commute(g, t, s);
  }

  /** The exact condition, on names alone: the saves of two pages may change places, whatever they
      link to and whatever links there are, if and only if they claim nothing of each other's and
      neither takes over another name without the page it is a name of. */
  lemma {:induction false} AnyOrderIff(pages: set<URL>, aliases: map<URL, URL>, p: URL, ps: seq<URL>, q: URL,
      qs: seq<URL>)
    requires AliasesOk(Graph(pages, {}, aliases)) && p !in ps && q !in qs && p != q
    ensures AnyOrder(pages, aliases, p, ps, q, qs) <==> Independent(aliases, Save(p, [], ps), Save(q, [], qs))
  {
    var g, s, t := Graph(pages, {}, aliases), Save(p, [], ps), Save(q, [], qs);
    if !Disjoint(s, t) {
      var u :| Claims(s, u) && Claims(t, u);
      if u in ps {
        CollidingClaims(g, s, t, u);
      } else {
        CollidingClaims(g, t, s, u);
      }
      assert !Commute(g, s, t);
    } else if !TakesWhole(aliases, s) {
      var u :| Claims(s, u) && u in aliases && !Claims(s, aliases[u]);
      assert Disjoint(s, Save(q, [u], qs));
      PartTakenOver(pages, aliases, p, ps, q, qs, u);
    } else if !TakesWhole(aliases, t) {
      var u :| Claims(t, u) && u in aliases && !Claims(t, aliases[u]);
      assert Disjoint(t, Save(p, [u], ps));
      PartTakenOver(pages, aliases, q, qs, p, ps, u);
    } else {
      forall links: set<Link>, pLinks: seq<URL>, qLinks: seq<URL> | WellFormed(Graph(pages, links, aliases))
        ensures Commute(Graph(pages, links, aliases), Save(p, pLinks, ps), Save(q, qLinks, qs))
      {
        assert forall u :: Claims(Save(p, pLinks, ps), u) == Claims(s, u);
        assert forall u :: Claims(Save(q, qLinks, qs), u) == Claims(t, u);
        SavesCommute(Graph(pages, links, aliases), Save(p, pLinks, ps), Save(q, qLinks, qs));
      }
    }
  }

  // ---- Which page a fetch returned ---------------------------------------------------------

  datatype Identity = Identity(page: URL, alias: URL)

  /** The URL asked for, in canonical form if it has one. `canonical` gives "" for what has none. */
  function Asked(canonical: URL -> URL, requested: URL): URL {
    if canonical(requested) != "" then canonical(requested) else requested
  }

  /** `server` is the URL the server says the page lives at. */
  function PageIdentity(canonical: URL -> URL, requested: URL, server: URL): (r: Identity)
    ensures r.page == if canonical(server) != "" then canonical(server) else Asked(canonical, requested)
    ensures r.page == Asked(canonical, requested) ==> r.alias == ""
    ensures r.page != Asked(canonical, requested) ==> r.alias == Asked(canonical, requested)
  {
    var asked := Asked(canonical, requested);
    var identity := canonical(server);
    if identity == "" || identity == asked then Identity(asked, "") else Identity(identity, asked)
  }

  /** A crawled page is saved with at most its one alias. */
  function CrawledPage(id: Identity, links: seq<URL>): (s: Save)
    requires id.alias != "" ==> id.alias != id.page
    ensures Proper(s)
  {
    Save(id.page, links, if id.alias == "" then [] else [id.alias])
  }

  /** Once a crawled page is saved, links to the URL that was asked for go to it. */
  lemma {:induction false} AskedLeadsToPage(g: Graph, canonical: URL -> URL, requested: URL, server: URL,
      links: seq<URL>)
    requires WellFormed(g) && Asked(canonical, requested) != ""
    ensures var id := PageIdentity(canonical, requested, server);
      var h := SavePage(g, CrawledPage(id, links));
      id.page in h.pages && Target(h.aliases, Asked(canonical, requested)) == id.page
  {
    var id := PageIdentity(canonical, requested, server);
    var s := CrawledPage(id, links);
    SaveKeeps(g, s);
    SaveNames(g, s);
    assert id.alias != "" ==> id.alias in s.aliases;
  }
}
