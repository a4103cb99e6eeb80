/** What one save makes of the graph, link by link, page by page and name by name, said without the
    queries. */
module GraphLaws {
  import opened Links
  import opened PageGraph

  /** Where a link on the saved page goes: to the page it is another name of, or to itself. */
  function GoesTo(g: Graph, s: Save, link: URL): URL {
    if link != s.url && link in g.aliases then g.aliases[link] else link
  }

  /** The page that u is, once the other names of the saved page are known. */
  function IsNow(s: Save, u: URL): URL {
    if u in s.aliases then s.url else u
  }

  /** A link known before, or on the saved page. */
  ghost predicate Known(g: Graph, s: Save, from: URL, to: URL) {
    Link(from, to) in g.links || (from == s.url && exists link | link in s.links :: GoesTo(g, s, link) == to)
  }

  lemma {:induction false} TargetsAre(g: Graph, s: Save, t: URL)
    ensures t in Targets(g.aliases - {s.url}, s.url, s.links)
      <==> t != s.url && exists link | link in s.links :: GoesTo(g, s, link) == t
  {
    forall link ensures Target(g.aliases - {s.url}, link) == GoesTo(g, s, link) {
    }
  }

  /** Two pages are linked after a save if and only if they are different and what is one of them now
      was linked to what is the other now, or is so on the saved page: no link is lost or made up. */
  lemma {:induction false} LinkedAfterIff(g: Graph, s: Save, from: URL, to: URL)
    requires WellFormed(g) && Proper(s)
    ensures Link(from, to) in SavePage(g, s).links
      <==> from != to && exists x, y :: Known(g, s, x, y) && IsNow(s, x) == from && IsNow(s, y) == to
  {
    SaveIsQuotient(g, s);
    var targets := Targets(g.aliases - {s.url}, s.url, s.links);
    var before := g.links + LinksTo(s.url, targets);
    if Link(from, to) in SavePage(g, s).links {
      var l :| l in before && !IsLoop(Links.FoldedLink(l, s.aliases, s.url))
        && Links.FoldedLink(l, s.aliases, s.url) == Link(from, to);
      TargetsAre(g, s, l.to);
      assert Known(g, s, l.from, l.to);
    }
    if from != to && exists x, y :: Known(g, s, x, y) && IsNow(s, x) == from && IsNow(s, y) == to {
      var x, y :| Known(g, s, x, y) && IsNow(s, x) == from && IsNow(s, y) == to;
      TargetsAre(g, s, y);
      assert x != y && Link(x, y) in before && Links.FoldedLink(Link(x, y), s.aliases, s.url) == Link(from, to);
    }
  }

  /** The pages are those there were, the saved one and those it links to, without its other names. */
  lemma {:induction false} PageAfterIff(g: Graph, s: Save, u: URL)
    requires WellFormed(g) && Proper(s)
    ensures u in SavePage(g, s).pages <==>
      (u !in s.aliases && (u == s.url || u in g.pages || exists link | link in s.links :: GoesTo(g, s, link) == u))
  {
    SaveIsQuotient(g, s);
    TargetsAre(g, s, u);
    var before := g.pages + {s.url} + Targets(g.aliases - {s.url}, s.url, s.links);
    if u in before && u !in s.aliases {
      assert Folded(u, s.aliases, s.url) == u;
    }
    if u in SavePage(g, s).pages {
      var p :| p in before && Folded(p, s.aliases, s.url) == u;
    }
  }

  /** Other names are those there were, unless saved as a page now, and those the save brings; the
      latter, and whatever stood for one of them, stand for the saved page. */
  lemma {:induction false} NameAfterIff(g: Graph, s: Save, a: URL)
    requires WellFormed(g) && Proper(s)
    ensures var names := SavePage(g, s).aliases;
      && (a in names <==> a in s.aliases || (a != s.url && a in g.aliases))
      && (a in names ==> names[a] == if a in s.aliases then s.url else IsNow(s, g.aliases[a]))
  {
    SaveIsQuotient(g, s);
  }

  // ---- Crawls ------------------------------------------------------------------------------

  /** The crawl kept for a page is its own or that of one of its other names, none of them is later,
      and its own is kept if it is as late as any; the others are gone. */
  lemma {:induction false} KeptCrawlIs(crawls: map<URL, Crawl>, aliases: seq<URL>, url: URL)
    requires url !in aliases && url in crawls
    ensures var after := FoldAllCrawls(crawls, aliases, url);
      && url in after && (forall a | a in aliases :: a !in after)
      && (exists u | u in crawls :: (u == url || u in aliases) && after[url] == crawls[u])
      && (forall u | u in crawls && (u == url || u in aliases) :: crawls[u].at <= after[url].at)
      && (after[url].at == crawls[url].at ==> after[url] == crawls[url])
  {
    if aliases != [] {
      var n := |aliases| - 1;
      KeptCrawlIs(crawls, aliases[..n], url);
      assert forall a :: a in aliases <==> a in aliases[..n] || a == aliases[n];
      if aliases[n] !in aliases[..n] {
        OthersKeepTheirs(crawls, aliases[..n], url, aliases[n]);
      }
    }
  }

  lemma {:induction false} OthersKeepTheirs(crawls: map<URL, Crawl>, aliases: seq<URL>, url: URL, u: URL)
    requires u != url && u !in aliases
    ensures CrawlAt(FoldAllCrawls(crawls, aliases, url), u) == CrawlAt(crawls, u)
  {
    if aliases != [] {
      OthersKeepTheirs(crawls, aliases[..|aliases| - 1], url, u);
    }
  }
}
