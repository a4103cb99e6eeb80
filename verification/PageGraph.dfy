/** The stored link graph: page nodes with identities, edges between nodes, and alias nodes; and
    the queries that save a page. */
module PageGraph {
  import opened Links

  /** What the last crawl of a page left on its node. */
  datatype Crawl = Crawl(at: int, status: int, title: string, links: seq<URL>)

  datatype Option<T> = None | Some(value: T)

  datatype Node = Node(url: URL, crawl: Option<Crawl>)

  datatype Edge = Edge(from: nat, to: nat)

  // ---- What the nodes and edges stand for --------------------------------------------------

  ghost predicate OneNodePerURL(nodes: map<nat, Node>) {
    forall m, n | m in nodes && n in nodes && nodes[m].url == nodes[n].url :: m == n
  }

  ghost predicate EdgesIn(nodes: map<nat, Node>, edges: set<Edge>) {
    forall e | e in edges :: e.from in nodes && e.to in nodes
  }

  function Pages(nodes: map<nat, Node>): set<URL> {
    set n | n in nodes :: nodes[n].url
  }

  function LinkOf(nodes: map<nat, Node>, e: Edge): Link
    requires e.from in nodes && e.to in nodes
  {
    Link(nodes[e.from].url, nodes[e.to].url)
  }

  function LinksOf(nodes: map<nat, Node>, edges: set<Edge>): set<Link> {
    set e | e in edges && e.from in nodes && e.to in nodes :: LinkOf(nodes, e)
  }

  function CrawlAt(crawls: map<URL, Crawl>, url: URL): Option<Crawl> {
    if url in crawls then Some(crawls[url]) else None
  }

  /** The crawls recorded on nodes, by URL. */
  ghost predicate CrawlsAre(nodes: map<nat, Node>, crawls: map<URL, Crawl>) {
    && crawls.Keys <= Pages(nodes)
    && forall n | n in nodes :: nodes[n].crawl == CrawlAt(crawls, nodes[n].url)
  }

  ghost predicate Represents(nodes: map<nat, Node>, edges: set<Edge>, pages: set<URL>, links: set<Link>) {
    OneNodePerURL(nodes) && EdgesIn(nodes, edges) && pages == Pages(nodes) && links == LinksOf(nodes, edges)
  }

  lemma {:induction false} PageAdded(nodes: map<nat, Node>, edges: set<Edge>, pages: set<URL>, links: set<Link>,
      id: nat, url: URL)
    requires Represents(nodes, edges, pages, links) && id !in nodes && url !in pages
    ensures Represents(nodes[id := Node(url, None)], edges, pages + {url}, links)
  {
    var after := nodes[id := Node(url, None)];
    forall n | n in nodes ensures after[n] == nodes[n] && after[n].url in pages {
    }
    assert Pages(after) == pages + {url} by {
      assert after[id].url == url;
    }
    assert LinksOf(after, edges) == links;
  }

  lemma {:induction false} EdgeAdded(nodes: map<nat, Node>, edges: set<Edge>, pages: set<URL>, links: set<Link>,
      e: Edge)
    requires Represents(nodes, edges, pages, links) && e.from in nodes && e.to in nodes
    ensures Represents(nodes, edges + {e}, pages, links + {LinkOf(nodes, e)})
  {
  }

  lemma {:induction false} NodeChanged(nodes: map<nat, Node>, edges: set<Edge>, pages: set<URL>, links: set<Link>,
      id: nat, crawl: Option<Crawl>)
    requires Represents(nodes, edges, pages, links) && id in nodes
    ensures Represents(nodes[id := nodes[id].(crawl := crawl)], edges, pages, links)
  {
    var after := nodes[id := nodes[id].(crawl := crawl)];
    assert forall n | n in nodes :: after[n].url == nodes[n].url;
    assert forall n | n in nodes :: n in after;
    assert Pages(after) == pages;
    assert forall e | e in edges :: LinkOf(after, e) == LinkOf(nodes, e);
    assert LinksOf(after, edges) == links;
  }

  // ---- Folding one node into another -------------------------------------------------------

  function Touching(edges: set<Edge>, id: nat): set<Edge> {
    set e | e in edges && (e.from == id || e.to == id)
  }

  function MovedIn(edges: set<Edge>, gone: nat, keep: nat): set<Edge> {
    set e | e in edges && e.to == gone && e.from != keep && e.from != gone :: Edge(e.from, keep)
  }

  function MovedOut(edges: set<Edge>, gone: nat, keep: nat): set<Edge> {
    set e | e in edges && e.from == gone && e.to != keep && e.to != gone :: Edge(keep, e.to)
  }

  function FoldEdges(edges: set<Edge>, gone: nat, keep: nat): set<Edge> {
    (edges - Touching(edges, gone)) + MovedIn(edges, gone, keep) + MovedOut(edges, gone, keep)
  }

  lemma {:induction false} FoldedEdgesIn(nodes: map<nat, Node>, edges: set<Edge>, gone: nat, keep: nat)
    requires OneNodePerURL(nodes) && EdgesIn(nodes, edges) && gone in nodes && keep in nodes && gone != keep
    ensures EdgesIn(nodes - {gone}, FoldEdges(edges, gone, keep))
    ensures LinksOf(nodes - {gone}, FoldEdges(edges, gone, keep))
      <= FoldLinks(LinksOf(nodes, edges), nodes[gone].url, nodes[keep].url)
  {
    var alias, url := nodes[gone].url, nodes[keep].url;
    var before := LinksOf(nodes, edges);
    forall e | e in FoldEdges(edges, gone, keep)
      ensures e.from in nodes - {gone} && e.to in nodes - {gone}
      ensures LinkOf(nodes, e) in FoldLinks(before, alias, url)
    {
      FoldedEdge(nodes, edges, gone, keep, e);
    }
  }

  lemma {:induction false} FoldedEdge(nodes: map<nat, Node>, edges: set<Edge>, gone: nat, keep: nat, e: Edge)
    requires OneNodePerURL(nodes) && EdgesIn(nodes, edges) && gone in nodes && keep in nodes && gone != keep
    requires e in FoldEdges(edges, gone, keep)
    ensures e.from in nodes && e.from != gone && e.to in nodes && e.to != gone
    ensures LinkOf(nodes, e) in FoldLinks(LinksOf(nodes, edges), nodes[gone].url, nodes[keep].url)
  {
    if e in edges && e !in Touching(edges, gone) {
      assert LinkOf(nodes, e) in LinksOf(nodes, edges);
    } else if e in MovedIn(edges, gone, keep) {
      assert LinkOf(nodes, Edge(e.from, gone)) in LinksOf(nodes, edges);
    } else {
      assert LinkOf(nodes, Edge(gone, e.to)) in LinksOf(nodes, edges);
    }
  }

  lemma {:induction false} FoldedLink(nodes: map<nat, Node>, edges: set<Edge>, gone: nat, keep: nat, l: Link)
    requires OneNodePerURL(nodes) && EdgesIn(nodes, edges) && gone in nodes && keep in nodes && gone != keep
    requires l in FoldLinks(LinksOf(nodes, edges), nodes[gone].url, nodes[keep].url)
    ensures exists e | e in FoldEdges(edges, gone, keep) :: e.from in nodes && e.to in nodes && l == LinkOf(nodes, e)
  {
    var alias, url := nodes[gone].url, nodes[keep].url;
    var before := LinksOf(nodes, edges);
    if l in before && l.from != alias && l.to != alias {
      var e :| e in edges && l == LinkOf(nodes, e);
      assert e in FoldEdges(edges, gone, keep);
    } else if Link(l.from, alias) in before && l.to == url && l.from != url && l.from != alias {
      var e :| e in edges && Link(l.from, alias) == LinkOf(nodes, e);
      assert e.to == gone;
      assert Edge(e.from, keep) in MovedIn(edges, gone, keep);
    } else {
      assert Link(alias, l.to) in before && l.from == url && l.to != url && l.to != alias;
      var e :| e in edges && Link(alias, l.to) == LinkOf(nodes, e);
      assert e.from == gone;
      assert Edge(keep, e.to) in MovedOut(edges, gone, keep);
    }
  }

  lemma {:induction false} NodeFolded(nodes: map<nat, Node>, edges: set<Edge>, pages: set<URL>, links: set<Link>,
      gone: nat, keep: nat)
    requires Represents(nodes, edges, pages, links) && gone in nodes && keep in nodes && gone != keep
    ensures Represents(nodes - {gone}, FoldEdges(edges, gone, keep), pages - {nodes[gone].url},
      FoldLinks(links, nodes[gone].url, nodes[keep].url))
  {
    var after, moved := nodes - {gone}, FoldEdges(edges, gone, keep);
    FoldedEdgesIn(nodes, edges, gone, keep);
    forall l | l in FoldLinks(links, nodes[gone].url, nodes[keep].url) ensures l in LinksOf(after, moved) {
      FoldedLink(nodes, edges, gone, keep, l);
      var e :| e in moved && e.from in nodes && e.to in nodes && l == LinkOf(nodes, e);
      FoldedEdge(nodes, edges, gone, keep, e);
      assert l == LinkOf(after, e);
    }
    NodeRemoved(nodes, gone);
  }

  lemma {:induction false} NodeRemoved(nodes: map<nat, Node>, gone: nat)
    requires OneNodePerURL(nodes) && gone in nodes
    ensures OneNodePerURL(nodes - {gone}) && Pages(nodes - {gone}) == Pages(nodes) - {nodes[gone].url}
  {
    var after := nodes - {gone};
    forall u | u in Pages(nodes) && u != nodes[gone].url ensures u in Pages(after) {
      var n :| n in nodes && nodes[n].url == u;
      assert n in after && after[n].url == u;
    }
  }

  // ---- The latest crawl of a page ----------------------------------------------------------

  /** The page keeps its own crawl unless the other is strictly later. */
  function Newer(own: Option<Crawl>, other: Option<Crawl>): Option<Crawl> {
    if other.Some? && (own.None? || other.value.at > own.value.at) then other else own
  }

  function FoldCrawls(crawls: map<URL, Crawl>, alias: URL, url: URL): map<URL, Crawl> {
    var kept := Newer(CrawlAt(crawls, url), CrawlAt(crawls, alias));
    (if kept.Some? then crawls[url := kept.value] else crawls) - {alias}
  }

  function FoldAllCrawls(crawls: map<URL, Crawl>, aliases: seq<URL>, url: URL): map<URL, Crawl> {
    if aliases == [] then crawls
    else FoldCrawls(FoldAllCrawls(crawls, aliases[..|aliases| - 1], url), aliases[|aliases| - 1], url)
  }

  /** No later crawl, of the page or of what turned out to be the same page, is lost; other pages
      keep theirs. */
  lemma {:induction false} LatestCrawlSurvives(crawls: map<URL, Crawl>, aliases: seq<URL>, url: URL, u: URL)
    requires url !in aliases && u in crawls
    ensures var after := FoldAllCrawls(crawls, aliases, url);
      if u == url || u in aliases then url in after && after[url].at >= crawls[u].at
      else u in after && after[u] == crawls[u]
  {
    if aliases != [] {
      var n := |aliases| - 1;
      assert u in aliases <==> u in aliases[..n] || u == aliases[n];
      LatestCrawlSurvives(crawls, aliases[..n], url, u);
    }
  }

  /** Node `keep` with the newer of the two crawls, node `gone` deleted. */
  function FoldNodes(nodes: map<nat, Node>, gone: nat, keep: nat): map<nat, Node>
    requires gone in nodes && keep in nodes
  {
    nodes[keep := nodes[keep].(crawl := Newer(nodes[keep].crawl, nodes[gone].crawl))] - {gone}
  }

  lemma {:induction false} AllFolded(nodes: map<nat, Node>, edges: set<Edge>, pages: set<URL>, links: set<Link>,
      crawls: map<URL, Crawl>, gone: nat, keep: nat)
    requires Represents(nodes, edges, pages, links) && CrawlsAre(nodes, crawls)
    requires gone in nodes && keep in nodes && gone != keep
    ensures Represents(FoldNodes(nodes, gone, keep), FoldEdges(edges, gone, keep),
      pages - {nodes[gone].url} + {nodes[keep].url}, FoldLinks(links, nodes[gone].url, nodes[keep].url))
    ensures CrawlsAre(FoldNodes(nodes, gone, keep), FoldCrawls(crawls, nodes[gone].url, nodes[keep].url))
  {
    CrawlsFolded(nodes, crawls, gone, keep);
    var kept := Newer(nodes[keep].crawl, nodes[gone].crawl);
    NodeChanged(nodes, edges, pages, links, keep, kept);
    NodeFolded(nodes[keep := nodes[keep].(crawl := kept)], edges, pages, links, gone, keep);
    assert nodes[keep].url in pages && nodes[keep].url != nodes[gone].url;
    assert pages - {nodes[gone].url} + {nodes[keep].url} == pages - {nodes[gone].url};
  }

  lemma {:induction false} CrawlsFolded(nodes: map<nat, Node>, crawls: map<URL, Crawl>, gone: nat, keep: nat)
    requires OneNodePerURL(nodes) && CrawlsAre(nodes, crawls) && gone in nodes && keep in nodes && gone != keep
    ensures CrawlsAre(FoldNodes(nodes, gone, keep), FoldCrawls(crawls, nodes[gone].url, nodes[keep].url))
  {
    var after := FoldNodes(nodes, gone, keep);
    var crawls' := FoldCrawls(crawls, nodes[gone].url, nodes[keep].url);
    forall n | n in after ensures after[n].crawl == CrawlAt(crawls', after[n].url) {
      assert nodes[n].crawl == CrawlAt(crawls, nodes[n].url);
    }
    forall u | u in crawls' ensures u in Pages(after) {
      if u == nodes[keep].url {
        assert after[keep].url == u;
      } else {
        var n :| n in nodes && nodes[n].url == u;
        assert n in after && after[n].url == u;
      }
    }
  }

  lemma {:induction false} NothingFolded(crawls: map<URL, Crawl>, alias: URL, url: URL)
    requires alias !in crawls
    ensures FoldCrawls(crawls, alias, url) == crawls
  {
  }

  lemma {:induction false} CrawlSet(nodes: map<nat, Node>, crawls: map<URL, Crawl>, id: nat, crawl: Crawl)
    requires OneNodePerURL(nodes) && CrawlsAre(nodes, crawls) && id in nodes
    ensures CrawlsAre(nodes[id := nodes[id].(crawl := Some(crawl))], crawls[nodes[id].url := crawl])
  {
    var after := nodes[id := nodes[id].(crawl := Some(crawl))];
    assert after[id].url in Pages(after);
    forall u | u in crawls ensures u in Pages(after) {
      var n :| n in nodes && nodes[n].url == u;
      assert n in after && after[n].url == u;
    }
  }

  lemma {:induction false} CrawlsWithPage(nodes: map<nat, Node>, crawls: map<URL, Crawl>, id: nat, url: URL)
    requires CrawlsAre(nodes, crawls) && id !in nodes && url !in Pages(nodes)
    ensures CrawlsAre(nodes[id := Node(url, None)], crawls)
  {
    var after := nodes[id := Node(url, None)];
    forall u | u in crawls ensures u in Pages(after) {
      var n :| n in nodes && nodes[n].url == u;
      assert n in after && after[n].url == u;
    }
  }

  lemma {:induction false} OneMoreTarget(g: Graph, url: URL, links: seq<URL>, i: nat)
    requires i < |links|
    ensures var t := Target(g.aliases, links[i]);
      Targets(g.aliases, url, links[..i + 1]) == Targets(g.aliases, url, links[..i]) + if t != url then {t} else {}
  {
    assert links[..i + 1] == links[..i] + [links[i]];
  }

  lemma {:induction false} UpsertOneMore(g: Graph, url: URL, links: seq<URL>, i: nat)
    requires i < |links|
    ensures var t := Target(g.aliases, links[i]);
      var before := Upsert(g, url, links[..i]);
      Upsert(g, url, links[..i + 1])
        == if t == url then before
           else before.(pages := before.pages + {t}, links := before.links + {Link(url, t)})
  {
    OneMoreTarget(g, url, links, i);
    var t := Target(g.aliases, links[i]);
    var targets := Targets(g.aliases, url, links[..i]);
    assert LinksTo(url, targets + {t}) == LinksTo(url, targets) + {Link(url, t)};
  }

  /** The graph database: what its transactions read and write. */
  class PageStore {
    var nodes: map<nat, Node>
    var edges: set<Edge>
    var aliases: map<URL, URL>
    var nextNode: nat
    ghost var graph: Graph
    ghost var crawls: map<URL, Crawl>

    ghost predicate Valid()
      reads this
    {
      && graph.aliases == aliases && Represents(nodes, edges, graph.pages, graph.links)
      && CrawlsAre(nodes, crawls)
      && forall n | n in nodes :: n < nextNode
    }

    constructor ()
      ensures Valid() && graph == Graph({}, {}, map[]) && crawls == map[]
    {
      nodes, edges, aliases, nextNode := map[], {}, map[], 0;
      graph, crawls := Graph({}, {}, map[]), map[];
    }

    method DropAliasOfPage(url: URL)
      requires Valid()
      modifies `aliases, `graph
      ensures Valid() && graph == DropAlias(old(graph), url)
    {
      aliases := aliases - {url};
      graph := DropAlias(graph, url);
    }

    /** The node of a page, made if there is none. */
    method MergePage(url: URL) returns (id: nat)
      requires Valid()
      modifies `nodes, `nextNode, `graph
      ensures Valid() && graph == old(graph).(pages := old(graph).pages + {url})
      ensures id in nodes && nodes[id].url == url
      ensures forall n | n in old(nodes) :: n in nodes && nodes[n] == old(nodes[n])
    {
      if n: nat :| n in nodes && nodes[n].url == url {
        id := n;
        assert graph.pages == graph.pages + {url};
      } else {
        id := nextNode;
        PageAdded(nodes, edges, graph.pages, graph.links, id, url);
        CrawlsWithPage(nodes, crawls, id, url);
        nodes := nodes[id := Node(url, None)];
        nextNode := nextNode + 1;
        graph := graph.(pages := graph.pages + {url});
      }
    }

    method LinkTo(id: nat, target: URL)
      requires Valid() && id in nodes
      modifies `nodes, `nextNode, `graph, `edges
      ensures Valid() && forall n | n in old(nodes) :: n in nodes && nodes[n] == old(nodes[n])
      ensures graph == old(graph).(pages := old(graph).pages + {target},
        links := old(graph).links + {Link(old(nodes[id].url), target)})
    {
      var to := MergePage(target);
      EdgeAdded(nodes, edges, graph.pages, graph.links, Edge(id, to));
      edges := edges + {Edge(id, to)};
      graph := graph.(links := graph.links + {Link(nodes[id].url, target)});
    }

    method UpsertPage(url: URL, crawl: Crawl)
      requires Valid()
      modifies this
      ensures Valid() && graph == Upsert(old(graph), url, crawl.links)
      ensures crawls == old(crawls)[url := crawl]
    {
      ghost var g := graph;
      var id := MergePage(url);
      NodeChanged(nodes, edges, graph.pages, graph.links, id, Some(crawl));
      CrawlSet(nodes, crawls, id, crawl);
      nodes := nodes[id := nodes[id].(crawl := Some(crawl))];
      crawls := crawls[url := crawl];
      for i := 0 to |crawl.links|
        invariant Valid() && graph == Upsert(g, url, crawl.links[..i])
        invariant crawls == old(crawls)[url := crawl]
        invariant id in nodes && nodes[id].url == url
      {
        UpsertOneMore(g, url, crawl.links, i);
        var target := Target(aliases, crawl.links[i]);
        if target != url {
          LinkTo(id, target);
        }
      }
      assert crawl.links[..|crawl.links|] == crawl.links;
    }

    /** Folds the page `alias`, if there is one, into the page `url`. */
    method MergeAliasNode(alias: URL, url: URL)
      requires Valid() && alias != url
      modifies this
      ensures Valid() && graph == FoldPage(old(graph), alias, url)
      ensures crawls == FoldCrawls(old(crawls), alias, url)
    {
      if gone: nat :| gone in nodes && nodes[gone].url == alias {
        assert alias in old(graph).pages;
        var keep := MergePage(url);
        assert old(graph).pages + {url} - {alias} + {url} == old(graph).pages - {alias} + {url};
        AllFolded(nodes, edges, graph.pages, graph.links, crawls, gone, keep);
        nodes := FoldNodes(nodes, gone, keep);
        edges := FoldEdges(edges, gone, keep);
        graph := FoldPage(old(graph), alias, url);
        crawls := FoldCrawls(crawls, alias, url);
      } else {
        NothingFolded(crawls, alias, url);
      }
    }

    method RecordAliasOf(alias: URL, url: URL)
      requires Valid()
      modifies `aliases, `graph
      ensures Valid() && graph == old(graph).(aliases := RecordAlias(old(graph).aliases, alias, url))
    {
      aliases := aliases[alias := url];
      aliases := map a | a in aliases :: if aliases[a] == alias then url else aliases[a];
      graph := graph.(aliases := RecordAlias(graph.aliases, alias, url));
    }

    method FoldAlias(alias: URL, url: URL)
      requires Valid() && alias != url
      modifies this
      ensures Valid() && graph == Fold(old(graph), alias, url) && crawls == FoldCrawls(old(crawls), alias, url)
    {
      MergeAliasNode(alias, url);
      RecordAliasOf(alias, url);
    }

    /** One page saved, with its links and its other names. */
    method SavePage(url: URL, crawl: Crawl, otherNames: seq<URL>)
      requires Valid() && url !in otherNames
      modifies this
      ensures Valid() && graph == Links.SavePage(old(graph), Save(url, crawl.links, otherNames))
      ensures crawls == FoldAllCrawls(old(crawls)[url := crawl], otherNames, url)
    {
      DropAliasOfPage(url);
      UpsertPage(url, crawl);
      ghost var up, upCrawls := graph, crawls;
      for i := 0 to |otherNames|
        invariant Valid() && graph == FoldAll(up, otherNames[..i], url)
        invariant crawls == FoldAllCrawls(upCrawls, otherNames[..i], url)
      {
        assert otherNames[..i + 1][..i] == otherNames[..i];
        FoldAlias(otherNames[i], url);
      }
      assert otherNames[..|otherNames|] == otherNames;
    }
  }
}
