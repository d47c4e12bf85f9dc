/** Breadth-first distances over a lineage graph, edges taken both ways. */
module Distances {
  import opened Prelude
  import opened Artifacts
  import opened Lineage

  // ----- undirected walks -----

  ghost predicate Adjacent(edges: seq<Edge>, a: nat, b: nat) {
    exists e :: e in edges && ((e.source == a && e.target == b) || (e.source == b && e.target == a))
  }

  /** `b` can be reached from `a` over `n` edges. */
  ghost predicate Linked(edges: seq<Edge>, a: nat, b: nat, n: nat)
    decreases n
  {
    if n == 0 then a == b else exists c: nat :: Linked(edges, a, c, n - 1) && Adjacent(edges, c, b)
  }

  /** The least number of edges between the two. */
  ghost predicate IsDistance(edges: seq<Edge>, a: nat, b: nat, n: nat) {
    Linked(edges, a, b, n) && forall m: nat :: Linked(edges, a, b, m) ==> n <= m
  }

  // ----- adjacency -----

  function Neighbours(adjacency: map<nat, seq<nat>>, node: nat): seq<nat> {
    if node in adjacency then adjacency[node] else []
  }

  method BuildAdjacency(edges: seq<Edge>) returns (adjacency: map<nat, seq<nat>>)
    ensures forall a: nat, b: nat :: b in Neighbours(adjacency, a) <==> Adjacent(edges, a, b)
  {
    adjacency := map[];
    for i := 0 to |edges|
      invariant forall a: nat, b: nat :: b in Neighbours(adjacency, a) <==> Adjacent(edges[..i], a, b)
    {
      var e := edges[i];
      ghost var before := adjacency;
      adjacency := adjacency[e.source := Neighbours(adjacency, e.source) + [e.target]];
      adjacency := adjacency[e.target := Neighbours(adjacency, e.target) + [e.source]];
      forall a: nat, b: nat ensures b in Neighbours(adjacency, a) <==> Adjacent(edges[..i + 1], a, b) {
        OneMoreEdge(edges[..i], e, a, b);
        assert edges[..i + 1] == edges[..i] + [e];
      }
    }
    assert edges[..|edges|] == edges;
  }

  lemma OneMoreEdge(edges: seq<Edge>, e: Edge, a: nat, b: nat)
    ensures Adjacent(edges + [e], a, b) <==>
            Adjacent(edges, a, b) || (e.source == a && e.target == b) || (e.source == b && e.target == a)
  {
    assert e in edges + [e];
    if Adjacent(edges, a, b) {
      var x :| x in edges && ((x.source == a && x.target == b) || (x.source == b && x.target == a));
      assert x in edges + [e];
    }
  }

  // ----- the search -----

  /** Depths found so far are lengths of walks; every node left behind has all its neighbours one
      step on at most; the queue holds the frontier in order. */
  ghost predicate Searching(edges: seq<Edge>, root: nat, depths: map<nat, nat>, queue: seq<nat>) {
    && root in depths && depths[root] == 0
    && (forall n :: n in depths ==> Linked(edges, root, n, depths[n]))
    && (forall n :: n in queue ==> n in depths)
    && (forall n, m :: n in depths && n !in queue && Adjacent(edges, n, m) ==>
         m in depths && depths[m] <= depths[n] + 1)
    && Ordered(depths, queue)
    && (queue != [] ==> forall n :: n in depths ==> depths[n] <= depths[queue[0]] + 1)
  }

  /** Depths along the queue never fall. */
  ghost predicate Ordered(depths: map<nat, nat>, queue: seq<nat>) {
    && (forall n :: n in queue ==> n in depths)
    && forall i, j :: 0 <= i < j < |queue| ==> depths[queue[i]] <= depths[queue[j]]
  }

  /** While `current` is expanded: its first `seen` neighbours are dealt with. */
  ghost predicate Expanding(edges: seq<Edge>, root: nat, depths: map<nat, nat>, queue: seq<nat>, current: nat,
      done: seq<nat>) {
    && root in depths && depths[root] == 0 && current in depths
    && (forall n :: n in depths ==> Linked(edges, root, n, depths[n]))
    && (forall n :: n in queue ==> n in depths)
    && (forall n, m :: n in depths && n !in queue && n != current && Adjacent(edges, n, m) ==>
         m in depths && depths[m] <= depths[n] + 1)
    && (forall m :: m in done ==> m in depths && depths[m] <= depths[current] + 1)
    && Ordered(depths, queue)
    && (forall n :: n in depths ==> depths[n] <= depths[current] + 1)
    && (forall n :: n in queue ==> depths[current] <= depths[n])
  }

  lemma Pops(edges: seq<Edge>, root: nat, depths: map<nat, nat>, queue: seq<nat>)
    requires Searching(edges, root, depths, queue) && queue != []
    ensures Expanding(edges, root, depths, queue[1..], queue[0], [])
  {
    assert forall n :: n in queue <==> n == queue[0] || n in queue[1..];
  }

  lemma Discovers(edges: seq<Edge>, root: nat, depths: map<nat, nat>, queue: seq<nat>, current: nat,
      done: seq<nat>, m: nat)
    requires Expanding(edges, root, depths, queue, current, done) && Adjacent(edges, current, m)
    ensures if m in depths then Expanding(edges, root, depths, queue, current, done + [m])
            else Expanding(edges, root, depths[m := depths[current] + 1], queue + [m], current, done + [m])
  {
    hide Adjacent, Linked;
    if m !in depths {
      var depths', queue' := depths[m := depths[current] + 1], queue + [m];
      LinkedOn(edges, root, current, m, depths[current]);
      assert forall n :: n in queue' <==> n in queue || n == m;
    }
  }

  lemma LinkedOn(edges: seq<Edge>, a: nat, c: nat, b: nat, n: nat)
    requires Linked(edges, a, c, n) && Adjacent(edges, c, b)
    ensures Linked(edges, a, b, n + 1)
  {
  }

  lemma Leaves(edges: seq<Edge>, root: nat, depths: map<nat, nat>, queue: seq<nat>, current: nat, done: seq<nat>)
    requires Expanding(edges, root, depths, queue, current, done)
    requires forall m: nat :: Adjacent(edges, current, m) ==> m in done
    ensures Searching(edges, root, depths, queue)
  {
    hide Adjacent, Linked;
  }

  lemma LinkedFrom(edges: seq<Edge>, a: nat, b: nat, n: nat) returns (c: nat)
    requires n > 0 && Linked(edges, a, b, n)
    ensures Linked(edges, a, c, n - 1) && Adjacent(edges, c, b)
  {
    c :| Linked(edges, a, c, n - 1) && Adjacent(edges, c, b);
  }

  lemma LinkedNowhere(edges: seq<Edge>, a: nat, b: nat)
    ensures Linked(edges, a, b, 0) <==> a == b
  {
  }

  lemma {:induction false} NothingShorter(edges: seq<Edge>, root: nat, depths: map<nat, nat>, b: nat, n: nat)
    requires Searching(edges, root, depths, []) && Linked(edges, root, b, n)
    ensures b in depths && depths[b] <= n
    decreases n
  {
    hide Linked, Adjacent, Ordered;
    if n > 0 {
      var c := LinkedFrom(edges, root, b, n);
      NothingShorter(edges, root, depths, c, n - 1);
    } else {
      LinkedNowhere(edges, root, b);
    }
  }

  lemma {:induction false} LinkedEnds(edges: seq<Edge>, root: nat, b: nat, n: nat)
    requires Linked(edges, root, b, n)
    ensures b in EndsOf(edges, root)
    decreases n
  {
    if n > 0 {
      var c: nat :| Linked(edges, root, c, n - 1) && Adjacent(edges, c, b);
    }
  }

  /** Gives each unknown neighbour of `current` its depth and puts it in the queue. */
  method Expand(edges: seq<Edge>, root: nat, neighbours: seq<nat>, current: nat, depths0: map<nat, nat>,
      queue0: seq<nat>)
    returns (depths: map<nat, nat>, queue: seq<nat>)
    requires Expanding(edges, root, depths0, queue0, current, [])
    requires forall m :: m in neighbours <==> Adjacent(edges, current, m)
    ensures Searching(edges, root, depths, queue)
    ensures depths0.Keys <= depths.Keys && (depths.Keys == depths0.Keys ==> queue == queue0)
  {
    hide Adjacent, Searching, Expanding;
    depths, queue := depths0, queue0;
    for i := 0 to |neighbours|
      invariant Expanding(edges, root, depths, queue, current, neighbours[..i])
      invariant depths0.Keys <= depths.Keys && (depths.Keys == depths0.Keys ==> queue == queue0)
    {
      var m := neighbours[i];
      ExpandingKnows(edges, root, depths, queue, current, neighbours[..i]);
      assert m in neighbours;
      Discovers(edges, root, depths, queue, current, neighbours[..i], m);
      assert neighbours[..i + 1] == neighbours[..i] + [m];
      if m !in depths {
        depths := depths[m := depths[current] + 1];
        queue := queue + [m];
      }
    }
    assert neighbours[..|neighbours|] == neighbours;
    Leaves(edges, root, depths, queue, current, neighbours);
  }

  /** Each linked node's distance from the root, and no others. */
  method DepthsFromRoot(graph: Graph) returns (depths: map<nat, nat>)
    ensures forall n: nat :: n in depths <==> exists d :: IsDistance(graph.edges, graph.root, n, d)
    ensures forall n :: n in depths ==> IsDistance(graph.edges, graph.root, n, depths[n])
  {
    hide Adjacent, Searching, Expanding, IsDistance, EndsOf, Neighbours;
    var adjacency := BuildAdjacency(graph.edges);
    depths := map[graph.root := 0];
    var queue := [graph.root];
    StartsSearch(graph.edges, graph.root);
    ghost var all := EndsOf(graph.edges, graph.root);
    while queue != []
      invariant Searching(graph.edges, graph.root, depths, queue)
      decreases |all - depths.Keys|, |queue|
    {
      var current := queue[0];
      Pops(graph.edges, graph.root, depths, queue);
      ghost var known := depths.Keys;
      depths, queue := Expand(graph.edges, graph.root, Neighbours(adjacency, current), current, depths, queue[1..]);
      FewerUnknown(graph.edges, graph.root, depths, queue, known, all);
    }
    Found(graph.edges, graph.root, depths);
  }

  lemma StartsSearch(edges: seq<Edge>, root: nat)
    ensures Searching(edges, root, map[root := 0], [root])
  {
  }

  lemma ExpandingKnows(edges: seq<Edge>, root: nat, depths: map<nat, nat>, queue: seq<nat>, current: nat,
      done: seq<nat>)
    requires Expanding(edges, root, depths, queue, current, done)
    ensures current in depths
  {
  }

  lemma FewerUnknown(edges: seq<Edge>, root: nat, depths: map<nat, nat>, queue: seq<nat>, known: set<nat>,
      all: set<nat>)
    requires Searching(edges, root, depths, queue) && known <= depths.Keys && all == EndsOf(edges, root)
    ensures known != depths.Keys ==> |all - depths.Keys| < |all - known|
  {
    if known != depths.Keys {
      assert !(depths.Keys <= known);
      var n :| n in depths && n !in known;
      LinkedEnds(edges, root, n, depths[n]);
      ProperSubset(all - depths.Keys, all - known, n);
    }
  }

  lemma Found(edges: seq<Edge>, root: nat, depths: map<nat, nat>)
    requires Searching(edges, root, depths, [])
    ensures forall n: nat :: n in depths <==> exists d :: IsDistance(edges, root, n, d)
    ensures forall n :: n in depths ==> IsDistance(edges, root, n, depths[n])
  {
    hide Linked, Adjacent, Ordered;
    forall n: nat, d: nat | Linked(edges, root, n, d) ensures n in depths && depths[n] <= d {
      NothingShorter(edges, root, depths, n, d);
    }
    forall n | n in depths ensures IsDistance(edges, root, n, depths[n]) {
    }
  }

  // ----- graphs of the lineage query -----

  lemma {:induction false} WalkLinks(edges: seq<Edge>, root: nat, dir: Direction, walk: seq<Edge>, graph: seq<Edge>)
    requires IsWalk(edges, root, dir, walk) && forall e :: e in walk ==> e in graph
    ensures Linked(graph, root, Far(Last(walk), dir), |walk|)
    ensures Linked(graph, root, Near(Last(walk), dir), |walk| - 1)
  {
    var e := Last(walk);
    assert e in walk;
    assert Adjacent(graph, Near(e, dir), Far(e, dir));
    if |walk| > 1 {
      assert forall x :: x in Front(walk) ==> x in walk;
      WalkLinks(edges, root, dir, Front(walk), graph);
    }
  }

  lemma {:induction false} WalkEdgesWalked(edges: seq<Edge>, root: nat, dir: Direction, walk: seq<Edge>, depth: nat)
    requires IsWalk(edges, root, dir, walk) && |walk| <= depth
    ensures forall e :: e in walk ==> OnWalk(edges, root, dir, e, depth)
  {
    assert WalkedIn(edges, root, dir, Last(walk), |walk|);
    if |walk| > 1 {
      WalkEdgesWalked(edges, root, dir, Front(walk), depth);
      assert forall e :: e in walk <==> e in Front(walk) || e == Last(walk);
    } else {
      assert forall e :: e in walk <==> e == Last(walk);
    }
  }

  /** Every node of a queried graph is linked to its root: the search gives each one a depth. */
  lemma QueriedNodesLinked(edges: seq<Edge>, graph: Graph, dir: Direction, depth: nat, n: nat)
    requires graph.nodes == EndsOf(graph.edges, graph.root) && n in graph.nodes
    requires forall e :: e in graph.edges <==> OnWalk(edges, graph.root, dir, e, depth)
    ensures exists d :: IsDistance(graph.edges, graph.root, n, d)
  {
    if n == graph.root {
      assert Linked(graph.edges, graph.root, n, 0);
      assert IsDistance(graph.edges, graph.root, n, 0);
    } else {
      var e :| e in graph.edges && (n == Near(e, dir) || n == Far(e, dir));
      var k :| 1 <= k <= depth && WalkedIn(edges, graph.root, dir, e, k);
      var walk :| IsWalk(edges, graph.root, dir, walk) && |walk| == k && Last(walk) == e;
      WalkEdgesWalked(edges, graph.root, dir, walk, depth);
      WalkLinks(edges, graph.root, dir, walk, graph.edges);
      var d: nat :| Linked(graph.edges, graph.root, n, d);
      HasDistance(graph.edges, graph.root, n, d);
    }
  }

  lemma {:induction false} HasDistance(edges: seq<Edge>, a: nat, b: nat, n: nat)
    requires Linked(edges, a, b, n)
    ensures exists d :: IsDistance(edges, a, b, d)
  {
    if m: nat :| m < n && Linked(edges, a, b, m) {
      HasDistance(edges, a, b, m);
    } else {
      assert IsDistance(edges, a, b, n);
    }
  }
}
