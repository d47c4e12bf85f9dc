/** The lineage query: a depth-bounded recursive join over the edge table, deduplicated. */
module Lineage {
  import opened Prelude
  import opened Artifacts

  datatype Direction = Up | Down

  /** The end of an edge a step in this direction leaves from, and the one it arrives at. */
  function Near(e: Edge, dir: Direction): nat {
    if dir.Up? then e.source else e.target
  }

  function Far(e: Edge, dir: Direction): nat {
    if dir.Up? then e.target else e.source
  }

  datatype Graph = Graph(root: nat, nodes: set<nat>, edges: seq<Edge>)

  // ----- the recursive query -----

  function Leaving(edges: seq<Edge>, node: nat, dir: Direction): (r: seq<Edge>)
    ensures forall e :: e in r <==> e in edges && Near(e, dir) == node
  {
    if edges == [] then []
    else
      assert forall e :: e in edges <==> e in Front(edges) || e == Last(edges);
      Leaving(Front(edges), node, dir) + (if Near(Last(edges), dir) == node then [Last(edges)] else [])
  }

  ghost predicate Continues(e: Edge, level: seq<Edge>, dir: Direction) {
    exists l :: l in level && Near(e, dir) == Far(l, dir)
  }

  /** The join of the previous level's rows with the edge table: one row per pair. */
  function Joined(edges: seq<Edge>, level: seq<Edge>, dir: Direction): (r: seq<Edge>)
    ensures forall e :: e in r <==> e in edges && Continues(e, level, dir)
  {
    if level == [] then []
    else
      assert forall l :: l in level <==> l in Front(level) || l == Last(level);
      Joined(edges, Front(level), dir) + Leaving(edges, Far(Last(level), dir), dir)
  }

  function Level(edges: seq<Edge>, root: nat, dir: Direction, depth: nat): seq<Edge>
    requires depth >= 1
  {
    if depth == 1 then Leaving(edges, root, dir) else Joined(edges, Level(edges, root, dir, depth - 1), dir)
  }

  /** Every row of the recursion down to `depth`, level by level. */
  function AllRows(edges: seq<Edge>, root: nat, dir: Direction, depth: nat): seq<Edge>
    requires depth >= 1
  {
    if depth == 1 then Level(edges, root, dir, 1) else AllRows(edges, root, dir, depth - 1) + Level(edges, root, dir,
        depth)
  }

  /** The first level needs no depth; a row recurses while it lies above the bound. */
  function Depth(maxDepth: int): (d: nat)
    ensures d >= 1
  {
    if maxDepth < 1 then 1 else maxDepth
  }

  // ----- walks -----

  /** A directed walk from the root, edge by edge. */
  ghost predicate IsWalk(edges: seq<Edge>, root: nat, dir: Direction, walk: seq<Edge>) {
    && walk != [] && Last(walk) in edges
    && if |walk| == 1 then Near(walk[0], dir) == root
       else IsWalk(edges, root, dir, Front(walk)) && Far(Last(Front(walk)), dir) == Near(Last(walk), dir)
  }

  ghost predicate WalkedIn(edges: seq<Edge>, root: nat, dir: Direction, e: Edge, n: nat) {
    exists walk :: IsWalk(edges, root, dir, walk) && |walk| == n && Last(walk) == e
  }

  ghost predicate OnWalk(edges: seq<Edge>, root: nat, dir: Direction, e: Edge, depth: nat) {
    exists n :: 1 <= n <= depth && WalkedIn(edges, root, dir, e, n)
  }

  lemma WalkGoesOn(edges: seq<Edge>, root: nat, dir: Direction, l: Edge, e: Edge, n: nat)
    requires WalkedIn(edges, root, dir, l, n) && e in edges && Near(e, dir) == Far(l, dir)
    ensures WalkedIn(edges, root, dir, e, n + 1)
  {
    var walk :| IsWalk(edges, root, dir, walk) && |walk| == n && Last(walk) == l;
    var more := walk + [e];
    assert Front(more) == walk && Last(more) == e;
    assert IsWalk(edges, root, dir, more);
  }

  lemma WalkComesFrom(edges: seq<Edge>, root: nat, dir: Direction, e: Edge, n: nat) returns (l: Edge)
    requires n > 1 && WalkedIn(edges, root, dir, e, n)
    ensures WalkedIn(edges, root, dir, l, n - 1) && e in edges && Near(e, dir) == Far(l, dir)
  {
    var walk :| IsWalk(edges, root, dir, walk) && |walk| == n && Last(walk) == e;
    l := Last(Front(walk));
    assert IsWalk(edges, root, dir, Front(walk));
  }

  lemma FirstStep(edges: seq<Edge>, root: nat, dir: Direction, e: Edge)
    ensures WalkedIn(edges, root, dir, e, 1) <==> e in edges && Near(e, dir) == root
  {
    if e in edges && Near(e, dir) == root {
      assert IsWalk(edges, root, dir, [e]) && Last([e]) == e;
    }
  }

  lemma LevelOf(edges: seq<Edge>, root: nat, dir: Direction, depth: nat, e: Edge)
    requires depth >= 1
    ensures e in Level(edges, root, dir, depth) <==>
            if depth == 1 then e in edges && Near(e, dir) == root
            else e in edges && Continues(e, Level(edges, root, dir, depth - 1), dir)
  {
    hide Continues;
  }

  lemma {:induction false} LevelIsWalked(edges: seq<Edge>, root: nat, dir: Direction, depth: nat, e: Edge)
    requires depth >= 1
    ensures e in Level(edges, root, dir, depth) <==> WalkedIn(edges, root, dir, e, depth)
  {
    hide WalkedIn, Level;
    LevelOf(edges, root, dir, depth, e);
    if depth == 1 {
      FirstStep(edges, root, dir, e);
    } else {
      if e in Level(edges, root, dir, depth) {
        var l :| l in Level(edges, root, dir, depth - 1) && Near(e, dir) == Far(l, dir);
        LevelIsWalked(edges, root, dir, depth - 1, l);
        WalkGoesOn(edges, root, dir, l, e, depth - 1);
      }
      if WalkedIn(edges, root, dir, e, depth) {
        var l := WalkComesFrom(edges, root, dir, e, depth);
        LevelIsWalked(edges, root, dir, depth - 1, l);
      }
    }
  }

  lemma {:induction false} RowsAreWalked(edges: seq<Edge>, root: nat, dir: Direction, depth: nat, e: Edge)
    requires depth >= 1
    ensures e in AllRows(edges, root, dir, depth) <==> OnWalk(edges, root, dir, e, depth)
  {
    hide WalkedIn, Level;
    LevelIsWalked(edges, root, dir, depth, e);
    if depth > 1 {
      RowsAreWalked(edges, root, dir, depth - 1, e);
    }
  }

  // ----- deduplication -----

  /** The rows without repeats, each where it was first seen. */
  function FirstSeen(rows: seq<Edge>): (r: seq<Edge>)
    ensures Distinct(r)
    ensures forall e :: e in r <==> e in rows
  {
    if rows == [] then []
    else
      assert forall e :: e in rows <==> e in Front(rows) || e == Last(rows);
      if Last(rows) in Front(rows) then FirstSeen(Front(rows)) else FirstSeen(Front(rows)) + [Last(rows)]
  }

  /** What was seen first comes first. */
  lemma {:induction false} FirstSeenGrows(rows: seq<Edge>, more: seq<Edge>)
    ensures FirstSeen(rows) <= FirstSeen(rows + more)
    ensures |more| == 1 && more[0] !in rows ==> FirstSeen(rows + more) == FirstSeen(rows) + more
    decreases |more|
  {
    if more == [] {
      assert rows + more == rows;
    } else {
      assert Front(rows + more) == rows + Front(more) && Last(rows + more) == Last(more);
      FirstSeenGrows(rows, Front(more));
      assert |more| == 1 ==> rows + Front(more) == rows && more == [Last(more)];
    }
  }

  function EndsOf(edges: seq<Edge>, root: nat): set<nat> {
    {root} + (set e | e in edges :: e.source) + (set e | e in edges :: e.target)
  }

  method Deduplicate(rows: seq<Edge>) returns (found: seq<Edge>)
    ensures found == FirstSeen(rows)
  {
    var seen: set<Edge> := {};
    found := [];
    for i := 0 to |rows|
      invariant forall e :: e in seen <==> e in found
      invariant found == FirstSeen(rows[..i])
    {
      assert Front(rows[..i + 1]) == rows[..i];
      if rows[i] in seen {
        continue;
      }
      seen := seen + {rows[i]};
      found := found + [rows[i]];
    }
    assert rows[..|rows|] == rows;
  }

  method CollectNodes(root: nat, edges: seq<Edge>) returns (nodes: set<nat>)
    ensures nodes == EndsOf(edges, root)
  {
    nodes := {root};
    for i := 0 to |edges|
      invariant nodes == EndsOf(edges[..i], root)
    {
      assert edges[..i + 1] == edges[..i] + [edges[i]];
      assert forall e :: e in edges[..i + 1] <==> e in edges[..i] || e == edges[i];
      nodes := nodes + {edges[i].source};
      nodes := nodes + {edges[i].target};
    }
    assert edges[..|edges|] == edges;
  }

  /** A lineage as the query returns it: exactly the walks up to the bound, and their ends. */
  ghost predicate IsQueried(table: seq<Edge>, graph: Graph, maxDepth: int) {
    && graph.nodes == EndsOf(graph.edges, graph.root)
    && forall e :: e in graph.edges <==> OnWalk(table, graph.root, Up, e, Depth(maxDepth))
  }

  /** A walk of that length reaches the edge, and it is a first step or within the bound. */
  ghost predicate Reaches(edges: seq<Edge>, root: nat, dir: Direction, e: Edge, maxDepth: int) {
    exists n :: n >= 1 && (n == 1 || n <= maxDepth) && WalkedIn(edges, root, dir, e, n)
  }

  /** Exactly the edges on directed walks from the root no longer than the bound, each once. */
  method QueryLineage(edges: seq<Edge>, root: nat, dir: Direction, maxDepth: int) returns (graph: Graph)
    ensures graph.root == root && graph.nodes == EndsOf(graph.edges, root)
    ensures forall n :: n in graph.nodes <==> n == root || exists e :: e in graph.edges && n in {e.source, e.target}
    ensures forall e :: e in graph.edges <==> Reaches(edges, root, dir, e, maxDepth)
    ensures Distinct(graph.edges)
    ensures forall e :: e in graph.edges <==> OnWalk(edges, root, dir, e, Depth(maxDepth))
    ensures graph.edges == FirstSeen(AllRows(edges, root, dir, Depth(maxDepth)))
  {
    hide OnWalk, AllRows, EndsOf, Reaches;
    var rows := AllRows(edges, root, dir, Depth(maxDepth));
    var found := Deduplicate(rows);
    forall e ensures e in found <==> OnWalk(edges, root, dir, e, Depth(maxDepth)) {
      RowsAreWalked(edges, root, dir, Depth(maxDepth), e);
    }
    forall e ensures OnWalk(edges, root, dir, e, Depth(maxDepth)) <==> Reaches(edges, root, dir, e, maxDepth) {
      WithinBound(edges, root, dir, e, maxDepth);
    }
    var nodes := CollectNodes(root, found);
    EndsAre(found, root);
    return Graph(root, nodes, found);
  }

  lemma WithinBound(edges: seq<Edge>, root: nat, dir: Direction, e: Edge, maxDepth: int)
    ensures OnWalk(edges, root, dir, e, Depth(maxDepth)) <==> Reaches(edges, root, dir, e, maxDepth)
  {
    hide WalkedIn;
  }

  lemma EndsAre(edges: seq<Edge>, root: nat)
    ensures forall n :: n in EndsOf(edges, root) <==> n == root || exists e :: e in edges && n in {e.source, e.target}
  {
  }

  // ----- full closure -----

  /** Walks that go back to ever earlier rows are no longer than the number of rows. */
  lemma {:induction false} WalksAreShort(edges: seq<Edge>, root: nat, dir: Direction, walk: seq<Edge>, count: nat)
    requires forall e :: e in edges ==> e.target < e.source < count
    requires IsWalk(edges, root, dir, walk) && root < count
    ensures if dir.Up? then Far(Last(walk), dir) + |walk| <= root else Far(Last(walk), dir) >= root + |walk|
    ensures |walk| < count
  {
    if |walk| > 1 {
      WalksAreShort(edges, root, dir, Front(walk), count);
    }
  }

  /** In a store's graph, a bound of the row count reaches everything there is: every edge on any
      directed walk from the root. */
  lemma FullClosure(edges: seq<Edge>, root: nat, dir: Direction, e: Edge, count: nat, depth: nat)
    requires forall x :: x in edges ==> x.target < x.source < count
    requires root < count <= depth
    ensures OnWalk(edges, root, dir, e, depth) <==> exists n :: WalkedIn(edges, root, dir, e, n)
  {
    if n :| WalkedIn(edges, root, dir, e, n) {
      var walk :| IsWalk(edges, root, dir, walk) && |walk| == n && Last(walk) == e;
      WalksAreShort(edges, root, dir, walk, count);
    }
  }

  /** The edges of a consistent store form such a graph. */
  lemma StoreIsAcyclic(rows: seq<Row>, edges: set<Edge>, table: seq<Edge>)
    requires Consistent(rows, edges) && forall e :: e in table <==> e in edges
    ensures forall root: nat, dir, e :: root < |rows| ==>
              (OnWalk(table, root, dir, e, |rows|) <==> exists n :: WalkedIn(table, root, dir, e, n))
    ensures forall root: nat, dir, walk :: IsWalk(table, root, dir, walk) && root < |rows| ==>
              Far(Last(walk), dir) != root
  {
    forall root: nat, dir, e | root < |rows|
      ensures OnWalk(table, root, dir, e, |rows|) <==> exists n :: WalkedIn(table, root, dir, e, n)
    {
      FullClosure(table, root, dir, e, |rows|, |rows|);
    }
    forall root: nat, dir, walk | IsWalk(table, root, dir, walk) && root < |rows| ensures Far(Last(walk), dir) != root {
      WalksAreShort(table, root, dir, walk, |rows|);
    }
  }
}
