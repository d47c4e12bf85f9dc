/** Packing artifact context under a token budget: primaries in full, then their ancestors with
    falling fidelity. */
module Assemble {
  import opened Prelude
  import opened Artifacts
  import opened Lineage
  import opened Distances

  datatype Fidelity = Full | Summary | Title

  datatype Chunk = Chunk(address: string, fidelity: Fidelity, content: string)

  datatype Ancestor = Ancestor(id: nat, key: string, address: string, depth: nat, createdAt: int, body: string)

  const SUMMARY_MAX_CHARS: nat := 2000
  const TRUNCATED: string := "\n... (truncated)"
  const MAX_DEPTH: nat := 8

  // ----- collecting ancestors -----

  /** The lineage of one primary reference, its nodes in query order; none if it has no row yet. */
  type Lineages = seq<Option<Graph>>

  /** None of the first primaries, up to the `n`-th, is the node itself. */
  ghost predicate NoRootUpTo(graphs: Lineages, n: nat, id: nat)
    requires n < |graphs|
  {
    forall j :: 0 <= j <= n && graphs[j].Some? ==> graphs[j].value.root != id
  }

  ghost predicate Listed(graphs: Lineages, n: nat, id: nat)
    requires n <= |graphs|
  {
    exists i: nat :: i < n && graphs[i].Some? && id in graphs[i].value.nodes && NoRootUpTo(graphs, i, id)
  }

  ghost predicate Seen(graphs: Lineages, n: nat, id: nat)
    requires n <= |graphs|
  {
    exists i: nat :: i < n && graphs[i].Some? && (id in graphs[i].value.nodes || id == graphs[i].value.root)
  }

  datatype Placed = Placed(id: nat, depth: nat)

  ghost predicate HasId(found: seq<Placed>, id: nat) {
    exists k :: 0 <= k < |found| && found[k].id == id
  }

  /** The node's depth is its distance from the root of a lineage that lists it. */
  ghost predicate IsPlaced(graphs: Lineages, p: Placed) {
    exists i :: 0 <= i < |graphs| && graphs[i].Some? && p.id in graphs[i].value.nodes
                && IsDistance(graphs[i].value.edges, graphs[i].value.root, p.id, p.depth)
  }

  /** Each ancestor once, at its distance from the primary whose lineage listed it; a node is left
      out only when a primary no later than that lineage is the node itself. */
  method CollectAncestors(table: seq<Edge>, graphs: Lineages) returns (found: seq<Placed>)
    requires forall i :: 0 <= i < |graphs| && graphs[i].Some? ==> IsQueried(table, graphs[i].value, MAX_DEPTH)
    ensures forall id: nat :: HasId(found, id) <==> Listed(graphs, |graphs|, id)
    ensures forall i, j :: 0 <= i < j < |found| ==> found[i].id != found[j].id
    ensures forall k :: 0 <= k < |found| ==> IsPlaced(graphs, found[k])
  {
    hide Listed, Seen, HasId, IsQueried, NoRootUpTo, IsDistance;
    var seen: set<nat> := {};
    found := [];
    NothingListed(graphs);
    for i := 0 to |graphs|
      invariant forall id: nat :: HasId(found, id) <==> Listed(graphs, i, id)
      invariant forall id: nat :: id in seen <==> Seen(graphs, i, id)
      invariant AllDifferent(found, seen)
      invariant forall k :: 0 <= k < |found| ==> IsPlaced(graphs, found[k])
    {
      if graphs[i].Some? {
        ghost var before, known := found, seen;
        found, seen := CollectFrom(table, graphs[i].value, found, seen);
        forall id: nat
          ensures HasId(found, id) <==> Listed(graphs, i + 1, id)
          ensures id in seen <==> Seen(graphs, i + 1, id)
        {
          ListsOne(graphs, i, id, before, found, known);
        }
      } else {
        forall id: nat
          ensures Listed(graphs, i + 1, id) <==> Listed(graphs, i, id)
          ensures Seen(graphs, i + 1, id) <==> Seen(graphs, i, id)
        {
          OneMoreLineage(graphs, i, id);
        }
      }
    }
  }

  ghost predicate AllDifferent(found: seq<Placed>, seen: set<nat>) {
    && (forall i, j :: 0 <= i < j < |found| ==> found[i].id != found[j].id)
    && forall k :: 0 <= k < |found| ==> found[k].id in seen
  }

  /** The nodes of one lineage that no earlier primary or lineage has shown. */
  method CollectFrom(table: seq<Edge>, graph: Graph, found0: seq<Placed>, seen0: set<nat>)
    returns (found: seq<Placed>, seen: set<nat>)
    requires IsQueried(table, graph, MAX_DEPTH) && AllDifferent(found0, seen0)
    ensures AllDifferent(found, seen) && seen == seen0 + {graph.root} + graph.nodes
    ensures forall id: nat :: HasId(found, id) <==>
              HasId(found0, id) || (id in graph.nodes && id != graph.root && id !in seen0)
    ensures found0 <= found
    ensures forall k :: |found0| <= k < |found| ==>
              found[k].id in graph.nodes && IsDistance(graph.edges, graph.root, found[k].id, found[k].depth)
  {
    hide IsDistance, OnWalk, EndsOf, HasId;
    var depths := DepthsFromRoot(graph);
    found, seen := found0, seen0 + {graph.root};
    var todo := graph.nodes;
    while todo != {}
      invariant todo <= graph.nodes && found0 <= found
      invariant seen == seen0 + {graph.root} + (graph.nodes - todo)
      invariant AllDifferent(found, seen)
      invariant forall id: nat :: HasId(found, id) <==>
                  HasId(found0, id) || (id in graph.nodes - todo && id != graph.root && id !in seen0)
      invariant forall k :: |found0| <= k < |found| ==>
                  found[k].id in graph.nodes && IsDistance(graph.edges, graph.root, found[k].id, found[k].depth)
      decreases todo
    {
      var node :| node in todo;
      todo := todo - {node};
      if node in seen {
        continue;
      }
      seen := seen + {node};
      QueriedNodesLinked(table, graph, Up, Depth(MAX_DEPTH), node);
      var p := Placed(node, if node in depths then depths[node] else 1);
      forall id: nat ensures HasId(found + [p], id) <==> HasId(found, id) || id == node {
        OneMoreId(found, p, id);
      }
      found := found + [p];
    }
  }

  lemma OneMoreId(found: seq<Placed>, p: Placed, id: nat)
    ensures HasId(found + [p], id) <==> HasId(found, id) || id == p.id
  {
    if HasId(found, id) {
      var k :| 0 <= k < |found| && found[k].id == id;
      assert (found + [p])[k].id == id;
    }
    assert (found + [p])[|found|] == p;
  }

  lemma NothingListed(graphs: Lineages)
    ensures forall id: nat :: !Listed(graphs, 0, id) && !Seen(graphs, 0, id) && !HasId([], id)
  {
  }

  lemma OneMoreLineage(graphs: Lineages, i: nat, id: nat)
    requires i < |graphs|
    ensures Listed(graphs, i + 1, id) <==>
            Listed(graphs, i, id) || (graphs[i].Some? && id in graphs[i].value.nodes && NoRootUpTo(graphs, i, id))
    ensures Seen(graphs, i + 1, id) <==>
            Seen(graphs, i, id) || (graphs[i].Some? && (id in graphs[i].value.nodes || id == graphs[i].value.root))
  {
    hide NoRootUpTo;
  }

  /** Skipping what was seen skips nothing that has not been listed, except primaries. */
  lemma ListsOne(graphs: Lineages, i: nat, id: nat, before: seq<Placed>, found: seq<Placed>, known: set<nat>)
    requires i < |graphs| && graphs[i].Some?
    requires HasId(before, id) <==> Listed(graphs, i, id)
    requires id in known <==> Seen(graphs, i, id)
    requires HasId(found, id) <==>
               HasId(before, id) || (id in graphs[i].value.nodes && id != graphs[i].value.root && id !in known)
    ensures HasId(found, id) <==> Listed(graphs, i + 1, id)
    ensures id in known || id == graphs[i].value.root || id in graphs[i].value.nodes <==> Seen(graphs, i + 1, id)
  {
    hide HasId;
    OneMoreLineage(graphs, i, id);
    if id in graphs[i].value.nodes && NoRootUpTo(graphs, i, id) && id in known {
      var j: nat :| j < i && graphs[j].Some? && (id in graphs[j].value.nodes || id == graphs[j].value.root);
      assert NoRootUpTo(graphs, j, id);
    }
  }

  // ----- order -----

  /** Farthest first, then oldest first. */
  predicate Precedes(a: Ancestor, b: Ancestor) {
    a.depth > b.depth || (a.depth == b.depth && a.createdAt <= b.createdAt)
  }

  ghost predicate InOrder(ancestors: seq<Ancestor>) {
    forall i, j :: 0 <= i < j < |ancestors| ==>
        ancestors[j].depth <= ancestors[i].depth
        && (ancestors[j].depth == ancestors[i].depth ==> ancestors[i].createdAt <= ancestors[j].createdAt)
  }

  /** A stable sort: an element goes behind all it does not strictly precede. */
  function Inserted(sorted: seq<Ancestor>, a: Ancestor): seq<Ancestor> {
    if sorted == [] || Precedes(Last(sorted), a) then sorted + [a] else Inserted(Front(sorted), a) + [Last(sorted)]
  }

  function Sorted(ancestors: seq<Ancestor>): seq<Ancestor> {
    if ancestors == [] then [] else Inserted(Sorted(Front(ancestors)), Last(ancestors))
  }

  lemma {:induction false} InsertedMembers(sorted: seq<Ancestor>, a: Ancestor)
    ensures multiset(Inserted(sorted, a)) == multiset(sorted) + multiset{a}
    ensures forall x :: x in Inserted(sorted, a) ==> x in sorted || x == a
  {
    if sorted != [] {
      assert sorted == Front(sorted) + [Last(sorted)];
      if !Precedes(Last(sorted), a) {
        InsertedMembers(Front(sorted), a);
      }
    }
  }

  lemma {:induction false} InsertedInOrder(sorted: seq<Ancestor>, a: Ancestor)
    requires InOrder(sorted)
    ensures InOrder(Inserted(sorted, a))
  {
    if sorted != [] && !Precedes(Last(sorted), a) {
      InsertedInOrder(Front(sorted), a);
      InsertedMembers(Front(sorted), a);
      var rest := Inserted(Front(sorted), a);
      forall i | 0 <= i < |rest| ensures Precedes(rest[i], Last(sorted)) {
        assert rest[i] in rest;
      }
    }
  }

  lemma {:induction false} SortedInOrder(ancestors: seq<Ancestor>)
    ensures InOrder(Sorted(ancestors)) && multiset(Sorted(ancestors)) == multiset(ancestors)
  {
    if ancestors != [] {
      SortedInOrder(Front(ancestors));
      InsertedInOrder(Sorted(Front(ancestors)), Last(ancestors));
      InsertedMembers(Sorted(Front(ancestors)), Last(ancestors));
      assert ancestors == Front(ancestors) + [Last(ancestors)];
    }
  }

  // ----- packing -----

  /** Four characters to a token, never less than one token. */
  function Tokens(chars: nat): (t: nat)
    ensures t >= 1 && (chars >= 4 ==> 4 * t <= chars < 4 * t + 4) && (chars < 4 ==> t == 1)
  {
    if chars / 4 < 1 then 1 else chars / 4
  }

  function TitleOf(a: Ancestor): string {
    "# " + a.key + " (ref: " + a.address + ")"
  }

  /** The highest fidelity that fits. */
  function Degraded(a: Ancestor, remaining: int): Chunk {
    var summary := if |a.body| <= SUMMARY_MAX_CHARS then a.body else a.body[..SUMMARY_MAX_CHARS];
    if Tokens(|a.body|) <= remaining then Chunk(a.address, Full, a.body)
    else if Tokens(|summary|) <= remaining then Chunk(a.address, Summary, summary + TRUNCATED)
    else Chunk(a.address, Title, TitleOf(a))
  }

  /** What the ancestor becomes with `left` tokens to go: its whole body if that fits; else its first
      2000 characters, marked as cut, if those fit; else its key and address. */
  ghost predicate Renders(a: Ancestor, left: int, c: Chunk) {
    var clipped := if |a.body| <= 2000 then |a.body| else 2000;
    && c.address == a.address
    && (c.fidelity.Full? <==> Tokens(|a.body|) <= left)
    && (c.fidelity.Full? ==> c.content == a.body)
    && (c.fidelity.Summary? <==> Tokens(clipped) <= left < Tokens(|a.body|))
    && (c.fidelity.Summary? ==> |a.body| > 2000 && c.content == a.body[..2000] + "\n... (truncated)")
    && (c.fidelity.Title? ==> c.content == "# " + a.key + " (ref: " + a.address + ")")
  }

  lemma DegradedRenders(a: Ancestor, left: int)
    ensures Renders(a, left, Degraded(a, left))
  {
    assert |a.body| <= 2000 ==> a.body == a.body[..|a.body|];
  }

  /** How far one more chunk can take the total past the budget. */
  lemma Overshoot(a: Ancestor, remaining: int)
    requires remaining > 0
    ensures var c := Degraded(a, remaining); var tokens := Tokens(|c.content|);
      && (c.fidelity.Full? ==> tokens <= remaining && c.content == a.body)
      && (c.fidelity.Summary? ==> |a.body| > SUMMARY_MAX_CHARS && tokens == 504 <= remaining + 4)
      && (c.fidelity.Title? ==> tokens < remaining + Tokens(|TitleOf(a)|))
  {
  }

  function Spent(chunks: seq<Chunk>): nat {
    if chunks == [] then 0 else Spent(Front(chunks)) + Tokens(|Last(chunks).content|)
  }

  function Chars(chunks: seq<Chunk>): nat {
    if chunks == [] then 0 else Chars(Front(chunks)) + |Last(chunks).content|
  }

  /** The added chunks are the first of the ordered ancestors, each as good as what was left then
      allowed, and each was added while something was left. */
  ghost predicate IsPacking(ordered: seq<Ancestor>, budget: int, base: nat, added: seq<Chunk>)
    requires |added| <= |ordered|
  {
    added == [] ||
      (&& IsPacking(ordered, budget, base, Front(added))
       && base + Spent(Front(added)) < budget
       && Renders(ordered[|added| - 1], budget - base - Spent(Front(added)), Last(added)))
  }

  /** Packs the primaries, then as many ancestors as the budget has room to begin. */
  method Assemble(primaries: seq<Chunk>, ancestors: seq<Ancestor>, budget: int, withLineage: bool)
    returns (chunks: seq<Chunk>, total: nat)
    ensures |primaries| <= |chunks| && chunks[..|primaries|] == primaries
    ensures total == Tokens(Chars(primaries)) + Spent(chunks[|primaries|..])
    ensures |chunks| <= |primaries| + |Sorted(ancestors)|
    ensures IsPacking(Sorted(ancestors), budget, Tokens(Chars(primaries)), chunks[|primaries|..])
    ensures withLineage && |chunks| < |primaries| + |Sorted(ancestors)| ==> total >= budget
    ensures !withLineage ==> chunks == primaries
    ensures |chunks| > |primaries| ==> WithinReach(Last(chunks), total, budget)
  {
    hide Spent, Degraded, Precedes, Renders;
    chunks, total := primaries, Tokens(Chars(primaries));
    ghost var base := total;
    ghost var added: seq<Chunk> := [];
    NothingSpent();
    var remaining := budget - total;
    if withLineage && remaining > 0 {
      var ordered := Sorted(ancestors);
      for i := 0 to |ordered|
        invariant chunks == primaries + added && |added| == i
        invariant total == base + Spent(added) && remaining == budget - total
        invariant IsPacking(ordered, budget, base, added)
        invariant added != [] ==> WithinReach(Last(added), total, budget)
      {
        if remaining <= 0 {
          break;
        }
        var chunk := Degraded(ordered[i], remaining);
        Overshoot(ordered[i], remaining);
        DegradedRenders(ordered[i], remaining);
        OneMoreChunk(ordered, budget, base, added, chunk);
        chunks := chunks + [chunk];
        added := added + [chunk];
        total := total + Tokens(|chunk.content|);
        remaining := remaining - Tokens(|chunk.content|);
      }
    }
    assert chunks[|primaries|..] == added;
  }

  // ----- the whole assembly -----

  /** What the store has of an artifact. */
  datatype Record = Record(key: string, address: string, createdAt: int, body: string)

  function AncestorOf(records: nat -> Record, p: Placed): Ancestor {
    var r := records(p.id);
    Ancestor(p.id, r.key, r.address, p.depth, r.createdAt, r.body)
  }

  /** The lineage of a reference that has a row, down to the greatest depth. */
  ghost predicate IsQueryOf(table: seq<Edge>, ref: Option<nat>, graph: Option<Graph>) {
    match ref
    case Some(root) => graph.Some? && graph.value.root == root && IsQueried(table, graph.value, 8)
    case None => graph.None?
  }

  ghost predicate AreQueried(table: seq<Edge>, refs: seq<Option<nat>>, graphs: Lineages) {
    |graphs| == |refs| && forall i :: 0 <= i < |refs| ==> IsQueryOf(table, refs[i], graphs[i])
  }

  /** Every ancestor that the lineages list, once, at its distance and with its stored record,
      farthest first and then oldest first. */
  ghost predicate AreAncestors(records: nat -> Record, graphs: Lineages, ordered: seq<Ancestor>) {
    && InOrder(ordered)
    && DifferentIds(ordered)
    && (forall a :: a in ordered ==>
         IsPlaced(graphs, Placed(a.id, a.depth)) && Record(a.key, a.address, a.createdAt, a.body) == records(a.id))
    && (forall id: nat :: (exists a :: a in ordered && a.id == id) <==> Listed(graphs, |graphs|, id))
  }

  /** From primary references to the packed context: query, collect, order, pack. */
  method AssembleContext(primaries: seq<Chunk>, refs: seq<Option<nat>>, table: seq<Edge>, records: nat -> Record,
      budget: int, withLineage: bool)
    returns (chunks: seq<Chunk>, total: nat, ghost graphs: Lineages, ghost ordered: seq<Ancestor>)
    ensures AreQueried(table, refs, graphs) && AreAncestors(records, graphs, ordered)
    ensures |primaries| <= |chunks| <= |primaries| + |ordered| && chunks[..|primaries|] == primaries
    ensures IsPacking(ordered, budget, Tokens(Chars(primaries)), chunks[|primaries|..])
    ensures total == Tokens(Chars(primaries)) + Spent(chunks[|primaries|..])
    ensures withLineage && |chunks| < |primaries| + |ordered| ==> total >= budget
    ensures !withLineage ==> chunks == primaries
    ensures |chunks| > |primaries| ==> WithinReach(Last(chunks), total, budget)
  {
    hide IsQueried, IsPlaced, Listed, IsPacking, Spent, Chars, Sorted, InOrder, Precedes;
    var queried := QueryAll(table, refs);
    var found := CollectAncestors(table, queried);
    var ancestors := seq(|found|, i requires 0 <= i < |found| => AncestorOf(records, found[i]));
    graphs, ordered := queried, Sorted(ancestors);
    AncestorsSorted(records, graphs, found, ancestors);
    chunks, total := Assemble(primaries, ancestors, budget, withLineage);
  }

  method QueryAll(table: seq<Edge>, refs: seq<Option<nat>>) returns (graphs: Lineages)
    ensures AreQueried(table, refs, graphs)
  {
    hide IsQueryOf;
    graphs := [];
    for i := 0 to |refs|
      invariant |graphs| == i && forall j :: 0 <= j < i ==> IsQueryOf(table, refs[j], graphs[j])
    {
      var graph := QueryOne(table, refs[i]);
      graphs := graphs + [graph];
    }
  }

  method QueryOne(table: seq<Edge>, ref: Option<nat>) returns (graph: Option<Graph>)
    ensures IsQueryOf(table, ref, graph)
  {
    hide OnWalk, EndsOf;
    if ref.None? {
      return None;
    }
    var found := QueryLineage(table, ref.value, Up, MAX_DEPTH);
    return Some(found);
  }

  lemma {:induction false} AncestorsSorted(records: nat -> Record, graphs: Lineages, found: seq<Placed>,
      ancestors: seq<Ancestor>)
    requires forall id: nat :: HasId(found, id) <==> Listed(graphs, |graphs|, id)
    requires forall i, j :: 0 <= i < j < |found| ==> found[i].id != found[j].id
    requires forall k :: 0 <= k < |found| ==> IsPlaced(graphs, found[k])
    requires |ancestors| == |found| && forall k :: 0 <= k < |found| ==> ancestors[k] == AncestorOf(records, found[k])
    ensures AreAncestors(records, graphs, Sorted(ancestors))
  {
    hide IsPlaced, Listed, Sorted, InOrder;
    var ordered := Sorted(ancestors);
    SortedInOrder(ancestors);
    SameMembers(ancestors, ordered);
    forall a | a in ordered ensures IsPlaced(graphs, Placed(a.id, a.depth))
        && Record(a.key, a.address, a.createdAt, a.body) == records(a.id) {
      var k :| 0 <= k < |ancestors| && ancestors[k] == a;
      assert found[k] == Placed(a.id, a.depth);
    }
    forall id: nat ensures (exists a :: a in ordered && a.id == id) <==> Listed(graphs, |graphs|, id) {
      if HasId(found, id) {
        var k :| 0 <= k < |found| && found[k].id == id;
        assert ancestors[k] in ordered && ancestors[k].id == id;
      }
      if a :| a in ordered && a.id == id {
        var k :| 0 <= k < |ancestors| && ancestors[k] == a;
        assert found[k].id == id;
      }
    }
    SortedDifferent(ancestors);
  }

  lemma SameMembers(a: seq<Ancestor>, b: seq<Ancestor>)
    requires multiset(a) == multiset(b)
    ensures forall x :: x in a <==> x in b
  {
    forall x ensures x in a <==> x in b {
      assert x in a <==> x in multiset(a);
      assert x in b <==> x in multiset(b);
    }
  }

  ghost predicate DifferentIds(ancestors: seq<Ancestor>) {
    forall i, j :: 0 <= i < j < |ancestors| ==> ancestors[i].id != ancestors[j].id
  }

  lemma {:induction false} InsertedDifferent(sorted: seq<Ancestor>, a: Ancestor)
    requires DifferentIds(sorted) && forall x :: x in sorted ==> x.id != a.id
    ensures DifferentIds(Inserted(sorted, a))
  {
    if sorted != [] && !Precedes(Last(sorted), a) {
      InsertedDifferent(Front(sorted), a);
      InsertedMembers(Front(sorted), a);
      var rest := Inserted(Front(sorted), a);
      forall i | 0 <= i < |rest| ensures rest[i].id != Last(sorted).id {
        assert rest[i] in rest;
      }
    }
  }

  lemma {:induction false} SortedDifferent(ancestors: seq<Ancestor>)
    requires DifferentIds(ancestors)
    ensures DifferentIds(Sorted(ancestors))
  {
    if ancestors != [] {
      SortedDifferent(Front(ancestors));
      SortedInOrder(Front(ancestors));
      SameMembers(Front(ancestors), Sorted(Front(ancestors)));
      InsertedDifferent(Sorted(Front(ancestors)), Last(ancestors));
    }
  }

  /** Only the last chunk overshoots, by what its fidelity allows. */
  predicate WithinReach(last: Chunk, total: nat, budget: int) {
    match last.fidelity
    case Full => total <= budget
    case Summary => total <= budget + 4
    case Title => total < budget + Tokens(|last.content|)
  }

  /** Both add up chunk by chunk. */
  lemma {:induction false} SumsOf(chunks: seq<Chunk>, more: seq<Chunk>)
    ensures Chars(chunks + more) == Chars(chunks) + Chars(more)
    ensures Spent(chunks + more) == Spent(chunks) + Spent(more)
    ensures |more| == 1 ==> Chars(more) == |more[0].content| && Spent(more) == Tokens(|more[0].content|)
    decreases |more|
  {
    if more == [] {
      assert chunks + more == chunks;
    } else {
      assert Front(chunks + more) == chunks + Front(more);
      SumsOf(chunks, Front(more));
    }
  }

  lemma NothingSpent()
    ensures Spent([]) == 0
  {
  }

  lemma OneMoreChunk(ordered: seq<Ancestor>, budget: int, base: nat, added: seq<Chunk>, chunk: Chunk)
    requires |added| < |ordered| && IsPacking(ordered, budget, base, added)
    requires base + Spent(added) < budget && Renders(ordered[|added|], budget - base - Spent(added), chunk)
    ensures IsPacking(ordered, budget, base, added + [chunk])
    ensures Spent(added + [chunk]) == Spent(added) + Tokens(|chunk.content|)
  {
    assert Front(added + [chunk]) == added;
  }
}
