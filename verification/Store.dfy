/** The artifact store: creating versions and changing statuses in place, one transaction each. */
module Store {
  import opened Prelude
  import opened Keys
  import opened Artifacts
  import opened Lineage

  datatype CreateEnd = Deduplicated(id: nat) | Created(id: nat) | NoSuchParent

  datatype StatusEnd = Changed(id: nat) | NotFound | InvalidTransition(was: Status)

  class ArtifactStore {
    var rows: seq<Row>
    var edges: set<Edge>

    constructor ()
      ensures rows == [] && edges == {} && Consistent(rows, edges)
    {
      rows, edges := [], {};
    }

    // ----- queries -----

    /** The highest-versioned non-rejected row of the key. */
    method LatestRow(key: string) returns (latest: Option<nat>)
      requires Versioned(rows)
      ensures latest == Latest(rows, key)
    {
      hide Versioned, CountOf, LatestBelow;
      latest := None;
      LatestStep(rows, key, 0);
      for i := 0 to |rows|
        invariant latest == LatestBelow(rows, key, i)
        invariant latest.Some? ==> latest.value < i
      {
        LatestStep(rows, key, i);
        if IsLive(rows[i], key) {
          if latest.Some? {
            LaterIsHigher(rows, latest.value, i);
          }
          if latest.None? || rows[i].version > rows[latest.value].version {
            latest := Some(i);
          }
        }
      }
    }

    /** One above the key's highest version, rejected rows included. */
    method NextVersion(key: string) returns (version: nat)
      requires Versioned(rows)
      ensures version == CountOf(rows, key, |rows|) + 1
    {
      version := 1;
      for i := 0 to |rows|
        invariant version == CountOf(rows, key, i) + 1
      {
        if rows[i].key == key && rows[i].version >= version {
          version := rows[i].version + 1;
        }
      }
    }

    // ----- operations -----

    method AddEdge(source: nat, target: nat, relation: Relation)
      modifies this`edges
      ensures edges == old(edges) + {Edge(source, target, relation)}
    {
      edges := edges + {Edge(source, target, relation)};
    }

    /** A new version of the key, unless its latest non-rejected one already has the content. */
    method Create(key: string, content: string, status: Status, derivedFrom: seq<nat>) returns (end: CreateEnd)
      requires Consistent(rows, edges)
      modifies this
      ensures Consistent(rows, edges) && Evolves(old(rows), rows)
      ensures end.Deduplicated? <==>
                Latest(old(rows), key).Some? && old(rows)[Latest(old(rows), key).value].content == content
      ensures end.Deduplicated? ==> rows == old(rows) && edges == old(edges) && Latest(rows, key) == Some(end.id)
      ensures end.Created? ==> end.id == |old(rows)| && forall p :: p in derivedFrom ==> p < end.id
      ensures end.Created? ==>
                rows == Closed(old(rows), key) + [Row(key, CountOf(old(rows), key, |old(rows)|) + 1, content, status)]
      ensures end.Created? ==> edges == old(edges) + NewEdges(old(rows), key, derivedFrom)
      ensures end.Created? ==> IsLinked(old(rows), old(edges), edges, key, derivedFrom)
      ensures end.Created? ==> IsNewVersion(old(rows), rows, key, content, status)
      ensures end.NoSuchParent? ==>
                rows == old(rows) && edges == old(edges) && exists p :: p in derivedFrom && p >= |rows|
      ensures end.Created? && !status.Rejected? ==> Latest(rows, key) == Some(end.id)
    {
      hide Consistent, Evolves, CountOf, LatestBelow, Closed, IsLinked, IsNewVersion;
      ConsistentRows(rows, edges);
      var latest := LatestRow(key);
      LatestIsRow(rows, key);
      if latest.Some? && rows[latest.value].content == content {
        return Deduplicated(latest.value);
      }
      var version := NextVersion(key);
      var rowsBefore, edgesBefore := rows, edges;
      var id := |rows|;
      rows := rows + [Row(key, version, content, status)];
      if latest.Some? {
        AddEdge(id, latest.value, Supersedes);
        rows := StatusChanged(rows, latest.value, Superseded);
      }
      InsertedThenClosed(rowsBefore, key, Row(key, version, content, status));
      ghost var closed := rows;
      for i := 0 to |derivedFrom|
        invariant rows == closed
        invariant forall j :: 0 <= j < i ==> derivedFrom[j] < id
        invariant edges == edgesBefore + NewEdges(rowsBefore, key, derivedFrom[..i])
      {
        if derivedFrom[i] >= id {
          assert derivedFrom[i] in derivedFrom;
          rows, edges := rowsBefore, edgesBefore;  // the foreign key fails: roll back
          return NoSuchParent;
        }
        AddEdge(id, derivedFrom[i], DerivedFrom);
      }
      assert derivedFrom[..|derivedFrom|] == derivedFrom;
      CreateKeeps(rowsBefore, edgesBefore, key, content, status, derivedFrom);
      NewEdgesLink(rowsBefore, edgesBefore, key, derivedFrom);
      NewVersionRows(rowsBefore, edgesBefore, key, content, status);
      NewestIsLatest(rows, key);
      return Created(id);
    }

    method SetStatus(ref: ParsedRef, status: Status) returns (end: StatusEnd)
      requires Consistent(rows, edges)
      modifies this`rows
      ensures Consistent(rows, edges) && Evolves(old(rows), rows)
      ensures match Find(old(rows), ref)
              case None => end.NotFound? && rows == old(rows)
              case Some(i) =>
                i < |old(rows)|
                && if Allowed(old(rows)[i].status, status) then end == Changed(i)
                    && rows == StatusChanged(old(rows), i, status)
                   else end == InvalidTransition(old(rows)[i].status) && rows == old(rows)
      ensures end.NotFound? <==> forall i: nat :: !Names(old(rows), ref, i)
      ensures end.Changed? ==>
                && Names(old(rows), ref, end.id) && |rows| == |old(rows)|
                && rows[end.id] == old(rows)[end.id].(status := status)
                && forall i :: 0 <= i < |rows| && i != end.id ==> rows[i] == old(rows)[i]
      ensures !end.Changed? ==> rows == old(rows)
      ensures end.Changed? <==> exists i: nat :: Names(old(rows), ref, i) && old(rows)[i].status in LeadingTo(status)
      ensures end.InvalidTransition? ==> exists i: nat :: Names(old(rows), ref, i) && old(rows)[i].status == end.was
    {
      hide Consistent, Evolves, Find;
      ConsistentRows(rows, edges);
      FindNames(rows, ref);
      Unchanged(rows);
      var found := Find(rows, ref);
      FindInRange(rows, ref);
      if found.None? {
        return NotFound;
      }
      var was := rows[found.value].status;
      if !Allowed(was, status) {
        return InvalidTransition(was);
      }
      StatusKeeps(rows, edges, found.value, status);
      rows := StatusChanged(rows, found.value, status);
      return Changed(found.value);
    }

    /** Mirrors a gate's decision onto its artifact: an artifact that already has the status will do,
        one that cannot take it refuses the decision. */
    method MirrorDecision(id: nat, decision: Status) returns (accepted: bool)
      requires Consistent(rows, edges) && (decision.Approved? || decision.Rejected?)
      modifies this`rows
      ensures Consistent(rows, edges) && Evolves(old(rows), rows)
      ensures accepted <==> id < |old(rows)| && old(rows)[id].status in {Proposed, decision}
      ensures accepted ==> |rows| == |old(rows)| && rows == StatusChanged(old(rows), id, decision)
      ensures !accepted ==> rows == old(rows)
    {
      hide Consistent, Evolves;
      var end := SetStatus(ById(id), decision);
      accepted := match end
        case Changed(_) => true
        case NotFound => false
        case InvalidTransition(was) => was == decision;
    }
  }

  /** The new row is derived from exactly the parents given and supersedes exactly the key's latest
      row so far; every edge there was is still there. */
  ghost predicate IsLinked(rows: seq<Row>, edges: set<Edge>, edges': set<Edge>, key: string, parents: seq<nat>) {
    && (forall p :: p in parents ==> Edge(|rows|, p, DerivedFrom) in edges')
    && (forall i: nat :: IsLatest(rows, key, i) ==> Edge(|rows|, i, Supersedes) in edges')
    && (forall e :: e in edges ==> e in edges')
    && (forall e :: e in edges' && e !in edges ==>
          && e.source == |rows|
          && ((e.relation.DerivedFrom? && e.target in parents)
              || (e.relation.Supersedes? && IsLatest(rows, key, e.target))))
  }

  /** The key's newest row that is not rejected. */
  ghost predicate IsLatest(rows: seq<Row>, key: string, i: nat) {
    && i < |rows| && rows[i].key == key && rows[i].status != Rejected
    && forall j :: i < j < |rows| && rows[j].key == key ==> rows[j].status == Rejected
  }

  /** One row more, a version above all others of the key; of the rows before only the key's latest
      changed, to superseded. */
  ghost predicate IsNewVersion(rows: seq<Row>, rows': seq<Row>, key: string, content: string, status: Status) {
    && |rows'| == |rows| + 1
    && Last(rows').key == key && Last(rows').content == content && Last(rows').status == status
    && (forall i :: 0 <= i < |rows| && rows[i].key == key ==> rows[i].version < Last(rows').version)
    && forall i :: 0 <= i < |rows| ==>
         rows'[i] == if IsLatest(rows, key, i) then rows[i].(status := Superseded) else rows[i]
  }

  lemma LatestMeans(rows: seq<Row>, key: string)
    ensures forall i: nat :: IsLatest(rows, key, i) <==> Latest(rows, key) == Some(i)
  {
  }

  lemma NewEdgesLink(rows: seq<Row>, edges: set<Edge>, key: string, parents: seq<nat>)
    ensures IsLinked(rows, edges, edges + NewEdges(rows, key, parents), key, parents)
  {
    hide IsLatest, LatestBelow;
    LatestMeans(rows, key);
  }

  lemma NewVersionRows(rows: seq<Row>, edges: set<Edge>, key: string, content: string, status: Status)
    requires Consistent(rows, edges)
    ensures IsNewVersion(rows, Closed(rows, key) + [Row(key, CountOf(rows, key, |rows|) + 1, content, status)], key,
              content, status)
  {
    hide IsLatest, LatestBelow, CountOf, SupersedesRight;
    LatestMeans(rows, key);
    VersionsAreGapless(rows, key);
    LatestIsRow(rows, key);
  }

  /** Whatever bound the query has, the lineage of a new version shows its parents and the row it
      supersedes. */
  lemma ParentsAreListed(rows: seq<Row>, edges: set<Edge>, edges': set<Edge>, key: string, parents: seq<nat>,
      table: seq<Edge>, graph: Graph, maxDepth: int)
    requires IsLinked(rows, edges, edges', key, parents)
    requires (forall e :: e in table <==> e in edges') && IsQueried(table, graph, maxDepth) && graph.root == |rows|
    ensures forall p :: p in parents ==> p in graph.nodes
    ensures forall i: nat :: IsLatest(rows, key, i) ==> i in graph.nodes
  {
    hide IsLatest;
    forall p: nat, relation | Edge(|rows|, p, relation) in edges' ensures p in graph.nodes {
      var e := Edge(|rows|, p, relation);
      FirstStep(table, |rows|, Up, e);
      assert OnWalk(table, |rows|, Up, e, Depth(maxDepth));
    }
  }

  /** The new row goes in before its predecessor is superseded. */
  lemma InsertedThenClosed(rows: seq<Row>, key: string, row: Row)
    ensures match Latest(rows, key)
            case Some(i) => i < |rows| && StatusChanged(rows + [row], i, Superseded) == Closed(rows, key) + [row]
            case None => rows + [row] == Closed(rows, key) + [row]
    ensures |Closed(rows, key)| == |rows|
  {
  }

  lemma LatestStep(rows: seq<Row>, key: string, i: nat)
    requires i <= |rows|
    ensures i == 0 ==> LatestBelow(rows, key, i).None?
    ensures i < |rows| ==>
              LatestBelow(rows, key, i + 1) == if IsLive(rows[i], key) then Some(i) else LatestBelow(rows, key, i)
    ensures LatestBelow(rows, key, i).Some? ==> IsLive(rows[LatestBelow(rows, key, i).value], key)
  {
  }

  lemma LaterIsHigher(rows: seq<Row>, i: nat, j: nat)
    requires Versioned(rows) && i < j < |rows| && rows[i].key == rows[j].key
    ensures rows[i].version < rows[j].version
  {
    CountGrows(rows, rows[i].key, i, j);
  }

  lemma ConsistentRows(rows: seq<Row>, edges: set<Edge>)
    requires Consistent(rows, edges)
    ensures Versioned(rows) && Evolves(rows, rows)
  {
  }

  lemma Unchanged(rows: seq<Row>)
    ensures Evolves(rows, rows)
  {
  }

  lemma NewestIsLatest(rows: seq<Row>, key: string)
    requires rows != []
    ensures IsLive(Last(rows), key) ==> Latest(rows, key) == Some(|rows| - 1)
  {
  }

  /** The statuses each status can be reached from. */
  function LeadingTo(status: Status): set<Status> {
    match status
    case Draft => {}
    case Proposed => {Draft}
    case Approved => {Proposed}
    case Rejected => {Proposed}
    case Superseded => {Draft, Proposed, Approved}
  }

  /** A reference names a row by its id, by key and version, or by its key as the newest row that is
      not rejected. */
  ghost predicate Names(rows: seq<Row>, ref: ParsedRef, i: nat) {
    i < |rows| &&
    match ref
    case ById(id) => i == id
    case ByKey(key, Some(version)) => rows[i].key == key && rows[i].version == version
    case ByKey(key, None) => IsLatest(rows, key, i)
  }

  lemma FindNames(rows: seq<Row>, ref: ParsedRef)
    requires Versioned(rows)
    ensures forall i: nat :: Names(rows, ref, i) <==> Find(rows, ref) == Some(i)
  {
    hide IsLatest, LatestBelow, CountOf, Versioned;
    match ref
    case ById(_) =>
    case ByKey(key, Some(version)) =>
      FoundVersion(rows, key, version, |rows|);
      forall i: nat | Names(rows, ref, i) ensures Find(rows, ref) == Some(i) {
        VersionFound(rows, i, |rows|);
      }
    case ByKey(key, None) =>
      LatestMeans(rows, key);
      LatestIsRow(rows, key);
  }

  lemma {:induction false} FoundVersion(rows: seq<Row>, key: string, version: nat, n: nat)
    requires n <= |rows|
    ensures var found := FindVersion(rows, key, version, n);
            found.Some? ==> found.value < n && rows[found.value].key == key && rows[found.value].version == version
  {
    if n > 0 {
      FoundVersion(rows, key, version, n - 1);
    }
  }

  lemma FindInRange(rows: seq<Row>, ref: ParsedRef)
    ensures Find(rows, ref).Some? ==> Find(rows, ref).value < |rows|
  {
    if ref.ByKey? && ref.version.Some? {
      FoundVersion(rows, ref.key, ref.version.value, |rows|);
    }
  }
}
