/** Artifact rows and edges as values: which row is a key's latest, and the supersedes structure
    every store operation keeps. A row's id is its position in creation order. */
module Artifacts {
  import opened Prelude
  import opened Keys

  datatype Status = Draft | Proposed | Approved | Rejected | Superseded

  datatype Relation = DerivedFrom | Supersedes | Informs | Implements | Reviews

  datatype Row = Row(key: string, version: nat, content: string, status: Status)

  datatype Edge = Edge(source: nat, target: nat, relation: Relation)

  predicate Allowed(was: Status, becomes: Status) {
    || (was.Draft? && (becomes.Proposed? || becomes.Superseded?))
    || (was.Proposed? && (becomes.Approved? || becomes.Rejected? || becomes.Superseded?))
    || (was.Approved? && becomes.Superseded?)
  }

  // ----- versions -----

  /** How many of the first `n` rows belong to the key. */
  function CountOf(rows: seq<Row>, key: string, n: nat): (c: nat)
    requires n <= |rows|
    ensures c <= n
  {
    if n == 0 then 0 else CountOf(rows, key, n - 1) + (if rows[n - 1].key == key then 1 else 0)
  }

  /** Versions count a key's rows in creation order. */
  ghost predicate Versioned(rows: seq<Row>) {
    forall i :: 0 <= i < |rows| ==> rows[i].version == CountOf(rows, rows[i].key, i) + 1
  }

  lemma {:induction false} CountGrows(rows: seq<Row>, key: string, m: nat, n: nat)
    requires m <= n <= |rows|
    ensures CountOf(rows, key, m) <= CountOf(rows, key, n)
    ensures m < n && rows[m].key == key ==> CountOf(rows, key, m) < CountOf(rows, key, n)
  {
    if m < n {
      CountGrows(rows, key, m, n - 1);
    }
  }

  lemma {:induction false} CountOfPrefix(rows: seq<Row>, more: seq<Row>, key: string, n: nat)
    requires n <= |rows| <= |more| && forall i :: 0 <= i < |rows| ==> more[i].key == rows[i].key
    ensures CountOf(more, key, n) == CountOf(rows, key, n)
  {
    if n > 0 {
      CountOfPrefix(rows, more, key, n - 1);
    }
  }

  lemma {:induction false} RowOfVersion(rows: seq<Row>, key: string, v: nat, n: nat) returns (i: nat)
    requires n <= |rows| && 1 <= v <= CountOf(rows, key, n)
    ensures i < n && rows[i].key == key && CountOf(rows, key, i) + 1 == v
  {
    if rows[n - 1].key == key && CountOf(rows, key, n - 1) + 1 == v {
      i := n - 1;
    } else {
      i := RowOfVersion(rows, key, v, n - 1);
    }
  }

  ghost predicate HasVersion(rows: seq<Row>, key: string, v: int) {
    exists i :: 0 <= i < |rows| && rows[i].key == key && rows[i].version == v
  }

  /** A key's versions are exactly 1 to its number of rows, each held by one row. */
  lemma VersionsAreGapless(rows: seq<Row>, key: string)
    requires Versioned(rows)
    ensures forall v :: HasVersion(rows, key, v) <==> 1 <= v <= CountOf(rows, key, |rows|)
    ensures forall i :: 0 <= i < |rows| && rows[i].key == key ==> 1 <= rows[i].version <= CountOf(rows, key, |rows|)
    ensures forall i, j :: 0 <= i < j < |rows| && rows[i].key == key && rows[j].key == key ==>
              rows[i].version < rows[j].version
  {
    forall v: int | 1 <= v <= CountOf(rows, key, |rows|) ensures HasVersion(rows, key, v) {
      var i := RowOfVersion(rows, key, v, |rows|);
      assert rows[i].key == key && rows[i].version == v;
    }
    forall i | 0 <= i < |rows| && rows[i].key == key ensures rows[i].version <= CountOf(rows, key, |rows|) {
      CountGrows(rows, key, i, |rows|);
    }
    forall i, j | 0 <= i < j < |rows| && rows[i].key == key && rows[j].key == key
        ensures rows[i].version < rows[j].version {
      CountGrows(rows, key, i, j);
    }
  }

  // ----- the latest row -----

  predicate IsLive(row: Row, key: string) {
    row.key == key && !row.status.Rejected?
  }

  /** The latest non-rejected row of the key among the first `n`. */
  function LatestBelow(rows: seq<Row>, key: string, n: nat): (r: Option<nat>)
    requires n <= |rows|
    ensures r.Some? ==> r.value < n && IsLive(rows[r.value], key)
    ensures forall i :: 0 <= i < n && IsLive(rows[i], key) ==> r.Some? && i <= r.value
  {
    if n == 0 then None
    else if IsLive(rows[n - 1], key) then Some(n - 1)
    else LatestBelow(rows, key, n - 1)
  }

  function Latest(rows: seq<Row>, key: string): Option<nat> {
    LatestBelow(rows, key, |rows|)
  }

  // ----- what every operation keeps -----

  /** A row supersedes exactly the latest non-rejected row below it. */
  ghost predicate SupersedesRight(rows: seq<Row>, edges: set<Edge>) {
    forall i: nat, j: nat :: i < |rows| ==>
      (Edge(i, j, Supersedes) in edges <==> LatestBelow(rows, rows[i].key, i) == Some(j))
  }

  /** Once a key has a later row, a row of it is rejected or superseded. */
  ghost predicate OldOnesClosed(rows: seq<Row>) {
    forall i, j :: 0 <= i < j < |rows| && rows[i].key == rows[j].key ==>
        rows[i].status.Rejected? || rows[i].status.Superseded?
  }

  /** Edges lead from later rows to earlier ones. */
  ghost predicate PointsBack(rows: seq<Row>, edges: set<Edge>) {
    forall e :: e in edges ==> e.target < e.source < |rows|
  }

  ghost predicate Consistent(rows: seq<Row>, edges: set<Edge>) {
    Versioned(rows) && SupersedesRight(rows, edges) && OldOnesClosed(rows) && PointsBack(rows, edges)
  }

  /** All non-rejected rows of a key but its latest are superseded. */
  lemma OldOnesSuperseded(rows: seq<Row>, i: nat)
    requires OldOnesClosed(rows) && i < |rows| && !rows[i].status.Rejected? && Latest(rows, rows[i].key) != Some(i)
    ensures rows[i].status.Superseded?
  {
  }

  /** Rows are never removed or rewritten, and their statuses only move along allowed changes:
      a rejected row stays rejected, a superseded one superseded. */
  ghost predicate Evolves(rows: seq<Row>, rows': seq<Row>) {
    && |rows| <= |rows'|
    && forall i :: 0 <= i < |rows| ==>
         && rows'[i].(status := rows[i].status) == rows[i]
         && (rows[i].status.Rejected? ==> rows'[i].status.Rejected?)
         && (rows[i].status.Superseded? ==> rows'[i].status.Superseded?)
  }

  // ----- following the edges -----

  /** A key's non-rejected rows below `n`, newest first. */
  function LiveRows(rows: seq<Row>, key: string, n: nat): (r: seq<nat>)
    requires n <= |rows|
    ensures forall i :: i in r <==> 0 <= i < n && IsLive(rows[i], key)
    ensures r == [] <==> LatestBelow(rows, key, n).None?
    ensures r != [] ==> LatestBelow(rows, key, n) == Some(r[0])
  {
    if n == 0 then []
    else if IsLive(rows[n - 1], key) then [n - 1] + LiveRows(rows, key, n - 1)
    else LiveRows(rows, key, n - 1)
  }

  /** A walk along supersedes edges that ends where none leads on. */
  ghost predicate WalksDown(edges: set<Edge>, path: seq<nat>) {
    && path != []
    && if |path| == 1 then forall j: nat :: Edge(path[0], j, Supersedes) !in edges
       else Edge(path[0], path[1], Supersedes) in edges && WalksDown(edges, path[1..])
  }

  lemma {:induction false} LiveRowsWalk(rows: seq<Row>, edges: set<Edge>, key: string, n: nat)
    requires n <= |rows| && SupersedesRight(rows, edges) && LiveRows(rows, key, n) != []
    ensures WalksDown(edges, LiveRows(rows, key, n))
  {
    hide LatestBelow;
    if IsLive(rows[n - 1], key) {
      var rest := LiveRows(rows, key, n - 1);
      assert LatestBelow(rows, rows[n - 1].key, n - 1) == if rest == [] then None else Some(rest[0]);
      assert LiveRows(rows, key, n)[1..] == rest;
      if rest != [] {
        LiveRowsWalk(rows, edges, key, n - 1);
      }
    } else {
      LiveRowsWalk(rows, edges, key, n - 1);
    }
  }

  lemma {:induction false} LiveRowsDescend(rows: seq<Row>, key: string, n: nat, i: nat, j: nat)
    requires n <= |rows| && i < j < |LiveRows(rows, key, n)|
    ensures LiveRows(rows, key, n)[j] < LiveRows(rows, key, n)[i]
  {
    var path := LiveRows(rows, key, n);
    if !IsLive(rows[n - 1], key) {
      LiveRowsDescend(rows, key, n - 1, i, j);
    } else if i > 0 {
      LiveRowsDescend(rows, key, n - 1, i - 1, j - 1);
    } else {
      assert path[j] == LiveRows(rows, key, n - 1)[j - 1];
      assert path[j] in LiveRows(rows, key, n - 1);
    }
  }

  lemma {:induction false} WalkUnique(rows: seq<Row>, edges: set<Edge>, a: seq<nat>, b: seq<nat>)
    requires SupersedesRight(rows, edges) && PointsBack(rows, edges)
    requires WalksDown(edges, a) && WalksDown(edges, b) && a[0] == b[0] && a[0] < |rows|
    ensures a == b
    decreases |a|
  {
    if |a| > 1 && |b| > 1 {
      WalkUnique(rows, edges, a[1..], b[1..]);
      assert a == [a[0]] + a[1..] && b == [b[0]] + b[1..];
    }
  }

  /** Following the supersedes edges from a key's newest non-rejected row visits exactly its
      non-rejected versions, in descending order, and there is no other walk. */
  lemma SupersedesWalk(rows: seq<Row>, edges: set<Edge>, key: string, path: seq<nat>)
    requires Consistent(rows, edges) && WalksDown(edges, path) && Latest(rows, key) == Some(path[0])
    ensures forall i :: i in path <==> 0 <= i < |rows| && IsLive(rows[i], key)
    ensures forall i, j :: 0 <= i < j < |path| ==>
              path[j] < path[i] < |rows| && rows[path[j]].version < rows[path[i]].version
  {
    LiveRowsWalk(rows, edges, key, |rows|);
    WalkUnique(rows, edges, path, LiveRows(rows, key, |rows|));
    VersionsAreGapless(rows, key);
    forall i, j | 0 <= i < j < |path|
      ensures path[j] < path[i] < |rows| && rows[path[j]].version < rows[path[i]].version
    {
      assert path[i] in path && path[j] in path;
      LiveRowsDescend(rows, key, |rows|, i, j);
    }
  }

  // ----- references -----

  /** The row a parsed reference names. */
  function Find(rows: seq<Row>, ref: ParsedRef): Option<nat> {
    match ref
    case ById(id) => if id < |rows| then Some(id) else None
    case ByKey(key, Some(version)) => FindVersion(rows, key, version, |rows|)
    case ByKey(key, None) => Latest(rows, key)
  }

  function FindVersion(rows: seq<Row>, key: string, version: nat, n: nat): Option<nat>
    requires n <= |rows|
  {
    if n == 0 then None
    else if rows[n - 1].key == key && rows[n - 1].version == version then Some(n - 1)
    else FindVersion(rows, key, version, n - 1)
  }

  lemma {:induction false} VersionFound(rows: seq<Row>, i: nat, n: nat)
    requires Versioned(rows) && i < n <= |rows|
    ensures FindVersion(rows, rows[i].key, rows[i].version, n) == Some(i)
  {
    hide CountOf;
    if i < n - 1 {
      CountGrows(rows, rows[i].key, i, n - 1);
      VersionFound(rows, i, n - 1);
    }
  }

  /** Every row is found again under the address it prints, whatever its key contains. */
  lemma AddressFindsRow(rows: seq<Row>, i: nat, uuidOf: string -> Option<nat>)
    requires Versioned(rows) && i < |rows| && RejectsAt(uuidOf)
    ensures Find(rows, ParseRef(Address(rows[i].key, rows[i].version), uuidOf)) == Some(i)
  {
    AddressRoundTrip(rows[i].key, rows[i].version, uuidOf);
    VersionFound(rows, i, |rows|);
  }

  // ----- what one operation changes -----

  function StatusChanged(rows: seq<Row>, i: nat, status: Status): seq<Row>
    requires i < |rows|
  {
    rows[i := rows[i].(status := status)]
  }

  lemma {:induction false} SameLatest(rows: seq<Row>, rows': seq<Row>, key: string, n: nat)
    requires n <= |rows| && n <= |rows'| && forall i :: 0 <= i < n ==> (IsLive(rows[i], key) <==> IsLive(rows'[i], key))
    ensures LatestBelow(rows', key, n) == LatestBelow(rows, key, n)
  {
    if n > 0 {
      SameLatest(rows, rows', key, n - 1);
    }
  }

  /** Rows that keep their keys, versions and liveness keep the supersedes structure. */
  lemma SameStructure(rows: seq<Row>, edges: set<Edge>, rows': seq<Row>)
    requires Versioned(rows) && SupersedesRight(rows, edges) && |rows'| == |rows|
    requires forall i :: 0 <= i < |rows| ==> rows'[i].key == rows[i].key && rows'[i].version == rows[i].version
    requires forall i, k :: 0 <= i < k < |rows| && rows[i].key == rows[k].key ==>
               rows'[i].status.Rejected? == rows[i].status.Rejected?
    ensures Versioned(rows') && SupersedesRight(rows', edges)
  {
    hide LatestBelow, CountOf;
    forall k: nat | k < |rows|
      ensures CountOf(rows', rows[k].key, k) == CountOf(rows, rows[k].key, k)
      ensures LatestBelow(rows', rows[k].key, k) == LatestBelow(rows, rows[k].key, k)
    {
      CountOfPrefix(rows, rows', rows[k].key, k);
      SameLatest(rows, rows', rows[k].key, k);
    }
  }

  /** An allowed status change keeps every structure. */
  lemma StatusKeeps(rows: seq<Row>, edges: set<Edge>, i: nat, status: Status)
    requires Consistent(rows, edges) && i < |rows| && Allowed(rows[i].status, status)
    ensures Consistent(StatusChanged(rows, i, status), edges) && Evolves(rows, StatusChanged(rows, i, status))
  {
    SameStructure(rows, edges, StatusChanged(rows, i, status));
  }

  /** The rows after a key's latest has been superseded. */
  function Closed(rows: seq<Row>, key: string): seq<Row> {
    match Latest(rows, key)
    case Some(i) => StatusChanged(rows, i, Superseded)
    case None => rows
  }

  function NewEdges(rows: seq<Row>, key: string, parents: seq<nat>): set<Edge> {
    (match Latest(rows, key) case Some(i) => {Edge(|rows|, i, Supersedes)} case None => {})
    + set p | p in parents :: Edge(|rows|, p, DerivedFrom)
  }

  lemma ClosedKeeps(rows: seq<Row>, edges: set<Edge>, key: string)
    requires Consistent(rows, edges)
    ensures Consistent(Closed(rows, key), edges) && Evolves(rows, Closed(rows, key)) && |Closed(rows, key)| == |rows|
    ensures forall i :: 0 <= i < |rows| && rows[i].key == key ==>
              Closed(rows, key)[i].status.Rejected? || Closed(rows, key)[i].status.Superseded?
    ensures Latest(Closed(rows, key), key) == Latest(rows, key)
    ensures CountOf(Closed(rows, key), key, |rows|) == CountOf(rows, key, |rows|)
  {
    hide LatestBelow, CountOf;
    var rows' := Closed(rows, key);
    SameStructure(rows, edges, rows');
    SameLatest(rows, rows', key, |rows|);
    CountOfPrefix(rows, rows', key, |rows|);
  }

  lemma MoreRows(rows: seq<Row>, row: Row, key: string, n: nat)
    requires n <= |rows|
    ensures CountOf(rows + [row], key, n) == CountOf(rows, key, n)
    ensures LatestBelow(rows + [row], key, n) == LatestBelow(rows, key, n)
  {
    CountOfPrefix(rows, rows + [row], key, n);
    SameLatest(rows, rows + [row], key, n);
  }

  lemma NewRowCounts(rows: seq<Row>, row: Row)
    requires Versioned(rows) && row.version == CountOf(rows, row.key, |rows|) + 1
    ensures Versioned(rows + [row])
  {
    hide CountOf;
    forall k | 0 <= k <= |rows| ensures (rows + [row])[k].version == CountOf(rows + [row], (rows + [row])[k].key,
        k) + 1 {
      MoreRows(rows, row, (rows + [row])[k].key, k);
    }
  }

  lemma NewRowSupersedes(rows: seq<Row>, edges: set<Edge>, row: Row, parents: seq<nat>)
    requires SupersedesRight(rows, edges) && PointsBack(rows, edges)
    ensures SupersedesRight(rows + [row], edges + NewEdges(rows, row.key, parents))
  {
    hide LatestBelow;
    var edges' := edges + NewEdges(rows, row.key, parents);
    forall i: nat, j: nat | i <= |rows|
      ensures Edge(i, j, Supersedes) in edges' <==> LatestBelow(rows + [row], (rows + [row])[i].key, i) == Some(j)
    {
      MoreRows(rows, row, (rows + [row])[i].key, i);
      assert i == |rows| ==> Edge(i, j, Supersedes) !in edges;
    }
  }

  /** A new version keeps every structure. */
  lemma CreateKeeps(rows: seq<Row>, edges: set<Edge>, key: string, content: string, status: Status, parents: seq<nat>)
    requires Consistent(rows, edges) && forall p :: p in parents ==> p < |rows|
    ensures var rows' := Closed(rows, key) + [Row(key, CountOf(rows, key, |rows|) + 1, content, status)];
            Consistent(rows', edges + NewEdges(rows, key, parents)) && Evolves(rows, rows')
  {
    hide CountOf, Versioned, SupersedesRight, LatestBelow;
    var closed := Closed(rows, key);
    var row := Row(key, CountOf(rows, key, |rows|) + 1, content, status);
    ClosedKeeps(rows, edges, key);
    NewRowCounts(closed, row);
    NewRowSupersedes(closed, edges, row, parents);
    LatestIsRow(rows, key);
  }

  lemma LatestIsRow(rows: seq<Row>, key: string)
    ensures Latest(rows, key).Some? ==> Latest(rows, key).value < |rows|
  {
  }
}
