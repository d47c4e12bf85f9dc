/** The task queue: claims, heartbeats, reaping, wakes and releases as updates of one table, and
    what holds over every history of them. */
module Queue {
  import opened Prelude
  import opened Tables

  type Worker = string

  datatype QueueRow = QueueRow(availableAt: int, claimedBy: Option<Worker>, heartbeatAt: Option<int>, attempts: nat)

  type Rows = map<RunId, QueueRow>

  /** One committed statement. A claim carries the rows other transactions hold locked, which it
      skips, and the run it returned. */
  datatype Op =
    | Claim(worker: Worker, now: int, locked: set<RunId>, taken: Option<RunId>)
    | Heartbeat(run: RunId, worker: Worker, now: int)
    | Reap(olderThan: int, now: int)
    | Upsert(run: RunId, now: int)
    | Release(run: RunId, owner: Option<Worker>)

  // ----- one statement -----

  predicate IsClaimable(rows: Rows, run: RunId, now: int, locked: set<RunId>) {
    run in rows && rows[run].claimedBy.None? && rows[run].availableAt <= now && run !in locked
  }

  /** The row is nobody's and its time has come. */
  predicate IsDue(row: QueueRow, now: int) {
    row.claimedBy.None? && row.availableAt <= now
  }

  /** The most overdue claimable row, or none when there is none. */
  ghost predicate IsPick(rows: Rows, now: int, locked: set<RunId>, taken: Option<RunId>) {
    match taken
    case None => forall run :: !IsClaimable(rows, run, now, locked)
    case Some(run) =>
      && IsClaimable(rows, run, now, locked)
      && forall other :: IsClaimable(rows, other, now, locked) ==> rows[run].availableAt <= rows[other].availableAt
  }

  ghost predicate Valid(rows: Rows, op: Op) {
    op.Claim? ==> IsPick(rows, op.now, op.locked, op.taken)
  }

  predicate IsStale(row: QueueRow, olderThan: int, now: int) {
    row.claimedBy.Some? && (row.heartbeatAt.None? || row.heartbeatAt.value < now - olderThan)
  }

  function Claimed(row: QueueRow, worker: Worker, now: int): QueueRow {
    row.(claimedBy := Some(worker), heartbeatAt := Some(now), attempts := row.attempts + 1)
  }

  function Freed(row: QueueRow, now: int): QueueRow {
    row.(claimedBy := None, heartbeatAt := None, availableAt := now)
  }

  predicate Releases(rows: Rows, run: RunId, worker: Option<Worker>) {
    run in rows && (worker.Some? ==> rows[run].claimedBy == worker)
  }

  function Apply(rows: Rows, op: Op): Rows {
    match op
    case Claim(worker, now, _, taken) =>
      if taken.Some? && taken.value in rows then rows[taken.value := Claimed(rows[taken.value], worker, now)] else rows
    case Heartbeat(run, worker, now) =>
      if run in rows && rows[run].claimedBy == Some(worker) then rows[run := rows[run].(heartbeatAt := Some(now))]
          else rows
    case Reap(olderThan, now) =>
      map run | run in rows :: if IsStale(rows[run], olderThan, now) then Freed(rows[run], now) else rows[run]
    case Upsert(run, now) =>
      rows[run := if run in rows then Freed(rows[run], now) else QueueRow(now, None, None, 0)]
    case Release(run, worker) =>
      if Releases(rows, run, worker) then rows - {run} else rows
  }

  // ----- histories -----

  ghost predicate Runs(ops: seq<Op>) {
    ops == [] || (Runs(Front(ops)) && Valid(After(Front(ops)), Last(ops)))
  }

  /** The table after a history that began empty. */
  function After(ops: seq<Op>): Rows {
    if ops == [] then map[] else Apply(After(Front(ops)), Last(ops))
  }

  predicate Takes(op: Op, run: RunId) {
    op.Claim? && op.taken == Some(run)
  }

  /** The statement re-enqueues the run, reaps its claim or removes its row. */
  predicate Frees(rows: Rows, op: Op, run: RunId) {
    match op
    case Upsert(r, _) => r == run
    case Reap(olderThan, now) => run in rows && IsStale(rows[run], olderThan, now)
    case Release(r, worker) => r == run && Releases(rows, run, worker)
    case _ => false
  }

  /** The worker took the run and nothing has freed it since. */
  ghost predicate HeldBy(ops: seq<Op>, run: RunId, worker: Worker) {
    ops != [] &&
    if Takes(Last(ops), run) then Last(ops).worker == worker
    else HeldBy(Front(ops), run, worker) && !Frees(After(Front(ops)), Last(ops), run)
  }

  /** A row names a worker exactly when that worker took the run and nothing freed it since. */
  lemma {:induction false} ClaimIsHeld(ops: seq<Op>, run: RunId, worker: Worker)
    requires Runs(ops)
    ensures run in After(ops) && After(ops)[run].claimedBy == Some(worker) <==> HeldBy(ops, run, worker)
  {
    if ops != [] {
      ClaimIsHeld(Front(ops), run, worker);
    }
  }

  /** A claim and a heartbeat come and go together. */
  lemma {:induction false} ClaimsBeat(ops: seq<Op>, run: RunId)
    requires Runs(ops) && run in After(ops)
    ensures After(ops)[run].claimedBy.None? <==> After(ops)[run].heartbeatAt.None?
  {
    if run in After(Front(ops)) {
      ClaimsBeat(Front(ops), run);
    }
  }

  /** No run is taken while anyone holds it. */
  lemma TakenWhenFree(ops: seq<Op>, op: Op, run: RunId, worker: Worker)
    requires Runs(ops + [op]) && Takes(op, run)
    ensures !HeldBy(ops, run, worker)
  {
    assert Front(ops + [op]) == ops;
    ClaimIsHeld(ops, run, worker);
  }

  lemma {:induction false} StillHeld(ops: seq<Op>, i: nat, j: nat, run: RunId)
    requires i < j <= |ops| && Runs(ops[..j]) && Takes(ops[i], run)
    requires forall k :: i < k < j ==> !Frees(After(ops[..k]), ops[k], run)
    ensures exists worker :: HeldBy(ops[..j], run, worker)
    decreases j
  {
    var prefix := ops[..j];
    assert Front(prefix) == ops[..j - 1] && Last(prefix) == ops[j - 1];
    if Takes(ops[j - 1], run) {
      assert HeldBy(prefix, run, ops[j - 1].worker);
    } else {
      StillHeld(ops, i, j - 1, run);
      var worker :| HeldBy(ops[..j - 1], run, worker);
      assert HeldBy(prefix, run, worker);
    }
  }

  lemma {:induction false} RunsPrefix(ops: seq<Op>, n: nat)
    requires Runs(ops) && n <= |ops|
    ensures Runs(ops[..n])
  {
    if n < |ops| {
      RunsPrefix(Front(ops), n);
      assert Front(ops)[..n] == ops[..n];
    } else {
      assert ops[..n] == ops;
    }
  }

  /** Between two claims of a run it was re-enqueued, reaped or its row removed. */
  lemma ClaimsAreSeparated(ops: seq<Op>, i: nat, j: nat, run: RunId)
    requires Runs(ops) && i < j < |ops| && Takes(ops[i], run) && Takes(ops[j], run)
    ensures exists k :: i < k < j && Frees(After(ops[..k]), ops[k], run)
  {
    hide Frees, After, Runs, HeldBy;
    if forall k :: i < k < j ==> !Frees(After(ops[..k]), ops[k], run) {
      RunsPrefix(ops, j);
      RunsPrefix(ops, j + 1);
      StillHeld(ops, i, j, run);
      var worker :| HeldBy(ops[..j], run, worker);
      assert ops[..j + 1] == ops[..j] + [ops[j]];
      TakenWhenFree(ops[..j], ops[j], run, worker);
    }
  }

  /** A worker's own release removes the row exactly when nothing has freed the run since that
      worker took it: a wake in between is never eaten. */
  lemma ReleaseEatsNoWake(ops: seq<Op>, run: RunId, worker: Worker)
    requires Runs(ops)
    ensures run in After(ops) && run !in After(ops + [Release(run, Some(worker))]) <==> HeldBy(ops, run, worker)
  {
    assert Front(ops + [Release(run, Some(worker))]) == ops;
    ClaimIsHeld(ops, run, worker);
  }

  // ----- the statements in place -----

  class TaskQueue {
    var rows: Rows

    method ClaimOne(worker: Worker, now: int, locked: set<RunId>) returns (taken: Option<RunId>)
      modifies this
      ensures Valid(old(rows), Claim(worker, now, locked, taken))
      ensures rows == Apply(old(rows), Claim(worker, now, locked, taken))
      ensures forall run :: run in old(rows) && run !in locked && IsDue(old(rows)[run], now) ==>
                taken.Some? && taken.value in old(rows)
                    && old(rows)[taken.value].availableAt <= old(rows)[run].availableAt
      ensures match taken
              case None => rows == old(rows)
              case Some(run) =>
                && run in old(rows) && run !in locked && IsDue(old(rows)[run], now)
                && var row := old(rows)[run];
                   rows == old(rows)[run := QueueRow(row.availableAt, Some(worker), Some(now), row.attempts + 1)]
    {
      taken := None;
      var todo := rows.Keys;
      while todo != {}
        invariant rows == old(rows)
        invariant todo <= rows.Keys
        invariant taken.Some? ==> IsClaimable(rows, taken.value, now, locked)
        invariant forall run :: run !in todo && IsClaimable(rows, run, now, locked) ==>
                    taken.Some? && rows[taken.value].availableAt <= rows[run].availableAt
      {
        var run :| run in todo;
        todo := todo - {run};
        if IsClaimable(rows, run, now, locked) && (taken.None?
            || rows[run].availableAt < rows[taken.value].availableAt) {
          taken := Some(run);
        }
      }
      if taken.Some? {
        rows := rows[taken.value := Claimed(rows[taken.value], worker, now)];
      }
    }

    method Heartbeat(run: RunId, worker: Worker, now: int) returns (beaten: bool)
      modifies this
      ensures rows == Apply(old(rows), Op.Heartbeat(run, worker, now))
      ensures beaten <==> run in old(rows) && old(rows)[run].claimedBy == Some(worker)
      ensures rows == if beaten then old(rows)[run := old(rows)[run].(heartbeatAt := Some(now))] else old(rows)
    {
      beaten := run in rows && rows[run].claimedBy == Some(worker);
      if beaten {
        rows := rows[run := rows[run].(heartbeatAt := Some(now))];
      }
    }

    method ReapStale(olderThan: int, now: int) returns (reaped: set<RunId>)
      modifies this
      ensures rows == Apply(old(rows), Reap(olderThan, now))
      ensures reaped == set run | run in old(rows) && IsStale(old(rows)[run], olderThan, now)
      ensures forall run :: run in reaped <==>
                && run in old(rows) && old(rows)[run].claimedBy.Some?
                && (old(rows)[run].heartbeatAt.None? || old(rows)[run].heartbeatAt.value + olderThan < now)
      ensures rows.Keys == old(rows).Keys && forall run :: run in rows ==>
                rows[run] == if run in reaped then QueueRow(now, None, None, old(rows)[run].attempts)
                             else old(rows)[run]
    {
      reaped := {};
      var todo := rows.Keys;
      while todo != {}
        invariant todo <= rows.Keys == old(rows).Keys
        invariant reaped == set run | run in old(rows) && run !in todo && IsStale(old(rows)[run], olderThan, now)
        invariant forall run :: run in rows ==>
                    rows[run] == if run in reaped then Freed(old(rows)[run], now) else old(rows)[run]
      {
        var run :| run in todo;
        todo := todo - {run};
        if IsStale(rows[run], olderThan, now) {
          rows := rows[run := Freed(rows[run], now)];
          reaped := reaped + {run};
        }
      }
    }

    method UpsertTaskQueue(run: RunId, now: int)
      modifies this
      ensures rows == Apply(old(rows), Upsert(run, now))
      ensures rows == old(rows)[run := QueueRow(now, None, None,
                                                if run in old(rows) then old(rows)[run].attempts else 0)]
    {
      if run in rows {
        rows := rows[run := rows[run].(availableAt := now, claimedBy := None, heartbeatAt := None)];
      } else {
        rows := rows[run := QueueRow(now, None, None, 0)];
      }
    }

    method Release(run: RunId, worker: Option<Worker>) returns (deleted: bool)
      modifies this
      ensures rows == Apply(old(rows), Op.Release(run, worker))
      ensures deleted <==> run in old(rows) && run !in rows
      ensures deleted <==> run in old(rows) && (worker.None? || old(rows)[run].claimedBy == worker)
      ensures rows == if deleted then old(rows) - {run} else old(rows)
    {
      deleted := Releases(rows, run, worker);
      if deleted {
        rows := rows - {run};
      }
    }
  }
}
