/** What a cancellation does to a tree of runs. */
module Cancel {
  import opened Prelude
  import opened Events
  import opened Tables
  import opened Settle

  datatype CancelResult = Done | UnknownRun | InvalidCancellation(status: RunStatus)

  /** A cascaded reason names the parent and ends with the parent's own. */
  function CascadeReason(parent: RunId, reason: string): (r: string)
    ensures "parent run " + Show(parent) <= r
    ensures |reason| <= |r| && r[|r| - |reason|..] == reason
  {
    "parent run " + Show(parent) + " cancelled: " + reason
  }

  /** The runs a cancellation turned from live to cancelled. */
  ghost function NewlyCancelled(before: Tables, after: Tables): set<RunId> {
    set r | r in before.rows && before.IsLive(r) && r in after.rows && after.rows[r].status == RunStatus.Cancelled
  }

  /** A chain of child links from `root` to `r`, over live runs only. */
  ghost predicate IsChain(t: Tables, path: seq<RunId>) {
    && (forall i :: 0 <= i < |path| ==> t.IsLive(path[i]))
    && (forall i :: 0 < i < |path| ==> t.rows[path[i]].parent == Some(path[i - 1]))
  }

  ghost predicate Reaches(t: Tables, root: RunId, r: RunId) {
    exists path: seq<RunId> :: path != [] && path[0] == root && Last(path) == r && IsChain(t, path)
  }

  /** A run as cancellation leaves it: one new event, no queue row, no timers. */
  ghost predicate IsCancelledRun(before: Tables, after: Tables, r: RunId, actor: string, reason: string) {
    && r in before.rows && r in after.rows
    && after.rows[r] == before.rows[r].(status := RunStatus.Cancelled)
    && after.LogOf(r) == before.LogOf(r) + [RunCancelled(actor, reason)]
    && r !in after.queue && !after.HasTimers(r)
  }

  ghost predicate IsUntouched(before: Tables, after: Tables, r: RunId) {
    && (r in before.rows <==> r in after.rows)
    && (r in before.rows ==> after.rows[r] == before.rows[r])
    && after.LogOf(r) == before.LogOf(r)
    && (r in after.queue <==> r in before.queue)
    && (forall i :: i in before.timers && before.timers[i].run == r ==>
         i in after.timers && after.timers[i] == before.timers[i])
    && (forall i :: i in after.timers && after.timers[i].run == r ==>
         i in before.timers && before.timers[i] == after.timers[i])
  }

  /** The reason a cancelled run got: given for the root, derived from its parent's for the rest. */
  ghost predicate Reasoned(before: Tables, after: Tables, root: RunId, r: RunId, actor: string, reason: string) {
    if r == root then IsCancelledRun(before, after, r, actor, reason)
    else
      && r in before.rows && before.rows[r].parent.Some?
      && var parent := before.rows[r].parent.value;
        && parent in NewlyCancelled(before, after)
        && exists why :: IsCancelledRun(before, after, parent, actor, why)
                         && IsCancelledRun(before, after, r, actor, CascadeReason(parent, why))
  }

  /** The cascade from `root`, but for the settle that follows it: a set of runs reachable from
      the root is cancelled, it leaves no live child behind, and nothing else changes. */
  ghost predicate Cascaded(before: Tables, after: Tables, root: RunId, actor: string, reason: string) {
    var hit := NewlyCancelled(before, after);
    && root in hit
    && (forall r :: r in hit ==> Reaches(before, root, r) && Reasoned(before, after, root, r, actor, reason))
    && (forall r :: r !in hit ==> IsUntouched(before, after, r))
    && (forall c :: after.IsLive(c) && after.rows[c].parent.Some? ==> after.rows[c].parent.value !in hit)
  }

  // ----- exactly the reachable runs -----

  lemma {:induction false} ChainCancelled(before: Tables, after: Tables, root: RunId, actor: string,
      reason: string, path: seq<RunId>)
    requires Cascaded(before, after, root, actor, reason)
    requires path != [] && path[0] == root && IsChain(before, path)
    ensures Last(path) in NewlyCancelled(before, after)
  {
    if |path| > 1 {
      ChainCancelled(before, after, root, actor, reason, Front(path));
      var c, p := Last(path), Last(Front(path));
      assert before.rows[path[|path| - 1]].parent == Some(path[|path| - 2]);
      assert before.IsLive(c) && (c in NewlyCancelled(before, after) || IsUntouched(before, after, c));
    }
  }

  /** Cancelling a run cancels exactly the runs reachable from it through child links over live
      runs. */
  lemma CancelsExactlyReachable(before: Tables, after: Tables, root: RunId, actor: string, reason: string, r: RunId)
    requires Cascaded(before, after, root, actor, reason)
    ensures r in NewlyCancelled(before, after) <==> Reaches(before, root, r)
    ensures !Reaches(before, root, r) ==> IsUntouched(before, after, r)
  {
    if Reaches(before, root, r) {
      var path: seq<RunId> :| path != [] && path[0] == root && Last(path) == r && IsChain(before, path);
      ChainCancelled(before, after, root, actor, reason, path);
    }
  }

  // ----- the settle that follows -----

  /** A settle touches nobody but the child's parent, whose log gets at most one event. */
  lemma SettleTouchesParent(t: Tables, child: RunId)
    ensures forall r :: (child in t.rows && t.rows[child].parent == Some(r)) || IsUntouched(t, Settled(t, child), r)
    ensures forall r :: t.LogOf(r) <= Settled(t, child).LogOf(r) && |Settled(t, child).LogOf(r)| <= |t.LogOf(r)| + 1
    ensures forall r :: !t.IsLive(r) ==> IsUntouched(t, Settled(t, child), r)
  {
  }

  /** A whole cancellation: each run reachable from the root is cancelled with one new event, no
      queue row and no timers; no other run changes but the root's parent, which is settled at
      most once, and not if it is cancelled itself. */
  lemma CancellationEffect(before: Tables, cascaded: Tables, root: RunId, actor: string, reason: string, r: RunId)
    requires Cascaded(before, cascaded, root, actor, reason)
    ensures var after := Settled(cascaded, root);
      && (Reaches(before, root, r) ==> exists why :: IsCancelledRun(before, after, r, actor, why))
      && (!Reaches(before, root, r) ==>
            || IsUntouched(before, after, r)
            || (root in before.rows && before.rows[root].parent == Some(r)
                && before.LogOf(r) <= after.LogOf(r) && |after.LogOf(r)| == |before.LogOf(r)| + 1))
  {
    var after := Settled(cascaded, root);
    CancelsExactlyReachable(before, cascaded, root, actor, reason, r);
    SettleTouchesParent(cascaded, root);
    assert Reasoned(before, cascaded, root, root, actor, reason);
    if Reaches(before, root, r) {
      assert Reasoned(before, cascaded, root, r, actor, reason);
      var why :| IsCancelledRun(before, cascaded, r, actor, why);
      ThenUntouched(before, cascaded, after, r, actor, why);
    } else if IsUntouched(cascaded, after, r) {
      UntouchedTransitive(before, cascaded, after, r);
    } else {
      assert cascaded.rows[root].parent == before.rows[root].parent;
    }
  }

  // ----- how a cascade is put together -----

  lemma ReachesSelf(t: Tables, r: RunId)
    requires t.IsLive(r)
    ensures Reaches(t, r, r)
  {
    var path := [r];
    assert IsChain(t, path) && Last(path) == r;
  }

  /** Runs reachable from a child, over runs that are live later, are reachable from its parent. */
  lemma ReachesThrough(before: Tables, t: Tables, root: RunId, child: RunId, r: RunId)
    requires Reaches(t, child, r) && before.IsLive(root)
    requires forall x :: t.IsLive(x) ==> before.IsLive(x) && before.rows[x].parent == t.rows[x].parent
    requires t.IsLive(child) && t.rows[child].parent == Some(root)
    ensures Reaches(before, root, r)
  {
    var path: seq<RunId> :| path != [] && path[0] == child && Last(path) == r && IsChain(t, path);
    var longer := [root] + path;
    assert Last(longer) == r;
    assert IsChain(before, longer);
  }

  /** Part of the cascade: the root is cancelled, and of its live children those in `todo` remain. */
  ghost predicate Cascading(before: Tables, t: Tables, root: RunId, actor: string, reason: string, todo: set<RunId>) {
    var hit := NewlyCancelled(before, t);
    && root in hit
    && (forall r :: r in hit ==> Reaches(before, root, r) && Reasoned(before, t, root, r, actor, reason))
    && (forall r :: r !in hit ==> IsUntouched(before, t, r))
    && (forall c :: t.IsLive(c) && t.rows[c].parent.Some? && t.rows[c].parent.value in hit ==>
          t.rows[c].parent.value == root && c in todo)
  }

  /** Cancelling one run alone, with all its live children still to do. */
  function CancelledAlone(t: Tables, run: RunId, actor: string, reason: string): Tables {
    var e := RunCancelled(actor, reason);
    Untimed(Dequeued(RowApplied(Appended(t, run, e), run, e), run), run)
  }

  lemma AloneCascading(t: Tables, run: RunId, actor: string, reason: string)
    requires t.IsLive(run)
    ensures var t' := CancelledAlone(t, run, actor, reason);
            Cascading(t, t', run, actor, reason, set c | c in t'.rows && t'.IsLive(c) && t'.rows[c].parent == Some(run))
  {
    var t' := CancelledAlone(t, run, actor, reason);
    ReachesSelf(t, run);
    forall r ensures r in NewlyCancelled(t, t') <==> r == run {
    }
    assert IsCancelledRun(t, t', run, actor, reason);
  }

  /** A run that is live later was live before, and is the same. */
  lemma StillLive(before: Tables, t: Tables, root: RunId, actor: string, reason: string, todo: set<RunId>, x: RunId)
    requires Cascading(before, t, root, actor, reason, todo) && t.IsLive(x)
    ensures before.IsLive(x) && before.rows[x] == t.rows[x] && x !in NewlyCancelled(before, t)
              && IsUntouched(before, t, x)
  {
    assert x !in NewlyCancelled(before, t);
    assert IsUntouched(before, t, x);
  }

  lemma CancelledUnion(before: Tables, t: Tables, t': Tables, root: RunId, child: RunId, actor: string,
      reason: string, todo: set<RunId>)
    requires Cascading(before, t, root, actor, reason, todo)
    requires Cascaded(t, t', child, actor, CascadeReason(root, reason))
    ensures NewlyCancelled(before, t') == NewlyCancelled(before, t) + NewlyCancelled(t, t')
  {
    forall r ensures r in NewlyCancelled(before, t') <==> r in NewlyCancelled(before, t) + NewlyCancelled(t, t') {
      if r in NewlyCancelled(t, t') {
        StillLive(before, t, root, actor, reason, todo, r);
      } else {
        assert IsUntouched(t, t', r);
        if r !in NewlyCancelled(before, t) {
          assert IsUntouched(before, t, r);
        }
      }
    }
  }

  lemma UntouchedTransitive(a: Tables, b: Tables, c: Tables, r: RunId)
    requires IsUntouched(a, b, r) && IsUntouched(b, c, r)
    ensures IsUntouched(a, c, r)
  {
  }

  lemma ThenUntouched(a: Tables, b: Tables, c: Tables, r: RunId, actor: string, reason: string)
    requires IsCancelledRun(a, b, r, actor, reason) && IsUntouched(b, c, r)
    ensures IsCancelledRun(a, c, r, actor, reason)
  {
  }

  lemma UntouchedThen(a: Tables, b: Tables, c: Tables, r: RunId, actor: string, reason: string)
    requires IsUntouched(a, b, r) && IsCancelledRun(b, c, r, actor, reason)
    ensures IsCancelledRun(a, c, r, actor, reason)
  {
  }

  /** Reasons recorded before the child's cascade stay. */
  lemma EarlierReason(before: Tables, t: Tables, t': Tables, root: RunId, child: RunId, actor: string,
      reason: string, todo: set<RunId>, r: RunId)
    requires Cascading(before, t, root, actor, reason, todo)
    requires Cascaded(t, t', child, actor, CascadeReason(root, reason))
    requires r in NewlyCancelled(before, t)
    ensures Reasoned(before, t', root, r, actor, reason)
  {
    CancelledUnion(before, t, t', root, child, actor, reason, todo);
    assert Reasoned(before, t, root, r, actor, reason);
    assert r !in NewlyCancelled(t, t') && IsUntouched(t, t', r);
    if r == root {
      ThenUntouched(before, t, t', r, actor, reason);
    } else {
      var parent := before.rows[r].parent.value;
      assert parent !in NewlyCancelled(t, t') && IsUntouched(t, t', parent);
      var why :| IsCancelledRun(before, t, parent, actor, why)
          && IsCancelledRun(before, t, r, actor, CascadeReason(parent, why));
      ThenUntouched(before, t, t', parent, actor, why);
      ThenUntouched(before, t, t', r, actor, CascadeReason(parent, why));
    }
  }

  /** Reasons recorded by the child's cascade fit into the root's. */
  lemma LaterReason(before: Tables, t: Tables, t': Tables, root: RunId, child: RunId, actor: string,
      reason: string, todo: set<RunId>, r: RunId)
    requires before.IsLive(root) && Cascading(before, t, root, actor, reason, todo)
    requires t.IsLive(child) && t.rows[child].parent == Some(root)
    requires IsCancelledRun(before, t, root, actor, reason)
    requires Cascaded(t, t', child, actor, CascadeReason(root, reason))
    requires r in NewlyCancelled(t, t')
    ensures Reaches(before, root, r) && Reasoned(before, t', root, r, actor, reason)
  {
    CancelledUnion(before, t, t', root, child, actor, reason, todo);
    forall x | t.IsLive(x) ensures before.IsLive(x) && before.rows[x].parent == t.rows[x].parent {
      StillLive(before, t, root, actor, reason, todo, x);
    }
    ReachesThrough(before, t, root, child, r);
    StillLive(before, t, root, actor, reason, todo, r);
    assert Reasoned(t, t', child, r, actor, CascadeReason(root, reason));
    if r == child {
      UntouchedThen(before, t, t', r, actor, CascadeReason(root, reason));
      assert root !in NewlyCancelled(t, t') && IsUntouched(t, t', root);
      ThenUntouched(before, t, t', root, actor, reason);
    } else {
      var parent := t.rows[r].parent.value;
      var why :| IsCancelledRun(t, t', parent, actor, why)
          && IsCancelledRun(t, t', r, actor, CascadeReason(parent, why));
      StillLive(before, t, root, actor, reason, todo, parent);
      UntouchedThen(before, t, t', parent, actor, why);
      UntouchedThen(before, t, t', r, actor, CascadeReason(parent, why));
    }
  }

  /** The live children the root's cascade has still to do. */
  lemma LeftTodo(before: Tables, t: Tables, t': Tables, root: RunId, child: RunId, actor: string, reason: string,
      todo: set<RunId>, c: RunId)
    requires Cascading(before, t, root, actor, reason, todo)
    requires Cascaded(t, t', child, actor, CascadeReason(root, reason))
    requires t'.IsLive(c) && t'.rows[c].parent.Some? && t'.rows[c].parent.value in NewlyCancelled(before, t')
    ensures t'.rows[c].parent.value == root && c in todo - {child}
  {
    CancelledUnion(before, t, t', root, child, actor, reason, todo);
    assert c !in NewlyCancelled(t, t') && IsUntouched(t, t', c);
    assert t'.rows[c].parent.value !in NewlyCancelled(t, t');
  }

  /** One more child's cascade. */
  lemma CascadeChild(before: Tables, t: Tables, t': Tables, root: RunId, child: RunId, actor: string,
      reason: string, todo: set<RunId>)
    requires before.IsLive(root) && Cascading(before, t, root, actor, reason, todo)
    requires t.IsLive(child) && t.rows[child].parent == Some(root)
    requires IsCancelledRun(before, t, root, actor, reason)
    requires Cascaded(t, t', child, actor, CascadeReason(root, reason))
    ensures Cascading(before, t', root, actor, reason, todo - {child})
    ensures IsCancelledRun(before, t', root, actor, reason)
  {
    hide Reasoned, Reaches, IsCancelledRun;
    CancelledUnion(before, t, t', root, child, actor, reason, todo);
    forall r | r in NewlyCancelled(before, t') ensures Reaches(before, root, r)
        && Reasoned(before, t', root, r, actor, reason) {
      if r in NewlyCancelled(t, t') {
        LaterReason(before, t, t', root, child, actor, reason, todo, r);
      } else {
        EarlierReason(before, t, t', root, child, actor, reason, todo, r);
      }
    }
    forall r | r !in NewlyCancelled(before, t') ensures IsUntouched(before, t', r) {
      UntouchedTransitive(before, t, t', r);
    }
    forall c | t'.IsLive(c) && t'.rows[c].parent.Some? && t'.rows[c].parent.value in NewlyCancelled(before, t')
      ensures t'.rows[c].parent.value == root && c in todo - {child}
    {
      LeftTodo(before, t, t', root, child, actor, reason, todo, c);
    }
    assert root !in NewlyCancelled(t, t') && IsUntouched(t, t', root);
    ThenUntouched(before, t, t', root, actor, reason);
  }
}
