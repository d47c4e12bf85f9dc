/** Passes over completed runs, and over runs whose pinned version is not registered, as runs of the
    transition system. */
module SealedRuns {
  import opened Prelude
  import opened Keys
  import opened Events
  import opened Program
  import opened Durable
  import opened DurableTheorems
  import opened Tables
  import opened Settle
  import opened Frontier
  import opened Commits
  import opened LiveSteps
  import opened Refinement
  import opened Simulation
  import Engine
  import ReplayEnds

  // ----- a replay -----

  /** The first `n` steps of the await after `h` have been remembered. */
  function Hitting(s: Sys, seen: Log, h: History, values: seq<Value>, n: nat): Sys {
    s.(pass := Some(Pass(seen, h, seq(|values|, i => if 0 <= i < n && i < |values| then Done(values[i]) else Todo))))
  }

  lemma {:induction false} ListHits(body: Body, s0: Sys, s: Sys, seen: Log, h: History, values: seq<Value>, n: nat)
    requires Leads(body, s0, AtAwait(body, s, seen, h)) && Receives(body, seen, h, values) && n <= |values|
    ensures Leads(body, s0, Hitting(s, seen, h, values, n))
  {
    hide Leads, KeysAt, Recorded;
    if n == 0 {
      assert Enter(body, h) == Hitting(s, seen, h, values, 0).pass.value.branches;
    } else {
      ListHits(body, s0, s, seen, h, values, n - 1);
      var m := Hitting(s, seen, h, values, n - 1);
      LeadsOn(body, s0, m, Hit(n - 1));
      assert m.pass.value.branches[n - 1 := Done(values[n - 1])] == Hitting(s, seen, h, values, n).pass.value.branches;
    }
  }

  lemma ListAdvances(body: Body, s0: Sys, s: Sys, seen: Log, h: History, values: seq<Value>)
    requires Leads(body, s0, AtAwait(body, s, seen, h)) && Receives(body, seen, h, values)
    ensures Leads(body, s0, AtAwait(body, s, seen, h + [values]))
  {
    hide Leads, KeysAt, Recorded, Enter;
    ListHits(body, s0, s, seen, h, values, |values|);
    var m := Hitting(s, seen, h, values, |values|);
    assert Values(m.pass.value) == values;
    LeadsOn(body, s0, m, Advance);
  }

  /** A pass gets, by remembered steps alone, wherever the log leads its body, parallel lists included. */
  lemma {:induction false} ReplayLeads(body: Body, s0: Sys, h: History)
    requires s0.pass.None? && !WasCancelled(s0.log) && Replays(body, s0.log, h)
    ensures Leads(body, s0, AtAwait(body, s0, s0.log, h))
    decreases |h|
  {
    hide Leads, Receives, WasCancelled;
    if h == [] {
      LeadsNowhere(body, s0);
      LeadsOn(body, s0, s0, Begin);
    } else {
      ReplayLeads(body, s0, Front(h));
      ListAdvances(body, s0, s0, s0.log, Front(h), Last(h));
      assert h == Front(h) + [Last(h)];
    }
  }

  // ----- what such passes leave -----

  /** The final event of a run, or a pass cut before it, from wherever its pass stands. */
  lemma RecordedEnd(body: Body, s: Sys, m: Sys, t: Tables, t': Tables, run: RunId, step: Step, e: Event)
    returns (s': Sys)
    requires Simulated(body, s, t, run) && run in t.rows && t.rows[run].parent != Some(run)
    requires Engine.EndedPartly(t, t', run, e) || t' == Engine.EndedTables(t, run, e)
    requires Leads(body, s, m) && Enabled(body, m, step)
    requires var d := Do(body, m, step);
             d.log == s.log + [e] && d.pass.None? && d.armed == s.armed && d.children == s.children
                 && d.invoked == s.invoked
    ensures Simulated(body, s', t', run) && s'.invoked == s.invoked
    ensures t'.LogOf(run) != t.LogOf(run) ==> s' == Do(body, m, step)
  {
    hide Leads, Do, Enabled, Reachable, Mirrors, SameWaits, SourcesAnd, Engine.EndedPartly, Engine.EndedTables;
    hide Tables.LogOf;
    Engine.EndedWaits(t, t', run, e);
    WaitsAreSources(t, t', run);
    MirrorsLog(s, t, run);
    if t'.LogOf(run) == t.LogOf(run) {
      s' := s;
      MirrorsMore(s, t, run, s, t', {}, {});
    } else {
      LeadsOn(body, s, m, step);
      s' := Do(body, m, step);
      LeadsReachable(body, s, s');
      MirrorsMore(s, t, run, s', t', {}, {});
    }
  }

  /** A run whose pinned version is gone: its pass records a failure, however it is cut. */
  lemma OrphanSimulated(body: Body, s: Sys, t: Tables, t': Tables, run: RunId, e: Event) returns (s': Sys)
    requires Simulated(body, s, t, run) && run in t.rows && t.rows[run].parent != Some(run)
    requires !WasCancelled(t.LogOf(run)) && e.RunFailed?
    requires Engine.EndedPartly(t, t', run, e) || t' == Engine.EndedTables(t, run, e)
    ensures Simulated(body, s', t', run) && s'.invoked == s.invoked
  {
    hide Leads, Reachable, Engine.EndedPartly, Engine.EndedTables, WasCancelled;
    LeadsNowhere(body, s);
    s' := RecordedEnd(body, s, s, t, t', run, Orphan(e.error, e.failedStep), e);
  }

  /** It leaves an open run ready for the pass after the version is back. */
  lemma OrphanReady(body: Body, s: Sys, t: Tables, t': Tables, run: RunId, e: Event) returns (s': Sys)
    requires Ready(body, s, t, run) && Engine.IsOpen(t, run) && e.RunFailed?
    requires Engine.EndedPartly(t, t', run, e) || t' == Engine.EndedTables(t, run, e)
    ensures Ready(body, s', t', run)
  {
    hide Simulated, Tidy, Project, RowApplied, Tables.LogOf, SettledPartly, Engine.EndedTables;
    TidyRow(body, t, run);
    s' := OrphanSimulated(body, s, t, t', run, e);
    FailureTidy(body, t, run, e);
    var t1 := Applied(t, run, e);
    TidyRow(body, t1, run);
    if t' == Engine.EndedTables(t, run, e) {
      Engine.EndedFrame(t, run, e);
      Engine.TidySettled(body, t1, t', run);
    } else if SettledPartly(Dequeued(t1, run), t', run) {
      Engine.DequeuedLog(t1, run);
      Engine.PartlySettledElsewhere(Dequeued(t1, run), t', run);
      Engine.TidySettled(body, t1, t', run);
    }
  }

  /** A pass over a completed run: it returns one more time, is refused, or records the exception of
      the body's own, however it is cut. */
  lemma SealedSimulated(body: Body, s: Sys, t: Tables, t': Tables, run: RunId, end: Engine.PassEnd) returns (s': Sys)
    requires Simulated(body, s, t, run) && Engine.IsSealed(t, run) && t.rows[run].parent != Some(run)
    requires Engine.SealedPass(body, run, t, t', end)
    ensures Simulated(body, s', t', run) && s'.invoked == s.invoked
    ensures end == Engine.Reported(Completed) ==>
              exists output :: ReplayEnds.Returns(body, t.LogOf(run), output) && s'.returned == s.returned + [output]
  {
    hide Leads, Reachable, Engine.EndedPartly, Engine.EndedTables, Replays, ReplayEnds.Returns, ReplayEnds.RaisesOn;
    if error, failedStep :|
      && ReplayEnds.RaisesOn(body, t.LogOf(run), error)
      && if end.Died? then Engine.EndedPartly(t, t', run, RunFailed(error, failedStep))
         else t' == Engine.EndedTables(t, run, RunFailed(error, failedStep)) {
      s' := RaisedSimulated(body, s, t, t', run, error, failedStep);
      forall output ensures !ReplayEnds.Returns(body, t.LogOf(run), output) {
        Engine.ReturnsOrRaises(body, t.LogOf(run), output, error);
      }
    } else if output :| ReplayEnds.Returns(body, t.LogOf(run), output) {
      s' := ReturnedSimulated(body, s, t, run, output);
      forall error ensures !ReplayEnds.RaisesOn(body, t.LogOf(run), error) {
        Engine.ReturnsOrRaises(body, t.LogOf(run), output, error);
      }
    } else {
      s' := s;
    }
  }

  lemma RaisedSimulated(body: Body, s: Sys, t: Tables, t': Tables, run: RunId, error: Error, failedStep: Key)
      returns (s': Sys)
    requires Simulated(body, s, t, run) && Engine.IsSealed(t, run) && t.rows[run].parent != Some(run)
    requires ReplayEnds.RaisesOn(body, t.LogOf(run), error)
    requires var e := RunFailed(error, failedStep);
             Engine.EndedPartly(t, t', run, e) || t' == Engine.EndedTables(t, run, e)
    ensures Simulated(body, s', t', run) && s'.invoked == s.invoked
  {
    hide Leads, Reachable, Engine.EndedPartly, Engine.EndedTables, Replays, Project, WasCancelled, KeysAt, InFlight;
    var h :| Replays(body, t.LogOf(run), h) && body(h) == Raise(error);
    MirrorsLog(s, t, run);
    ReplayLeads(body, s, h);
    s' := RecordedEnd(body, s, AtAwait(body, s, s.log, h), t, t', run,
      FailRun(error, failedStep), RunFailed(error, failedStep));
  }

  lemma ReturnedSimulated(body: Body, s: Sys, t: Tables, run: RunId, output: Value) returns (s': Sys)
    requires Simulated(body, s, t, run) && Engine.IsSealed(t, run) && ReplayEnds.Returns(body, t.LogOf(run), output)
    ensures Simulated(body, s', t, run) && s'.invoked == s.invoked && s'.returned == s.returned + [output]
  {
    hide Leads, Reachable, Replays, Project, WasCancelled, KeysAt, InFlight, Results, RequestedBefore;
    var h :| ReplayEnds.EndsAt(body, t.LogOf(run), h, output);
    MirrorsLog(s, t, run);
    ReplayLeads(body, s, h);
    var m := AtAwait(body, s, s.log, h);
    LeadsOn(body, s, m, Finish(None));
    s' := Do(body, m, Finish(None));
    LeadsReachable(body, s, s');
  }
}
