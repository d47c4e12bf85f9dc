/** What the passes of the engine amount to: which completed logs replay, how a run's state is kept
    between passes, and what a crash can leave behind for good. */
module EngineTheorems {
  import opened Prelude
  import opened Keys
  import opened Events
  import opened Program
  import opened Tables
  import opened Durable
  import opened DurableSteps
  import opened Frontier
  import opened Commits
  import opened LiveSteps
  import opened ReplayEnds
  import opened Engine

  // ----- sealed replay by keys -----

  /** The keys asked for on the way to `h`: gates, or everything else. */
  function AskedKeys(body: Body, h: History, gates: bool): set<Key>
    decreases |h|
  {
    if h == [] then {}
    else AskedKeys(body, Front(h), gates) + KeysOf(KeysAt(body, Front(h)), CallsAt(body, Front(h)), gates)
  }

  function KeysOf(r: Allocation, calls: seq<Call>, gates: bool): set<Key> {
    if r.Allocated? && |r.keys| == |calls|
    then set i | 0 <= i < |calls| && calls[i].kind.Gate? == gates :: r.keys[i]
    else {}
  }

  lemma {:induction false} AskedKeysSplit(body: Body, log: Log, h: History)
    requires Replays(body, log, h)
    ensures AskedKeys(body, h, true) + AskedKeys(body, h, false) == RequestedBefore(body, h)
    ensures AskedKeys(body, h, true) !! AskedKeys(body, h, false)
    ensures AskedKeys(body, h, false) <= Results(log).Keys && AskedKeys(body, h, true) <= Decisions(log).Keys
    decreases |h|
  {
    if h != [] {
      hide Results, Decisions;
      AskedKeysSplit(body, log, Front(h));
      ReplaysHavePositions(body, log, h);
      var r, calls := KeysAt(body, Front(h)), CallsAt(body, Front(h));
      KeysSplit(log, r, calls, Last(h));
      assert forall k :: k in r.keys ==> k !in RequestedBefore(body, Front(h));
    }
  }

  lemma KeysSplit(log: Log, r: Allocation, calls: seq<Call>, values: seq<Value>)
    requires r.Allocated? && |r.keys| == |calls| == |values| && Distinct(r.keys)
    requires forall i :: 0 <= i < |values| ==> Recorded(log, r.keys[i], calls[i].kind) == Some(values[i])
    ensures KeysOf(r, calls, true) + KeysOf(r, calls, false) == set k | k in r.keys
    ensures KeysOf(r, calls, true) !! KeysOf(r, calls, false)
    ensures KeysOf(r, calls, false) <= Results(log).Keys && KeysOf(r, calls, true) <= Decisions(log).Keys
  {
  }

  /** A completed log replays to a normal return exactly when the steps it completed, gates
      aside, are the steps the body asks for; every gate it asks for is then resolved. */
  lemma SealedReplay(body: Body, log: Log, output: Value)
    ensures ReplayEnds.Returns(body, log, output) <==>
            exists h :: Replays(body, log, h) && body(h) == Return(output)
                        && Results(log).Keys - AskedKeys(body, h, true) == AskedKeys(body, h, false)
    ensures forall h :: EndsAt(body, log, h, output) ==> AskedKeys(body, h, true) <= Decisions(log).Keys
  {
    hide Replays, Results, Decisions, AskedKeys;
    forall h | Replays(body, log, h)
      ensures Results(log).Keys <= RequestedBefore(body, h) <==>
                Results(log).Keys - AskedKeys(body, h, true) == AskedKeys(body, h, false)
      ensures AskedKeys(body, h, true) <= Decisions(log).Keys
    {
      AskedKeysSplit(body, log, h);
    }
    if h: History :| Replays(body, log, h) && body(h) == Return(output)
                     && Results(log).Keys - AskedKeys(body, h, true) == AskedKeys(body, h, false) {
      assert EndsAt(body, log, h, output);
    }
  }

  /** The completed steps are exactly the non-gate steps asked for if and only if no gate key was
      itself completed as a step. */
  lemma SealedReplayExact(body: Body, log: Log, h: History, output: Value)
    requires EndsAt(body, log, h, output)
    ensures AskedKeys(body, h, false) == Results(log).Keys <==> AskedKeys(body, h, true) !! Results(log).Keys
  {
    hide Replays, Results, Decisions, AskedKeys;
    AskedKeysSplit(body, log, h);
  }

  /** A body of one step. */
  function OneStep(call: Call): Body {
    (h: History) => if h == [] then Await([call]) else Return("done")
  }

  lemma OneStepKeys(call: Call)
    ensures var r := KeysAt(OneStep(call), []);
            r.Allocated? && r.keys == [call.name] && CallsAt(OneStep(call), []) == [call]
  {
    var calls := [call];
    assert Front(calls) == [] && Last(calls) == calls[0];
    assert AllocateAll(FRESH, []) == Allocated([], FRESH);
  }

  /** A body that now waits for a gate under the key of a step it once ran. */
  function GateInstead(): Body {
    OneStep(Call("approve", Gate, 1))
  }

  /** The step ran, the body was changed to wait for a gate of that name, and the run completed. */
  function SwappedLog(started: Event, artifact: Uuid): Log {
    [started, StepStarted("approve", Skill), StepCompleted("approve", "{}"), StepStarted("approve", Gate),
     GateOpened("approve", "approve", artifact), GateResolved("approve", "approve", Approved, "me"), RunCompleted(None)]
  }

  lemma SwappedRecords(started: Event, artifact: Uuid)
    requires started.RunStarted?
    ensures var log := SwappedLog(started, artifact);
      && Results(log) == map["approve" := "{}"] && Decisions(log) == map["approve" := "approved"]
      && Project(log).status.Completed? && !WasCancelled(log)
  {
    hide Results, Decisions, Opened, Failures, Completions, Resolutions, Project;
    NothingRecorded();
    var log := SwappedLog(started, artifact);
    var n := 0;
    assert log[..0] == [];
    while n < |log|
      invariant n <= |log|
      invariant Results(log[..n]) == if n < 3 then map[] else map["approve" := "{}"]
      invariant Decisions(log[..n]) == if n < 6 then map[] else map["approve" := "approved"]
      invariant n == |log| ==> Project(log[..n]).status.Completed?
    {
      assert log[..n + 1] == log[..n] + [log[n]];
      AppendCounts(log[..n], log[n]);
      ProjectAppend(log[..n], log[n]);
      n := n + 1;
    }
    assert log[..|log|] == log;
  }

  /** The body returns on that log. */
  lemma SwappedReturns(started: Event, artifact: Uuid)
    requires started.RunStarted?
    ensures var log, h := SwappedLog(started, artifact), [["approved"]];
      && EndsAt(GateInstead(), log, h, "done") && "approve" !in AskedKeys(GateInstead(), h, false)
  {
    var log, h := SwappedLog(started, artifact), [["approved"]];
    var body := GateInstead();
    SwappedRecords(started, artifact);
    OneStepKeys(Call("approve", Gate, 1));
    hide Results, Decisions, KeysAt, CallsAt, SwappedLog;
    assert [] + [["approved"]] == h;
    StartsAt(body, log);
    assert Receives(body, log, [], ["approved"]);
    NextReplay(body, log, [], ["approved"]);
    NextPosition(body, [], ["approved"]);
    RequestedGrows(body, h, 0);
    assert h[..0] == [];
    AskedKeysSplit(body, log, h);
    assert AskedKeys(body, h, true) >= KeysOf(KeysAt(body, []), CallsAt(body, []), true) by {
      assert Front(h) == [];
    }
    assert "approve" in KeysOf(KeysAt(body, []), CallsAt(body, []), true);
  }

  /** A completed run whose step has become a gate under the same key: a sealed pass over it reports
      completion and writes nothing, although its completed step is not one the body asks for. */
  lemma SealedReplayMisses(run: RunId, t0: Tables, t: Tables, end: PassEnd, started: Event, artifact: Uuid)
    requires started.RunStarted? && run in t0.rows && t0.LogOf(run) == SwappedLog(started, artifact)
    requires SealedPass(GateInstead(), run, t0, t, end)
    ensures IsSealed(t0, run) && end == Reported(Completed) && t == t0
    ensures var h := [["approved"]];
            EndsAt(GateInstead(), t0.LogOf(run), h, "done")
                && "approve" in Results(t0.LogOf(run)).Keys - AskedKeys(GateInstead(), h, false)
  {
    hide SwappedLog, Results, Decisions, Project, AskedKeys, EndsAt, RaisesOn, Tables.LogOf;
    SwappedRecords(started, artifact);
    SwappedReturns(started, artifact);
    var log := t0.LogOf(run);
    assert ReplayEnds.Returns(GateInstead(), log, "done");
    forall error ensures !RaisesOn(GateInstead(), log, error) {
      ReturnsOrRaises(GateInstead(), log, "done", error);
    }
  }

  // ----- tidiness across passes and wakes -----

  lemma {:induction false} NotFailedSince(log: Log)
    requires forall e :: e in log ==> e.RunStarted?
    ensures !FailedSince(log)
  {
    if log != [] {
      NotFailedSince(Front(log));
      assert Last(log) in log;
    }
  }

  /** A run that has just been started. */
  lemma StartsTidy(body: Body, t: Tables, run: RunId)
    requires run in t.rows && AllStarts(t.LogOf(run))
    requires t.rows[run].(parent := None) == RunRow(Pending, None, None, None, None) && t.rows[run].parent != Some(run)
    requires !t.HasTimers(run) && (forall key :: ChildRunId(run, key) !in t.rows)
    ensures Tidy(body, t, run) && Synced(t, run)
  {
    StartsRecordNothing(t.LogOf(run));
    NotFailedSince(t.LogOf(run));
    hide Project;
    forall key, kind ensures !Waits(t, run, key, kind) {
    }
  }

  /** What a waker records for the step the run waits on. */
  ghost predicate IsWake(t: Tables, run: RunId, e: Event) {
    || (e.StepCompleted? && (Waits(t, run, e.stepKey, Sleep) || Waits(t, run, e.stepKey, Child)))
    || (e.GateResolved? && Waits(t, run, e.stepKey, Gate))
    || (e.StepFailed? && !e.willRetry && Waits(t, run, e.stepKey, Child))
  }

  /** Every wake leaves the run tidy, at the event as well as after its row update. */
  lemma WakeKeepsTidy(body: Body, t: Tables, run: RunId, e: Event)
    requires Tidy(body, t, run) && IsWake(t, run, e)
    ensures Tidy(body, Appended(t, run, e), run) && Tidy(body, Applied(t, run, e), run)
    ensures EndInSync(t, run) ==> EndInSync(Appended(t, run, e), run) && EndInSync(Applied(t, run, e), run)
  {
    var kind := if e.GateResolved? then Gate else if Waits(t, run, e.stepKey, Child) then Child else Sleep;
    hide Waits, FrontierAt, Project, EndInSync;
    assert Waits(t, run, e.stepKey, kind);
    var h :| FrontierAt(body, t.LogOf(run), h, e.stepKey, kind);
    AppliedSync(t, run, e);
    if e.StepFailed? {
      EventKeeps(body, t, run, h, e.stepKey, kind, e);
    } else {
      RecordAdvances(body, t, run, h, e.stepKey, kind, e, if e.StepCompleted? then e.result
          else DecisionValue(e.decision));
    }
  }

  /** The commits that follow a wake's event, and a timer that goes, change nothing of it. */
  lemma WakeTailKeepsTidy(body: Body, t: Tables, run: RunId, status: RunStatus, id: nat)
    requires Tidy(body, t, run)
    ensures Tidy(body, StatusSet(t, run, status), run) && Tidy(body, Enqueued(t, run), run)
    ensures Tidy(body, Dequeued(t, run), run) && Tidy(body, TimerDeleted(t, id), run)
  {
    hide RestsAs, StepInSync, Tidy, RestartsStep;
    TidyRow(body, t, run);
    TidyElsewhere(body, t, StatusSet(t, run, status), run);
    TidyElsewhere(body, t, Enqueued(t, run), run);
    TidyElsewhere(body, t, Dequeued(t, run), run);
    TidyElsewhere(body, t, TimerDeleted(t, id), run);
  }

  // ----- what a crash leaves behind -----

  /** A pass cut between run_completed and its row update leaves the row stale, and no later pass
      over the completed log repairs it. */
  lemma StaleForGood(body: Body, run: RunId, t: Tables, e: Event, t': Tables, end: PassEnd)
    requires Synced(t, run) && !t.rows[run].status.Completed? && e.RunCompleted?
    requires SealedPass(body, run, Appended(t, run, e), t', end)
    requires forall error :: !RaisesOn(body, t.LogOf(run) + [e], error)
    ensures Project(t'.LogOf(run)).status.Completed? && !Synced(t', run)
  {
    hide RaisesOn, ReplayEnds.Returns;
    AppliedSync(t, run, e);
    ProjectAppend(t.LogOf(run), e);
  }
}
