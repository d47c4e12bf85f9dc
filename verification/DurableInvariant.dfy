/** What every step of a durable run keeps. */
module DurableInvariant {
  import opened Prelude
  import opened Keys
  import opened Events
  import opened Program
  import opened Durable

  // ----- the invariant -----

  /** No step completes twice and no gate is resolved twice. */
  ghost predicate RecordedOnce(log: Log) {
    forall k :: Completions(log)[k] <= 1 && Resolutions(log)[k] <= 1
  }

  /** Every handler call and every waker's verdict is a logged outcome, lost, or in flight. */
  ghost predicate Accounted(body: Body, s: Sys) {
    forall k :: s.invoked[k] + s.woken[k] ==
                Completions(s.log)[k] + Failures(s.log)[k] + s.lost[k] + (if k in InFlight(body, s) then 1 else 0)
  }

  /** Failures of a key are numbered 1, 2, ... */
  ghost predicate Numbered(log: Log) {
    log == [] || (Numbered(Front(log)) && NumbersNext(Front(log), Last(log)))
  }

  ghost predicate NumbersNext(log: Log, e: Event) {
    e.StepFailed? ==> e.attempt == Failures(log)[e.stepKey] + 1
  }

  ghost predicate AskedAs(body: Body, log: Log, key: Key, kind: StepKind) {
    exists call: Call :: call.kind == kind && Asks(body, log, key, call)
  }

  ghost predicate AskedCheckpoint(body: Body, log: Log, key: Key) {
    exists call: Call :: !call.kind.Gate? && Asks(body, log, key, call)
  }

  /** Whatever is recorded, armed or started belongs to a step the body asks for, of the right kind. */
  ghost predicate Asked(body: Body, s: Sys) {
    && (forall k :: k in s.armed ==> AskedAs(body, s.log, k, Sleep))
    && (forall k :: k in s.children ==> AskedAs(body, s.log, k, Child))
    && (forall k :: k in s.woken ==> AskedAs(body, s.log, k, Sleep) || AskedAs(body, s.log, k, Child))
    && (forall k :: k in Results(s.log) ==> AskedCheckpoint(body, s.log, k))
  }

  /** The pass is where the log leads its body, and what it remembers is still true. */
  ghost predicate OnTheWay(body: Body, log: Log, p: Pass) {
    && Replays(body, log, p.history)
    && |p.branches| == BranchCount(body, p.history)
    && Extends(p.seen, log)
    && (p.IsSealed() ==> exists v :: Yields(body, p.seen, v))
  }

  ghost predicate BranchFits(log: Log, key: Key, call: Call, b: Branch) {
    match b
    case Done(v) => Recorded(log, key, call.kind) == Some(v)
    case Waiting(a) => IsHandled(call.kind) && key !in Results(log) && a == Failures(log)[key] + 1
    case Started(a) => IsHandled(call.kind) && key !in Results(log) && a == Failures(log)[key] + 1
    case Invoked(a) => IsHandled(call.kind) && key !in Results(log) && a == Failures(log)[key] + 1
    case _ => true
  }

  ghost predicate BranchesFit(body: Body, log: Log, p: Pass) {
    var r := KeysAt(body, p.history);
    r.Allocated? && |p.branches| == |r.keys| ==>
      forall i :: 0 <= i < |p.branches| ==> BranchFits(log, r.keys[i], CallsAt(body, p.history)[i], p.branches[i])
  }

  /** Asked for earlier in the pass, or in the current await and already looked at. */
  ghost predicate DealtWith(body: Body, p: Pass, k: Key) {
    var r := KeysAt(body, p.history);
    || k in RequestedBefore(body, p.history)
    || (r.Allocated? && |p.branches| == |r.keys| && exists i ::
        0 <= i < |r.keys| && r.keys[i] == k && !p.branches[i].Todo?)
  }

  /** Apart from wakers' verdicts, the log has news only on steps the pass has dealt with. */
  ghost predicate NewsIsOwn(body: Body, s: Sys, p: Pass) {
    forall k :: k !in s.woken && !DealtWith(body, p, k) ==>
      && (k in Results(s.log) ==> k in Results(p.seen))
      && Failures(s.log)[k] == Failures(p.seen)[k]
  }

  ghost predicate Inv(body: Body, s: Sys) {
    && RecordedOnce(s.log)
    && Accounted(body, s)
    && Numbered(s.log)
    && Asked(body, s)
    && (forall v :: v in s.returned ==> Yields(body, s.log, v))
    && ((exists e :: e in s.log && e.RunCompleted?) ==> s.returned != [])
    && (s.pass.Some? ==>
         && OnTheWay(body, s.log, s.pass.value)
         && BranchesFit(body, s.log, s.pass.value)
         && NewsIsOwn(body, s, s.pass.value))
  }

  // ----- a longer log -----

  /** `e` records nothing a second time, and numbers a failure as the next one. */
  ghost predicate Fresh(log: Log, e: Event) {
    && (e.StepCompleted? ==> e.stepKey !in Results(log))
    && (e.GateResolved? ==> e.stepKey !in Decisions(log))
    && NumbersNext(log, e)
  }

  lemma LogGrows(log: Log, e: Event)
    requires RecordedOnce(log) && Numbered(log) && Fresh(log, e)
    ensures RecordedOnce(log + [e]) && Numbered(log + [e]) && Extends(log, log + [e])
  {
    StillRecordedOnce(log, e);
    StillExtends(log, e);
    assert Numbered(log + [e]) by {
      hide Fresh, RecordedOnce, Extends;
      assert NumbersNext(log, e) by { FreshNumbers(log, e); }
      assert Front(log + [e]) == log && Last(log + [e]) == e;
    }
  }

  lemma FreshNumbers(log: Log, e: Event)
    requires Fresh(log, e)
    ensures NumbersNext(log, e)
  {
  }

  lemma StillExtends(log: Log, e: Event)
    requires Fresh(log, e)
    ensures Extends(log, log + [e])
  {
    AppendCounts(log, e);
  }

  lemma StillRecordedOnce(log: Log, e: Event)
    requires RecordedOnce(log) && Fresh(log, e)
    ensures RecordedOnce(log + [e])
  {
    AppendCounts(log, e);
    if e.StepCompleted? {
      CompletionsAreResults(log, e.stepKey);
    } else if e.GateResolved? {
      ResolutionsAreDecisions(log, e.stepKey);
    }
  }

  lemma ExtendsTransitive(a: Log, b: Log, c: Log)
    requires Extends(a, b) && Extends(b, c)
    ensures Extends(a, c)
  {
  }

  lemma AskedAsGrows(body: Body, log: Log, log': Log, key: Key, kind: StepKind)
    requires Extends(log, log') && AskedAs(body, log, key, kind)
    ensures AskedAs(body, log', key, kind)
  {
    var call: Call :| call.kind == kind && Asks(body, log, key, call);
    AsksGrows(body, log, log', key, call);
  }

  lemma AskedCheckpointGrows(body: Body, log: Log, log': Log, key: Key)
    requires Extends(log, log') && AskedCheckpoint(body, log, key)
    ensures AskedCheckpoint(body, log', key)
  {
    var call: Call :| !call.kind.Gate? && Asks(body, log, key, call);
    AsksGrows(body, log, log', key, call);
  }

  /** Kinds stay right while the log grows and nothing new is armed, started or recorded. */
  lemma AskedKept(body: Body, s: Sys, s': Sys)
    requires Asked(body, s) && Extends(s.log, s'.log)
    requires s'.armed <= s.armed && s'.children <= s.children
    requires forall k :: k in s'.woken ==> k in s.woken
    requires forall k :: k in Results(s'.log) ==> k in Results(s.log)
    ensures Asked(body, s')
  {
    forall k, kind | AskedAs(body, s.log, k, kind) ensures AskedAs(body, s'.log, k, kind) {
      AskedAsGrows(body, s.log, s'.log, k, kind);
    }
    forall k | AskedCheckpoint(body, s.log, k) ensures AskedCheckpoint(body, s'.log, k) {
      AskedCheckpointGrows(body, s.log, s'.log, k);
    }
  }

  /** ... and also while it records a step that is asked for. */
  lemma AskedRecorded(body: Body, s: Sys, s': Sys, key: Key)
    requires Asked(body, s) && Extends(s.log, s'.log)
    requires s'.armed <= s.armed && s'.children <= s.children
    requires AskedCheckpoint(body, s.log, key)
    requires forall k :: k in s'.woken && k !in s.woken ==>
               AskedAs(body, s.log, k, Sleep) || AskedAs(body, s.log, k, Child)
    requires forall k :: k in Results(s'.log) ==> k in Results(s.log) || k == key
    ensures Asked(body, s')
  {
    forall k, kind | AskedAs(body, s.log, k, kind) ensures AskedAs(body, s'.log, k, kind) {
      AskedAsGrows(body, s.log, s'.log, k, kind);
    }
    forall k | AskedCheckpoint(body, s.log, k) ensures AskedCheckpoint(body, s'.log, k) {
      AskedCheckpointGrows(body, s.log, s'.log, k);
    }
  }

  lemma ReturnedKept(body: Body, s: Sys, s': Sys)
    requires Extends(s.log, s'.log) && s'.returned == s.returned
    requires forall v :: v in s.returned ==> Yields(body, s.log, v)
    ensures forall v :: v in s'.returned ==> Yields(body, s'.log, v)
  {
    forall v | v in s'.returned ensures Yields(body, s'.log, v) {
      YieldsGrows(body, s.log, s'.log, v);
    }
  }

  // ----- the branch a step is about -----

  /** The step of a live branch is asked for. */
  lemma BranchAsked(body: Body, s: Sys, i: nat)
    requires Inv(body, s) && Has(body, s, i)
    ensures Asks(body, s.log, KeyOf(body, s, i), CallOf(body, s, i))
  {
    assert AsksAt(body, s.log, s.pass.value.history, i, KeyOf(body, s, i), CallOf(body, s, i));
  }

  /** Wakers settle no step that has a handler. */
  lemma HandledNotWoken(body: Body, s: Sys, i: nat)
    requires Inv(body, s) && Has(body, s, i) && IsHandled(CallOf(body, s, i).kind)
    ensures KeyOf(body, s, i) !in s.woken && KeyOf(body, s, i) !in s.armed && KeyOf(body, s, i) !in s.children
  {
    var key, call := KeyOf(body, s, i), CallOf(body, s, i);
    BranchAsked(body, s, i);
    forall kind | AskedAs(body, s.log, key, kind) ensures kind == call.kind {
      var other: Call :| other.kind == kind && Asks(body, s.log, key, other);
      AsksOnce(body, s.log, key, call, other);
    }
  }

  /** A handler step that is missed by the pass has no result in the log, and its failures are
      those the pass remembers. */
  lemma MissIsFresh(body: Body, s: Sys, i: nat)
    requires Inv(body, s) && Missed(body, s, i) && IsHandled(CallOf(body, s, i).kind)
    ensures KeyOf(body, s, i) !in Results(s.log)
    ensures Failures(s.log)[KeyOf(body, s, i)] == Failures(s.pass.value.seen)[KeyOf(body, s, i)]
  {
    hide Asked, Accounted, BranchesFit;
    HandledNotWoken(body, s, i);
    KeyNotBefore(body, s, i);
    assert !DealtWith(body, s.pass.value, KeyOf(body, s, i));
  }

  lemma KeyNotBefore(body: Body, s: Sys, i: nat)
    requires Has(body, s, i)
    ensures KeyOf(body, s, i) !in RequestedBefore(body, s.pass.value.history)
  {
  }

  /** Changing one branch changes what is in flight by at most that branch's key. */
  lemma InFlightSet(body: Body, s: Sys, i: nat, b: Branch)
    requires Has(body, s, i)
    ensures var key := KeyOf(body, s, i); var before := InFlight(body, s);
            InFlight(body, SetBranch(s, i, b)) == if b.Invoked? then before + {key} else before - {key}
    ensures BranchOf(body, s, i).Invoked? <==> KeyOf(body, s, i) in InFlight(body, s)
  {
    hide KeysAt, CallsAt;
    var keys := KeysAt(body, s.pass.value.history).keys;
    var p, p' := s.pass.value, SetBranch(s, i, b).pass.value;
    assert keys[i] == KeyOf(body, s, i);
    var before, after := InFlight(body, s), InFlight(body, SetBranch(s, i, b));
    forall k | k in after ensures k in (if b.Invoked? then before + {keys[i]} else before - {keys[i]}) {
      var j :| 0 <= j < |p'.branches| && p'.branches[j].Invoked? && keys[j] == k;
    }
    forall k | k in (if b.Invoked? then before + {keys[i]} else before - {keys[i]}) ensures k in after {
      if k == keys[i] {
        assert p'.branches[i].Invoked?;
      } else {
        var j :| 0 <= j < |p.branches| && p.branches[j].Invoked? && keys[j] == k;
        assert p'.branches[j].Invoked?;
      }
    }
  }

  /** The pass still fits after one of its branches moves on, and the log gets news at most
      about that branch. */
  lemma PassKept(body: Body, s: Sys, i: nat, b: Branch, log: Log)
    requires Inv(body, s) && Has(body, s, i) && !b.Todo?
    requires Extends(s.log, log)
    requires forall k :: k != KeyOf(body, s, i) ==>
               Failures(log)[k] == Failures(s.log)[k] && (k in Results(log) ==> k in Results(s.log))
    requires BranchFits(log, KeyOf(body, s, i), CallOf(body, s, i), b)
    ensures var s' := SetBranch(s, i, b).(log := log);
            OnTheWay(body, log, s'.pass.value) && BranchesFit(body, log, s'.pass.value)
                && NewsIsOwn(body, s', s'.pass.value)
  {
    hide BranchesFit, NewsIsOwn, Asked, Accounted, BranchFits, Yields, Replays, Extends;
    ReplayGrows(body, s.log, log, s.pass.value.history);
    ExtendsTransitive(s.pass.value.seen, s.log, log);
    StillFit(body, s, i, b, log);
    StillOwn(body, s, i, b, log);
  }

  lemma StillFit(body: Body, s: Sys, i: nat, b: Branch, log: Log)
    requires Inv(body, s) && Has(body, s, i)
    requires Extends(s.log, log)
    requires forall k :: k != KeyOf(body, s, i) ==>
               Failures(log)[k] == Failures(s.log)[k] && (k in Results(log) ==> k in Results(s.log))
    requires BranchFits(log, KeyOf(body, s, i), CallOf(body, s, i), b)
    ensures BranchesFit(body, log, SetBranch(s, i, b).pass.value)
  {
    hide Results, Decisions, Failures, Completions, Resolutions, Numbered, RecordedOnce, Asked, Accounted;
    hide Replays, KeysAt, CallsAt;
    var p := s.pass.value;
    var keys, calls := KeysAt(body, p.history).keys, CallsAt(body, p.history);
    forall j | 0 <= j < |keys| ensures BranchFits(log, keys[j], calls[j], SetBranch(s, i, b).pass.value.branches[j]) {
      if j != i {
        assert keys[j] != KeyOf(body, s, i);
        assert BranchFits(s.log, keys[j], calls[j], p.branches[j]);
      }
    }
  }

  lemma StillOwn(body: Body, s: Sys, i: nat, b: Branch, log: Log)
    requires Inv(body, s) && Has(body, s, i) && !b.Todo?
    requires forall k :: k != KeyOf(body, s, i) ==>
               Failures(log)[k] == Failures(s.log)[k] && (k in Results(log) ==> k in Results(s.log))
    ensures var s' := SetBranch(s, i, b).(log := log); NewsIsOwn(body, s', s'.pass.value)
  {
    hide Results, Decisions, Failures, Completions, Resolutions, Numbered, RecordedOnce, Asked, Accounted, Replays;
    var s' := SetBranch(s, i, b).(log := log);
    var p, p' := s.pass.value, s'.pass.value;
    forall k | k !in s'.woken && !DealtWith(body, p', k)
      ensures (k in Results(log) ==> k in Results(p'.seen)) && Failures(log)[k] == Failures(p'.seen)[k]
    {
      assert p'.branches[i] == b;
      assert k != KeyOf(body, s, i);
      assert !DealtWith(body, p, k) by {
        assert forall j :: 0 <= j < |p.branches| && !p.branches[j].Todo? ==> !p'.branches[j].Todo?;
      }
    }
  }
}
