/** Gate resolution: which gate a label names, and what resolving it commits. */
module Gates {
  import opened Prelude
  import opened Keys
  import opened Events

  // ----- which gate is open -----

  /** The step opened a gate under the label, and no resolution came after. */
  predicate IsOpenGate(log: Log, gateKey: string, key: Key) {
    log != [] &&
    match Last(log)
    case GateOpened(k, g, _) => (k == key && g == gateKey) || IsOpenGate(Front(log), gateKey, key)
    case GateResolved(k, _, _, _) => k != key && IsOpenGate(Front(log), gateKey, key)
    case _ => IsOpenGate(Front(log), gateKey, key)
  }

  /** The latest opening of the step under the label. */
  function LatestOpening(log: Log, gateKey: string, key: Key): Option<nat> {
    if log == [] then None
    else match Last(log)
      case GateOpened(k, g, _) => if k == key && g == gateKey then Some(|log| - 1)
          else LatestOpening(Front(log), gateKey, key)
      case _ => LatestOpening(Front(log), gateKey, key)
  }

  /** No gate is opened under the label while it is still open under it. */
  predicate NeverReopened(log: Log, gateKey: string) {
    log == [] || (NeverReopened(Front(log), gateKey)
                  && (Last(log).GateOpened? && Last(log).gateKey == gateKey ==>
                      !IsOpenGate(Front(log), gateKey, Last(log).stepKey)))
  }

  lemma {:induction false} OpenHasOpening(log: Log, gateKey: string, key: Key)
    ensures IsOpenGate(log, gateKey, key) ==> LatestOpening(log, gateKey, key).Some?
    ensures LatestOpening(log, gateKey, key).Some? ==>
              (var i := LatestOpening(log, gateKey, key).value;
               i < |log| && log[i].GateOpened? && log[i].stepKey == key && log[i].gateKey == gateKey)
  {
    if log != [] {
      OpenHasOpening(Front(log), gateKey, key);
    }
  }

  /** Each step was opened after all before it. */
  ghost predicate Ascending(log: Log, gateKey: string, order: seq<Key>) {
    order == [] || (Ascending(log, gateKey, Front(order))
                    && forall k :: k in Front(order) ==> OpenedBefore(log, gateKey, k, Last(order)))
  }

  ghost predicate OpenedBefore(log: Log, gateKey: string, key: Key, later: Key) {
    var i, j := LatestOpening(log, gateKey, key), LatestOpening(log, gateKey, later);
    i.Some? && j.Some? && i.value < j.value
  }

  /** The open steps in the order a dict keeps them, each with its latest opening. */
  ghost predicate OpenSteps(log: Log, gateKey: string, order: seq<Key>, openings: map<Key, Event>) {
    && (forall key :: key in order <==> IsOpenGate(log, gateKey, key))
    && (forall key :: key in order ==> key in openings && IsOpening(log, gateKey, key, openings[key]))
    && (NeverReopened(log, gateKey) ==> Ascending(log, gateKey, order))
  }

  ghost predicate IsOpening(log: Log, gateKey: string, key: Key, e: Event) {
    && LatestOpening(log, gateKey, key).Some? && LatestOpening(log, gateKey, key).value < |log|
    && e == log[LatestOpening(log, gateKey, key).value]
  }

  /** The open steps of a label in the order a dict keeps them: a step opened again while open keeps
      its place, one opened again after a resolution goes last. */
  function OpenOrder(log: Log, gateKey: string): seq<Key> {
    if log == [] then []
    else
      var prior := OpenOrder(Front(log), gateKey);
      match Last(log)
      case GateOpened(key, g, _) => if g == gateKey && key !in prior then prior + [key] else prior
      case GateResolved(key, _, _, _) => Without(prior, key)
      case _ => prior
  }

  /** The label the step was first opened under. */
  function FirstLabel(log: Log, key: Key): Option<string> {
    if log == [] then None
    else match FirstLabel(Front(log), key)
      case Some(gateKey) => Some(gateKey)
      case None => if Last(log).GateOpened? && Last(log).stepKey == key then Some(Last(log).gateKey) else None
  }

  /** It is that of the step's first opening. */
  lemma {:induction false} FirstLabelIsFirst(log: Log, key: Key) returns (i: nat)
    requires FirstLabel(log, key).Some?
    ensures i < |log| && log[i].GateOpened? && log[i].stepKey == key && FirstLabel(log, key) == Some(log[i].gateKey)
    ensures forall j :: 0 <= j < i ==> !(log[j].GateOpened? && log[j].stepKey == key)
  {
    if FirstLabel(Front(log), key).Some? {
      i := FirstLabelIsFirst(Front(log), key);
    } else {
      i := |log| - 1;
      NoFirstLabel(Front(log), key);
    }
  }

  lemma {:induction false} NoFirstLabel(log: Log, key: Key)
    requires FirstLabel(log, key).None?
    ensures forall j :: 0 <= j < |log| ==> !(log[j].GateOpened? && log[j].stepKey == key)
  {
    if log != [] {
      NoFirstLabel(Front(log), key);
      assert forall j :: 0 <= j < |log| - 1 ==> Front(log)[j] == log[j];
    }
  }

  lemma OneMore(log: Log, e: Event, gateKey: string, key: Key)
    ensures Front(log + [e]) == log && Last(log + [e]) == e
    ensures e.GateOpened? && e.stepKey == key && e.gateKey == gateKey ==>
              IsOpenGate(log + [e], gateKey, key) && LatestOpening(log + [e], gateKey, key) == Some(|log|)
    ensures !(e.GateOpened? && e.stepKey == key && e.gateKey == gateKey) ==>
              LatestOpening(log + [e], gateKey, key) == LatestOpening(log, gateKey, key)
    ensures !(e.GateOpened? && e.stepKey == key && e.gateKey == gateKey) ==>
              (IsOpenGate(log + [e], gateKey, key) <==>
                  IsOpenGate(log, gateKey, key) && !(e.GateResolved? && e.stepKey == key))
    ensures NeverReopened(log + [e], gateKey) ==> NeverReopened(log, gateKey)
    ensures NeverReopened(log + [e], gateKey) && e.GateOpened? && e.gateKey == gateKey ==>
              !IsOpenGate(log, gateKey, e.stepKey)
  {
    assert Front(log + [e]) == log && Last(log + [e]) == e;
  }

  lemma {:induction false} StillAscending(log: Log, e: Event, gateKey: string, order: seq<Key>)
    requires Ascending(log, gateKey, order)
    requires e.GateOpened? && e.gateKey == gateKey ==> e.stepKey !in order
    ensures Ascending(log + [e], gateKey, order)
  {
    if order != [] {
      assert forall k :: k in Front(order) ==> k in order;
      StillAscending(log, e, gateKey, Front(order));
      OneMore(log, e, gateKey, Last(order));
      forall k | k in Front(order) ensures OpenedBefore(log + [e], gateKey, k, Last(order)) {
        OneMore(log, e, gateKey, k);
      }
    }
  }

  lemma {:induction false} WithoutAscending(log: Log, gateKey: string, order: seq<Key>, key: Key)
    requires Ascending(log, gateKey, order)
    ensures Ascending(log, gateKey, Without(order, key))
  {
    if order != [] {
      WithoutAscending(log, gateKey, Front(order), key);
      var rest := Without(Front(order), key);
      assert Front(rest + [Last(order)]) == rest;
    }
  }

  lemma StepOpens(log: Log, e: Event, gateKey: string, order: seq<Key>, openings: map<Key, Event>)
    requires OpenSteps(log, gateKey, order, openings) && e.GateOpened? && e.gateKey == gateKey
    ensures OpenSteps(log + [e], gateKey, if e.stepKey in order then order
              else order + [e.stepKey], openings[e.stepKey := e])
  {
    hide IsOpenGate, LatestOpening, NeverReopened, Ascending;
    forall key
      ensures IsOpenGate(log + [e], gateKey, key) <==> IsOpenGate(log, gateKey, key) || key == e.stepKey
      ensures key != e.stepKey ==> LatestOpening(log + [e], gateKey, key) == LatestOpening(log, gateKey, key)
      ensures key == e.stepKey ==> LatestOpening(log + [e], gateKey, key) == Some(|log|)
    {
      OneMore(log, e, gateKey, key);
    }
    OneMore(log, e, gateKey, e.stepKey);
    if NeverReopened(log + [e], gateKey) {
      StillAscending(log, e, gateKey, order);
      LastAscending(log, e, gateKey, order);
    }
  }

  lemma LastAscending(log: Log, e: Event, gateKey: string, order: seq<Key>)
    requires Ascending(log + [e], gateKey, order) && e.GateOpened? && e.gateKey == gateKey && e.stepKey !in order
    requires forall k :: k in order ==>
               LatestOpening(log, gateKey, k).Some? && LatestOpening(log, gateKey, k).value < |log|
    ensures Ascending(log + [e], gateKey, order + [e.stepKey])
  {
    hide LatestOpening;
    var order' := order + [e.stepKey];
    assert Front(order') == order && Last(order') == e.stepKey;
    OneMore(log, e, gateKey, e.stepKey);
    forall k | k in order ensures OpenedBefore(log + [e], gateKey, k, e.stepKey) {
      OneMore(log, e, gateKey, k);
    }
  }

  lemma StepCloses(log: Log, e: Event, gateKey: string, order: seq<Key>, openings: map<Key, Event>)
    requires OpenSteps(log, gateKey, order, openings) && !(e.GateOpened? && e.gateKey == gateKey)
    ensures OpenSteps(log + [e], gateKey, if e.GateResolved? then Without(order, e.stepKey) else order, openings)
  {
    hide IsOpenGate, LatestOpening, NeverReopened, Ascending;
    forall key
      ensures IsOpenGate(log + [e], gateKey, key) <==>
                IsOpenGate(log, gateKey, key) && !(e.GateResolved? && e.stepKey == key)
      ensures LatestOpening(log + [e], gateKey, key) == LatestOpening(log, gateKey, key)
    {
      OneMore(log, e, gateKey, key);
    }
    OneMore(log, e, gateKey, "");
    if NeverReopened(log + [e], gateKey) {
      StillAscending(log, e, gateKey, order);
      if e.GateResolved? {
        WithoutAscending(log + [e], gateKey, order, e.stepKey);
      }
    }
  }

  /** The order has exactly the open steps, and follows their openings unless some gate was opened
      again while open. */
  lemma {:induction false} OrderIsOpen(log: Log, gateKey: string) returns (openings: map<Key, Event>)
    ensures OpenSteps(log, gateKey, OpenOrder(log, gateKey), openings)
  {
    if log == [] {
      openings := map[];
    } else {
      var e := Last(log);
      var prior := OrderIsOpen(Front(log), gateKey);
      assert log == Front(log) + [e];
      if e.GateOpened? && e.gateKey == gateKey {
        openings := prior[e.stepKey := e];
        StepOpens(Front(log), e, gateKey, OpenOrder(Front(log), gateKey), prior);
      } else {
        openings := prior;
        StepCloses(Front(log), e, gateKey, OpenOrder(Front(log), gateKey), prior);
      }
    }
  }

  /** A step that is open and never resolved is open under its first label. */
  lemma {:induction false} FirstLabelOpen(log: Log, key: Key)
    requires !IsResolved(log, key) && FirstLabel(log, key).Some?
    ensures IsOpenGate(log, FirstLabel(log, key).value, key)
  {
    assert forall e :: e in log <==> e in Front(log) || e == Last(log);
    if FirstLabel(Front(log), key).Some? {
      FirstLabelOpen(Front(log), key);
    }
  }

  /** The gate a label names: the last of the open steps, with its latest opening. */
  method OpenGate(events: Log, gateKey: string) returns (found: Option<Event>)
    ensures found.None? <==> OpenOrder(events, gateKey) == []
    ensures found.None? ==> forall key :: !IsOpenGate(events, gateKey, key)
    ensures found.Some? ==>
              OpenOrder(events, gateKey) != [] && found.value.GateOpened? && found.value.gateKey == gateKey
    ensures found.Some? ==> found.value.stepKey == Last(OpenOrder(events, gateKey))
    ensures found.Some? ==> IsOpening(events, gateKey, found.value.stepKey, found.value)
    ensures found.Some? ==> IsOpenGate(events, gateKey, found.value.stepKey)
    ensures found.Some? && NeverReopened(events, gateKey) ==>
              forall key :: IsOpenGate(events, gateKey, key) && key != found.value.stepKey ==>
                OpenedBefore(events, gateKey, key, found.value.stepKey)
  {
    var order: seq<Key>, openings: map<Key, Event> := [], map[];
    for i := 0 to |events|
      invariant OpenSteps(events[..i], gateKey, order, openings) && order == OpenOrder(events[..i], gateKey)
    {
      var e := events[i];
      ghost var before := order;
      ghost var openingsBefore := openings;
      if e.GateOpened? && e.gateKey == gateKey {
        openings := openings[e.stepKey := e];
        if e.stepKey !in order {
          order := order + [e.stepKey];
        }
      } else if e.GateResolved? {
        order := Without(order, e.stepKey);
      }
      assert events[..i + 1] == events[..i] + [e];
      assert Front(events[..i + 1]) == events[..i];
      if e.GateOpened? && e.gateKey == gateKey {
        StepOpens(events[..i], e, gateKey, before, openingsBefore);
      } else {
        StepCloses(events[..i], e, gateKey, before, openingsBefore);
      }
    }
    assert events[..|events|] == events;
    if order == [] {
      return None;
    }
    var last := Last(order);
    assert last in order && IsOpenGate(events, gateKey, last);
    OpenHasOpening(events, gateKey, last);
    assert forall k :: k in order ==> k in Front(order) || k == Last(order);
    return Some(openings[last]);
  }

  /** The list without a key, in the same order. */
  function Without(order: seq<Key>, key: Key): (r: seq<Key>)
    ensures forall k :: k in r <==> k in order && k != key
  {
    if order == [] then []
    else
      var rest := Without(Front(order), key);
      assert forall k :: k in order <==> k in Front(order) || k == Last(order);
      if Last(order) == key then rest else rest + [Last(order)]
  }
}
