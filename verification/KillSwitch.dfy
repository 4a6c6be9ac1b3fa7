/** The server-wide freeze and the events that announce its transitions. */
module KillSwitch {
  import opened Base

  datatype KillSwitch = KillSwitch(frozen: bool, frozenBy: string, reason: string, at: Option<Time>)

  const OPEN := KillSwitch(false, "", "", None)

  datatype Event = Tripped(who: string, reason: string) | Lifted

  datatype Call = FreezeGlobal(who: string, reason: string, at: Time) | UnfreezeGlobal

  function Apply(k: KillSwitch, c: Call): KillSwitch {
    match c
    case FreezeGlobal(who, reason, at) => KillSwitch(true, who, reason, Some(at))
    case UnfreezeGlobal => OPEN
  }

  /** Only a real transition is announced. */
  function Announced(k: KillSwitch, c: Call): seq<Event> {
    match c
    case FreezeGlobal(who, reason, _) => if k.frozen then [] else [Tripped(who, reason)]
    case UnfreezeGlobal => if k.frozen then [Lifted] else []
  }

  function State(calls: seq<Call>): KillSwitch {
    if calls == [] then OPEN else Apply(State(calls[..|calls| - 1]), calls[|calls| - 1])
  }

  function Events(calls: seq<Call>): seq<Event> {
    if calls == [] then []
    else Events(calls[..|calls| - 1]) + Announced(State(calls[..|calls| - 1]), calls[|calls| - 1])
  }

  /** Trips at even positions, lifts at odd ones. */
  ghost predicate Alternates(events: seq<Event>) {
    forall i :: 0 <= i < |events| ==> (events[i].Tripped? <==> i % 2 == 0)
  }

  lemma AlternatesFurther(events: seq<Event>, e: Event)
    requires Alternates(events) && (e.Tripped? <==> |events| % 2 == 0)
    ensures Alternates(events + [e])
  {
  }

  /** Trips and lifts strictly alternate, beginning with a trip, and the last one tells
      whether trading is frozen. */
  lemma {:induction false} EventsReplayTheSwitch(calls: seq<Call>)
    ensures Alternates(Events(calls))
    ensures State(calls).frozen <==> |Events(calls)| % 2 == 1
    ensures State(calls).frozen <==> Events(calls) != [] && Events(calls)[|Events(calls)| - 1].Tripped?
  {
    hide Alternates;
    if calls == [] {
      NothingAlternates();
    } else {
      var front := calls[..|calls| - 1];
      EventsReplayTheSwitch(front);
      var announced := Announced(State(front), calls[|calls| - 1]);
      if announced == [] {
        assert Events(front) + announced == Events(front);
      } else {
        assert announced == [announced[0]];
        AlternatesFurther(Events(front), announced[0]);
      }
    }
  }

  lemma NothingAlternates()
    ensures Alternates([])
  {
  }

  /** Freezing again replaces who froze trading and why without an event: events that named
      the current freezer still do exactly when the new call repeats the names. */
  lemma RefreezingIsNotAnnounced(calls: seq<Call>, again: Call)
    requires State(calls).frozen && again.FreezeGlobal?
    requires Events(calls) != []
    requires Events(calls)[|Events(calls)| - 1] == Tripped(State(calls).frozenBy, State(calls).reason)
    ensures Events(calls + [again]) == Events(calls)
    ensures Events(calls)[|Events(calls)| - 1] ==
              Tripped(State(calls + [again]).frozenBy, State(calls + [again]).reason) <==>
              again.who == State(calls).frozenBy && again.reason == State(calls).reason
  {
    assert (calls + [again])[..|calls|] == calls;
  }

  // --- Interleaved callers ---

  /** Each call changes the switch under the lock and dispatches its event after releasing
      it; pending counts the events between the two. */
  datatype Shared = Shared(frozen: bool, pendingTrips: nat, pendingLifts: nat, emitted: seq<Event>)

  datatype Step = LockedFreeze | LockedUnfreeze | DispatchTrip(who: string, reason: string) | DispatchLift

  function Take(s: Shared, step: Step): Shared {
    match step
    case LockedFreeze => s.(frozen := true, pendingTrips := s.pendingTrips + if s.frozen then 0 else 1)
    case LockedUnfreeze => s.(frozen := false, pendingLifts := s.pendingLifts + if s.frozen then 1 else 0)
    case DispatchTrip(who, reason) =>
      if s.pendingTrips == 0 then s
      else s.(pendingTrips := s.pendingTrips - 1, emitted := s.emitted + [Tripped(who, reason)])
    case DispatchLift =>
      if s.pendingLifts == 0 then s
      else s.(pendingLifts := s.pendingLifts - 1, emitted := s.emitted + [Lifted])
  }

  function TakeAll(steps: seq<Step>): Shared {
    if steps == [] then Shared(false, 0, 0, [])
    else Take(TakeAll(steps[..|steps| - 1]), steps[|steps| - 1])
  }

  /** Trips minus lifts in a sequence of events. */
  function Balance(events: seq<Event>): int {
    if events == [] then 0
    else Balance(events[..|events| - 1]) + if events[|events| - 1].Tripped? then 1 else -1
  }

  predicate Balanced(s: Shared) {
    Balance(s.emitted) + s.pendingTrips - s.pendingLifts == if s.frozen then 1 else 0
  }

  lemma StepKeepsBalance(s: Shared, step: Step)
    requires Balanced(s)
    ensures Balanced(Take(s, step))
  {
    match step
    case DispatchTrip(who, reason) => BalanceAppend(s.emitted, Tripped(who, reason));
    case DispatchLift => BalanceAppend(s.emitted, Lifted);
    case _ =>
  }

  /** Under every interleaving, trips minus lifts, emitted or pending, is one exactly while
      trading is frozen; once nothing is pending the emitted events alone say so. */
  lemma {:induction false} BalanceIsTheSwitch(steps: seq<Step>)
    ensures Balanced(TakeAll(steps))
  {
    if steps != [] {
      BalanceIsTheSwitch(steps[..|steps| - 1]);
      StepKeepsBalance(TakeAll(steps[..|steps| - 1]), steps[|steps| - 1]);
    }
  }

  lemma BalanceAppend(events: seq<Event>, e: Event)
    ensures Balance(events + [e]) == Balance(events) + if e.Tripped? then 1 else -1
  {
    assert (events + [e])[..|events|] == events;
  }

  /** The order of emission is not the order of the transitions: this interleaving ends with
      a trip event although trading is open. */
  lemma LateTripEvent()
    ensures exists steps :: var s := TakeAll(steps);
              !s.frozen && s.pendingTrips == s.pendingLifts == 0 && s.emitted == [Lifted, Tripped("admin", "incident")]
  {
    var s1, s2 := [LockedFreeze], [LockedFreeze, LockedUnfreeze];
    var s3 := s2 + [DispatchLift];
    var s4 := s3 + [DispatchTrip("admin", "incident")];
    assert s1[..0] == [] && s2[..1] == s1 && s3[..2] == s2 && s4[..3] == s3;
    assert TakeAll(s1) == Shared(true, 1, 0, []);
    assert TakeAll(s2) == Shared(false, 1, 1, []);
    assert TakeAll(s3) == Shared(false, 1, 0, [Lifted]);
    assert TakeAll(s4) == Shared(false, 0, 0, [Lifted, Tripped("admin", "incident")]);
  }

  // --- When the last event is right ---

  predicate IsDispatch(step: Step) {
    step.DispatchTrip? || step.DispatchLift?
  }

  predicate Quiescent(s: Shared) {
    s.pendingTrips == 0 == s.pendingLifts
  }

  /** The last event tells whether trading is frozen. */
  predicate Tells(s: Shared) {
    s.emitted != [] && (s.emitted[|s.emitted| - 1].Tripped? <==> s.frozen)
  }

  function TakeFrom(s: Shared, steps: seq<Step>): Shared {
    if steps == [] then s else Take(TakeFrom(s, steps[..|steps| - 1]), steps[|steps| - 1])
  }

  /** A way to dispatch everything that is pending, in any sequence. */
  ghost predicate Drains(s: Shared, steps: seq<Step>) {
    (forall i :: 0 <= i < |steps| ==> IsDispatch(steps[i])) && Quiescent(TakeFrom(s, steps))
  }

  ghost predicate AlwaysTells(s: Shared) {
    forall steps :: Drains(s, steps) ==> Tells(TakeFrom(s, steps))
  }

  lemma {:induction false} OnlyMatchingLeft(s: Shared, steps: seq<Step>)
    requires forall i :: 0 <= i < |steps| ==> IsDispatch(steps[i])
    requires if s.frozen then s.pendingLifts == 0 else s.pendingTrips == 0
    ensures var s' := TakeFrom(s, steps);
            && s'.frozen == s.frozen
            && (if s.frozen then s'.pendingLifts == 0 else s'.pendingTrips == 0)
            && ((s'.pendingTrips == s.pendingTrips && s'.pendingLifts == s.pendingLifts) || Tells(s'))
  {
    if steps != [] {
      OnlyMatchingLeft(s, steps[..|steps| - 1]);
    }
  }

  lemma TakeOneMore(s: Shared, steps: seq<Step>, step: Step)
    ensures TakeFrom(s, steps + [step]) == Take(TakeFrom(s, steps), step)
  {
    assert (steps + [step])[..|steps|] == steps;
  }

  lemma NothingTaken(s: Shared)
    ensures TakeFrom(s, []) == s
  {
  }

  /** What to dispatch next so that an event that does not match the state comes last. */
  function NextOf(s: Shared): Step {
    if (if s.frozen then s.pendingTrips > 0 else s.pendingLifts == 0) then DispatchTrip("", "") else DispatchLift
  }

  lemma NextLeavesMismatch(s: Shared)
    requires if s.frozen then s.pendingLifts > 0 else s.pendingTrips > 0
    ensures var s' := Take(s, NextOf(s));
            && s'.frozen == s.frozen
            && s'.pendingTrips + s'.pendingLifts == s.pendingTrips + s.pendingLifts - 1
            && (if Quiescent(s') then !Tells(s') else if s.frozen then s'.pendingLifts > 0 else s'.pendingTrips > 0)
  {
  }

  /** Dispatching the events that match the state first and the others last. */
  lemma {:induction false} MismatchLast(s: Shared, steps: seq<Step>) returns (all: seq<Step>)
    requires forall i :: 0 <= i < |steps| ==> IsDispatch(steps[i])
    requires var s' := TakeFrom(s, steps); if s'.frozen then s'.pendingLifts > 0 else s'.pendingTrips > 0
    ensures Drains(s, all) && !Tells(TakeFrom(s, all))
    decreases TakeFrom(s, steps).pendingTrips + TakeFrom(s, steps).pendingLifts
  {
    hide Take, TakeFrom, Tells;
    var s' := TakeFrom(s, steps);
    var next := NextOf(s');
    all := steps + [next];
    NextLeavesMismatch(s');
    TakeOneMore(s, steps, next);
    if !Quiescent(TakeFrom(s, all)) {
      all := MismatchLast(s, all);
    }
  }

  /** From any state with something pending, every way of dispatching it ends with an event
      that tells the state exactly when nothing of the opposite kind is pending: no lift while
      trading is frozen, no trip while it is open. */
  lemma LastEventTellsIff(s: Shared)
    requires !Quiescent(s)
    ensures AlwaysTells(s) <==> if s.frozen then s.pendingLifts == 0 else s.pendingTrips == 0
  {
    if if s.frozen then s.pendingLifts == 0 else s.pendingTrips == 0 {
      forall steps | Drains(s, steps) ensures Tells(TakeFrom(s, steps)) {
        OnlyMatchingLeft(s, steps);
      }
    } else {
      NothingTaken(s);
      var steps := MismatchLast(s, []);
      assert Drains(s, steps) && !Tells(TakeFrom(s, steps));
    }
  }

  /** Every caller dispatches its event before anybody enters the next lock section. */
  predicate Disciplined(steps: seq<Step>) {
    steps == [] ||
    (Disciplined(steps[..|steps| - 1])
     && (!IsDispatch(steps[|steps| - 1]) ==> Quiescent(TakeAll(steps[..|steps| - 1]))))
  }

  /** Under that rule the last event tells the state whenever nothing is pending, and while
      something is pending it is the one event that will. */
  lemma {:induction false} DisciplineKeepsEventsRight(steps: seq<Step>)
    requires Disciplined(steps)
    ensures var s := TakeAll(steps);
            if Quiescent(s) then Tells(s) || (s.emitted == [] && !s.frozen)
            else
              || (s.frozen && s.pendingTrips == 1 && s.pendingLifts == 0)
              || (!s.frozen && s.pendingTrips == 0 && s.pendingLifts == 1)
  {
    if steps != [] {
      DisciplineKeepsEventsRight(steps[..|steps| - 1]);
    }
  }
}
