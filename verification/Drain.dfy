/** What a freeze stops when requests are in flight. Requests that are already past the check
    finish; nothing else gets through until the freeze is lifted. */
module Drain {
  import opened Base
  import opened Chain
  import opened Limits
  import opened Orders
  import opened Trackers
  import opened GuardModel
  import opened Protocol
  import opened Coupling
  import opened Bounds
  import opened Decision
  import A = AutoFreeze

  /** The server-wide freeze is consulted on entry, the user's own one by the first check. */
  datatype Freeze = Everybody | OneUser

  predicate InForce(z: Freeze, g: GuardState, user: string) {
    match z
    case Everybody => g.killSwitch.frozen
    case OneUser => IsFrozen(g, user)
  }

  predicate Lifts(z: Freeze, a: Action, user: string) {
    match z
    case Everybody => a.UnfreezeAll?
    case OneUser => a.UnfreezeUser? && Lower(a.email) == user
  }

  /** The request may still be recorded without meeting the freeze. */
  function Past(z: Freeze, f: Flight, user: string): nat {
    if !Bound(f) || UserOf(f) != user then 0
    else if z.Everybody? || HasPassed(f, KillSwitchRule) then 1
    else 0
  }

  function Passer(z: Freeze, user: string): Flight -> nat {
    f => Past(z, f, user)
  }

  function AllPast(z: Freeze, flights: seq<Flight>, user: string): nat {
    Sum(Passer(z, user), flights)
  }

  lemma AllPastUpdate(z: Freeze, flights: seq<Flight>, i: nat, f: Flight, user: string)
    requires i < |flights|
    ensures AllPast(z, flights[i := f], user) ==
              AllPast(z, flights, user) - Past(z, flights[i], user) + Past(z, f, user)
  {
    hide Past;
    SumUpdate(Passer(z, user), flights, i, f);
  }

  /** No request lifts a freeze, and of the calls only the matching lift does. */
  lemma RequestKeepsFreeze(z: Freeze, g: GuardState, user: string, f: Flight, a: Action, env: Env)
    requires OfRequest(a) && f.Busy? && Ready(f, a) && InForce(z, g, user)
    ensures InForce(z, GuardAfter(g, f, a, env), user)
  {
    hide Encode, PruneRejections, BreakerTrips, Effective;
  }

  lemma CallKeepsFreeze(z: Freeze, g: GuardState, user: string, a: Action, env: Env)
    requires InForce(z, g, user) && !Lifts(z, a, user)
    ensures InForce(z, GuardAfterCall(g, a, env), user)
  {
    hide Encode;
  }

  lemma FreezeStays(z: Freeze, s: System, e: Event, user: string)
    requires Enabled(s, e) && InForce(z, s.guard, user) && !Lifts(z, e.action, user)
    ensures InForce(z, Step(s, e).guard, user)
  {
    hide GuardAfter, GuardAfterCall, FlightAfter, LogAfter, Ready, InForce, Lifts;
    if OfRequest(e.action) {
      RequestKeepsFreeze(z, s.guard, user, s.flights[e.action.slot], e.action, e.env);
    } else {
      CallKeepsFreeze(z, s.guard, user, e.action, e.env);
    }
  }

  /** One step of one of the user's requests: it is recorded, stays where it is, or leaves. */
  lemma OwnStepDrains(
    z: Freeze, g: GuardState, l: UserLog, user: string, policy: Limits, f: Flight, a: Action, env: Env)
    requires InForce(z, g, user) && FlightOk(f, user, policy)
    requires OfRequest(a) && f.Busy? && Ready(f, a) && UserOf(f) == user
    ensures |LogAfter(g, l, f, a, env).orders| + Past(z, FlightAfter(g, f, a, env), user) <=
              |l.orders| + Past(z, f, user)
  {
    if a.Evaluate? {
      FrozenIsNotPassed(z, g, user, f, a, env);
    } else if a.Record? && z.OneUser? {
      assert KILL_SWITCH in f.chain;
    }
  }

  lemma FrozenIsNotPassed(z: Freeze, g: GuardState, user: string, f: Flight, a: Action, env: Env)
    requires a.Evaluate? && f.Busy? && Ready(f, a) && UserOf(f) == user && InForce(z, g, user)
    ensures Past(z, FlightAfter(g, f, a, env), user) <= Past(z, f, user)
  {
    if f.chain[f.done].rule != KillSwitchRule {
      hide Judge;
    }
  }

  lemma ForeignStepDrains(z: Freeze, g: GuardState, user: string, f: Flight, a: Action, env: Env)
    requires OfRequest(a) && f.Busy? && Ready(f, a) && UserOf(f) != user
    ensures Past(z, FlightAfter(g, f, a, env), user) == 0 == Past(z, f, user)
  {
    hide Judge, HasPassed;
  }

  lemma EnteringIsNotPast(req: Request, user: string)
    ensures forall z :: Past(z, Busy(req, Entering, [], 0), user) == 0 == Past(z, Idle, user)
  {
  }

  lemma StepDrains(z: Freeze, s: System, e: Event, user: string, policy: Limits)
    requires Enabled(s, e) && InForce(z, s.guard, user) && FlightsOk(s.flights, user, policy)
    ensures |LogOf(Step(s, e), user).orders| + AllPast(z, Step(s, e).flights, user) <=
              |LogOf(s, user).orders| + AllPast(z, s.flights, user)
  {
    hide GuardAfter, GuardAfterCall, LogAfter, FlightAfter, Ready, Past, InForce, FlightOk;
    if e.action.Begin? {
      var req := BuildRequest(e.action.email, e.action.tool, e.action.args);
      AllPastUpdate(z, s.flights, e.action.slot, Busy(req, Entering, [], 0), user);
      EnteringIsNotPast(req, user);
    } else if OfRequest(e.action) {
      var f := s.flights[e.action.slot];
      AllPastUpdate(z, s.flights, e.action.slot, FlightAfter(s.guard, f, e.action, e.env), user);
      if UserOf(f) == user {
        OwnStepDrains(z, s.guard, LogOf(s, user), user, policy, f, e.action, e.env);
      } else {
        ForeignStepDrains(z, s.guard, user, f, e.action, e.env);
      }
    }
  }

  predicate NeverLifted(z: Freeze, run: seq<Event>, user: string)
    decreases |run|
  {
    run == [] || (!Lifts(z, run[0].action, user) && NeverLifted(z, run[1..], user))
  }

  lemma {:induction false} RunDrains(z: Freeze, s: System, run: seq<Event>, user: string, policy: Limits)
    requires Sound(s, user, policy) && CanRun(s, run) && InForce(z, s.guard, user) && NeverLifted(z, run, user)
    ensures InForce(z, RunOf(s, run).guard, user)
    ensures |LogOf(RunOf(s, run), user).orders| + AllPast(z, RunOf(s, run).flights, user) <=
              |LogOf(s, user).orders| + AllPast(z, s.flights, user)
    decreases |run|
  {
    hide Enabled, Step, InForce, Lifts, GuardOk, FlightsOk, AllPast, LogOf;
    if run != [] {
      StepKeepsSound(s, run[0], user, policy);
      StepDrains(z, s, run[0], user, policy);
      FreezeStays(z, s, run[0], user);
      RunDrains(z, Step(s, run[0]), run[1..], user, policy);
    }
  }

  /** A freeze is in force in a reachable state and is not lifted in the run that follows. */
  ghost predicate FrozenFrom(z: Freeze, start: System, before: seq<Event>, after: seq<Event>, user: string) {
    && Initial(start) && Lower(user) == user
    && CanRun(start, before) && CanRun(RunOf(start, before), after)
    && InForce(z, RunOf(start, before).guard, user) && NeverLifted(z, after, user)
  }

  lemma ReachableIsSound(start: System, before: seq<Event>, user: string)
    requires Initial(start) && CanRun(start, before) && Lower(user) == user
    ensures Sound(RunOf(start, before), user, PolicyOf(start, user))
  {
    hide Initial, CanRun, RunOf, Sound, PolicyOf;
    InitialIsSound(start, user);
    RunKeepsSound(start, before, user, PolicyOf(start, user));
  }

  /** While a freeze is in force, every order that is still recorded for the user uses up one
      of the requests that were past the check when it began: their number bounds the orders
      to come, whatever is submitted meanwhile. */
  lemma FrozenPipelineDrains(z: Freeze, start: System, before: seq<Event>, after: seq<Event>, user: string)
    requires FrozenFrom(z, start, before, after, user)
    ensures var s := RunOf(start, before);
            var end := RunOf(s, after);
            && InForce(z, end.guard, user)
            && |LogOf(end, user).orders| + AllPast(z, end.flights, user) <=
                 |LogOf(s, user).orders| + AllPast(z, s.flights, user)
  {
    hide Initial, CanRun, RunOf, Sound, PolicyOf, InForce, NeverLifted, AllPast, LogOf;
    ReachableIsSound(start, before, user);
    RunDrains(z, RunOf(start, before), after, user, PolicyOf(start, user));
  }

  // --- Rejections ---

  /** The request may still be counted as a rejection although the freeze is in force. */
  function MayCount(z: Freeze, f: Flight, user: string): nat {
    if !f.Busy? || UserOf(f) != user then 0
    else if f.stage.Counting? then 1
    else if (f.stage.Checking? || f.stage.Asking?) && (z.Everybody? || HasPassed(f, KillSwitchRule)) then 1
    else 0
  }

  function MayCounter(z: Freeze, user: string): Flight -> nat {
    f => MayCount(z, f, user)
  }

  function AllMayCount(z: Freeze, flights: seq<Flight>, user: string): nat {
    Sum(MayCounter(z, user), flights)
  }

  /** On its way to the kill switch a request meets no check that counts. */
  ghost predicate FrontOk(f: Flight) {
    f.Busy? && (f.stage.Checking? || f.stage.Asking?) && f.done <= |f.chain| && !HasPassed(f, KillSwitchRule) ==>
      A.KillSwitchFirst(f.chain[f.done..])
  }

  ghost predicate FrontsOk(s: System) {
    A.KillSwitchFirst(s.guard.checks) && forall i :: 0 <= i < |s.flights| ==> FrontOk(s.flights[i])
  }

  lemma FrontStays(g: GuardState, f: Flight, a: Action, env: Env)
    requires OfRequest(a) && f.Busy? && Ready(f, a) && FrontOk(f) && A.KillSwitchFirst(g.checks)
    ensures FrontOk(FlightAfter(g, f, a, env))
  {
    hide Judge;
    if a.Admit? {
      assert g.checks[0..] == g.checks;
    } else if a.Evaluate? {
      var rest := f.chain[f.done..];
      assert rest[0] == f.chain[f.done] && rest[1..] == f.chain[f.done + 1..];
      if Answered(g, f, env).Allow? && !HasPassed(FlightAfter(g, f, a, env), KillSwitchRule) {
        NotPassedBefore(f, FlightAfter(g, f, a, env));
      }
    }
  }

  lemma NotPassedBefore(f: Flight, f': Flight)
    requires f.Busy? && f'.Busy? && f.done < |f.chain| && f'.chain == f.chain && f'.done == f.done + 1
    requires !HasPassed(f', KillSwitchRule)
    ensures !HasPassed(f, KillSwitchRule) && f.chain[f.done].rule != KillSwitchRule
  {
  }

  lemma OwnStepCounts(
    z: Freeze, g: GuardState, l: UserLog, user: string, policy: Limits, f: Flight, a: Action, env: Env)
    requires InForce(z, g, user) && FlightOk(f, user, policy) && FrontOk(f)
    requires OfRequest(a) && f.Busy? && Ready(f, a) && UserOf(f) == user
    ensures |LogAfter(g, l, f, a, env).rejections| + MayCount(z, FlightAfter(g, f, a, env), user) <=
              |l.rejections| + MayCount(z, f, user)
  {
    hide FlightOk, FrontOk;
    if a.Evaluate? {
      CheckCounts(z, g, user, f, a, env);
    } else {
      hide Judge;
    }
  }

  lemma CheckCounts(z: Freeze, g: GuardState, user: string, f: Flight, a: Action, env: Env)
    requires a.Evaluate? && f.Busy? && Ready(f, a) && UserOf(f) == user && InForce(z, g, user) && FrontOk(f)
    ensures MayCount(z, FlightAfter(g, f, a, env), user) <= MayCount(z, f, user)
  {
    if z.OneUser? && !HasPassed(f, KillSwitchRule) {
      var rest := f.chain[f.done..];
      assert rest[0] == f.chain[f.done];
      assert !f.chain[f.done].counted;
    }
    if f.chain[f.done].rule != KillSwitchRule {
      hide Judge;
    }
  }

  lemma ForeignStepCounts(z: Freeze, g: GuardState, user: string, f: Flight, a: Action, env: Env)
    requires OfRequest(a) && f.Busy? && Ready(f, a) && UserOf(f) != user
    ensures MayCount(z, FlightAfter(g, f, a, env), user) == 0 == MayCount(z, f, user)
  {
    hide Judge, HasPassed;
  }

  lemma AllMayCountUpdate(z: Freeze, flights: seq<Flight>, i: nat, f: Flight, user: string)
    requires i < |flights|
    ensures AllMayCount(z, flights[i := f], user) ==
              AllMayCount(z, flights, user) - MayCount(z, flights[i], user) + MayCount(z, f, user)
  {
    hide MayCount;
    SumUpdate(MayCounter(z, user), flights, i, f);
  }

  lemma EnteringCountsNothing(req: Request, user: string)
    ensures forall z :: MayCount(z, Busy(req, Entering, [], 0), user) == 0 == MayCount(z, Idle, user)
    ensures FrontOk(Busy(req, Entering, [], 0))
  {
  }

  lemma StepCounts(z: Freeze, s: System, e: Event, user: string, policy: Limits)
    requires Enabled(s, e) && InForce(z, s.guard, user) && FlightsOk(s.flights, user, policy) && FrontsOk(s)
    ensures |LogOf(Step(s, e), user).rejections| + AllMayCount(z, Step(s, e).flights, user) <=
              |LogOf(s, user).rejections| + AllMayCount(z, s.flights, user)
  {
    hide GuardAfter, GuardAfterCall, LogAfter, FlightAfter, Ready, MayCount, InForce, FlightOk, FrontOk, AllMayCount;
    if e.action.Begin? {
      var req := BuildRequest(e.action.email, e.action.tool, e.action.args);
      AllMayCountUpdate(z, s.flights, e.action.slot, Busy(req, Entering, [], 0), user);
      EnteringCountsNothing(req, user);
    } else if OfRequest(e.action) {
      var f := s.flights[e.action.slot];
      AllMayCountUpdate(z, s.flights, e.action.slot, FlightAfter(s.guard, f, e.action, e.env), user);
      if UserOf(f) == user {
        OwnStepCounts(z, s.guard, LogOf(s, user), user, policy, f, e.action, e.env);
      } else {
        ForeignStepCounts(z, s.guard, user, f, e.action, e.env);
      }
    }
  }

  lemma {:induction false} RunDrainsCounts(z: Freeze, s: System, run: seq<Event>, user: string, policy: Limits)
    requires Sound(s, user, policy) && CanRun(s, run) && InForce(z, s.guard, user) && NeverLifted(z, run, user)
    requires FrontsOk(s)
    ensures |LogOf(RunOf(s, run), user).rejections| + AllMayCount(z, RunOf(s, run).flights, user) <=
              |LogOf(s, user).rejections| + AllMayCount(z, s.flights, user)
    decreases |run|
  {
    hide Enabled, Step, InForce, Lifts, GuardOk, FlightsOk, AllMayCount, LogOf, FrontsOk;
    if run != [] {
      StepKeepsSound(s, run[0], user, policy);
      StepCounts(z, s, run[0], user, policy);
      StepKeepsFronts(s, run[0]);
      FreezeStays(z, s, run[0], user);
      RunDrainsCounts(z, Step(s, run[0]), run[1..], user, policy);
    }
  }

  lemma {:induction false} ReachableFronts(s: System, run: seq<Event>)
    requires FrontsOk(s) && CanRun(s, run)
    ensures FrontsOk(RunOf(s, run))
    decreases |run|
  {
    hide Enabled, Step, FrontsOk;
    if run != [] {
      StepKeepsFronts(s, run[0]);
      ReachableFronts(Step(s, run[0]), run[1..]);
    }
  }

  lemma StepKeepsFronts(s: System, e: Event)
    requires Enabled(s, e) && FrontsOk(s)
    ensures FrontsOk(Step(s, e))
  {
    hide GuardAfter, GuardAfterCall, LogAfter, FlightAfter, Ready, FrontOk;
    StepKeepsChain(s, e);
    if e.action.Begin? {
      EnteringCountsNothing(BuildRequest(e.action.email, e.action.tool, e.action.args), "");
    } else if OfRequest(e.action) {
      FrontStays(s.guard, s.flights[e.action.slot], e.action, e.env);
    }
  }

  lemma InitialFronts(s: System)
    requires Initial(s) && A.KillSwitchFirst(s.guard.checks)
    ensures FrontsOk(s)
  {
  }

  /** While a freeze is in force, every rejection that is still counted for the user uses up
      one of the requests that were past the freeze, or on their way to the count, when it
      began: under interleaving the counted log stops after those. */
  lemma FrozenCountsDrain(z: Freeze, start: System, before: seq<Event>, after: seq<Event>, user: string)
    requires FrozenFrom(z, start, before, after, user) && A.KillSwitchFirst(start.guard.checks)
    ensures var s := RunOf(start, before);
            var end := RunOf(s, after);
            |LogOf(end, user).rejections| + AllMayCount(z, end.flights, user) <=
              |LogOf(s, user).rejections| + AllMayCount(z, s.flights, user)
  {
    hide Initial, CanRun, RunOf, Sound, PolicyOf, InForce, NeverLifted, AllMayCount, LogOf, FrontsOk;
    ReachableIsSound(start, before, user);
    InitialFronts(start);
    ReachableFronts(start, before);
    RunDrainsCounts(z, RunOf(start, before), after, user, PolicyOf(start, user));
  }
}
