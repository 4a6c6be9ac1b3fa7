/** The circuit breaker under interleaving. Counting a rejection and running the breaker are
    two lock sections, so the breaker can lag behind the count, but never by more than the
    rejections that are still on their way to it. */
module Breakers {
  import opened Base
  import opened Chain
  import opened Limits
  import opened Orders
  import opened PerSecond
  import opened Trackers
  import opened Windows
  import opened GuardModel
  import opened Tracking
  import opened Protocol
  import opened Coupling
  import opened Bounds
  import opened Drain

  /** A counted rejection whose breaker has not run yet. */
  function Lag(f: Flight, user: string): nat {
    if f.Busy? && UserOf(f) == user && f.stage.Tripping? then 1 else 0
  }

  function Lagger(user: string): Flight -> nat {
    f => Lag(f, user)
  }

  function Lagging(flights: seq<Flight>, user: string): nat {
    Sum(Lagger(user), flights)
  }

  function Recent(l: UserLog, now: Time): nat {
    |Since(l.rejections, now - AUTO_FREEZE_WINDOW)|
  }

  /** Whoever is not frozen has fewer counted rejections in the last five minutes than the
      threshold, apart from those that the breaker has yet to see. */
  ghost predicate KeepsUp(s: System, user: string) {
    IsFrozen(s.guard, user) || Recent(LogOf(s, user), s.now) < AUTO_FREEZE_THRESHOLD + Lagging(s.flights, user)
  }

  lemma RecentAfterCount(l: UserLog, now: Time)
    ensures Recent(l.(rejections := l.rejections + [Stamp(now, ())]), now) == Recent(l, now) + 1
  {
    SinceAppend(l.rejections, [Stamp(now, ())], now - AUTO_FREEZE_WINDOW);
    assert Since([Stamp(now, ())], now - AUTO_FREEZE_WINDOW) == [Stamp(now, ())];
  }

  /** A step of one of the user's requests. */
  lemma OwnStepKeepsUp(g: GuardState, l: UserLog, user: string, policy: Limits, f: Flight, a: Action, env: Env)
    requires GuardOk(g, l, user, policy, env.now) && policy.autoFreezeOnLimitHit
    requires OfRequest(a) && f.Busy? && Ready(f, a) && UserOf(f) == user
    ensures var g', f', l' := GuardAfter(g, f, a, env), FlightAfter(g, f, a, env), LogAfter(g, l, f, a, env);
            || IsFrozen(g', user)
            || Recent(l', env.now) < AUTO_FREEZE_THRESHOLD
            || (!IsFrozen(g, user) && Recent(l', env.now) + Lag(f, user) == Recent(l, env.now) + Lag(f', user))
  {
    hide Follows, BucketOk, WellFormed, Judge, Since, Breaker, Encode;
    if a.Trip? {
      assert Policy(Effective(g.limits, user)).autoFreezeOnLimitHit;
      BreakerFollows(g, user, l.orders, l.rejections, policy.duplicateWindowSecs, env.now, user, env);
    } else if a.Count? {
      RecentAfterCount(l, env.now);
    }
  }

  lemma ForeignStepLags(g: GuardState, user: string, f: Flight, a: Action, env: Env)
    requires OfRequest(a) && f.Busy? && Ready(f, a) && UserOf(f) != user
    ensures Lag(FlightAfter(g, f, a, env), user) == 0 == Lag(f, user)
  {
    hide Judge;
  }

  lemma LagUpdate(flights: seq<Flight>, i: nat, f: Flight, user: string)
    requires i < |flights|
    ensures Lagging(flights[i := f], user) == Lagging(flights, user) - Lag(flights[i], user) + Lag(f, user)
  {
    hide Lag;
    SumUpdate(Lagger(user), flights, i, f);
  }

  lemma RequestStepKeepsUp(s: System, e: Event, user: string, policy: Limits)
    requires Sound(s, user, policy) && Enabled(s, e) && policy.autoFreezeOnLimitHit && OfRequest(e.action)
    requires KeepsUp(s, user) && !IsFrozen(s.guard, user) && !IsFrozen(Step(s, e).guard, user)
    ensures KeepsUp(Step(s, e), user)
  {
    hide GuardOk, FlightOk, GuardAfter, FlightAfter, LogAfter, Ready, Since, Lag, IsFrozen, Lagging, Recent;
    var l, f := LogOf(s, user), s.flights[e.action.slot];
    var f' := FlightAfter(s.guard, f, e.action, e.env);
    RecentShrinks(l, s.now, e.env.now);
    LagUpdate(s.flights, e.action.slot, f', user);
    if UserOf(f) == user {
      SoundFacts(s, user, policy, e.action.slot);
      GuardWaits(s.guard, l, user, policy, s.now, e.env.now);
      OwnStepKeepsUp(s.guard, l, user, policy, f, e.action, e.env);
    } else {
      ForeignStepLags(s.guard, user, f, e.action, e.env);
    }
  }

  lemma RecentShrinks(l: UserLog, earlier: Time, now: Time)
    requires earlier <= now
    ensures Recent(l, now) <= Recent(l, earlier)
  {
    SinceShrinks(l.rejections, earlier - AUTO_FREEZE_WINDOW, now - AUTO_FREEZE_WINDOW);
  }

  lemma StepKeepsUp(s: System, e: Event, user: string, policy: Limits)
    requires Sound(s, user, policy) && Enabled(s, e) && policy.autoFreezeOnLimitHit
    requires KeepsUp(s, user) && !Lifts(OneUser, e.action, user)
    ensures KeepsUp(Step(s, e), user)
  {
    hide GuardOk, FlightOk, GuardAfter, FlightAfter, LogAfter, GuardAfterCall, Since, Lag;
    if IsFrozen(s.guard, user) {
      FreezeStays(OneUser, s, e, user);
    } else if IsFrozen(Step(s, e).guard, user) {
    } else if OfRequest(e.action) {
      RequestStepKeepsUp(s, e, user, policy);
    } else {
      RecentShrinks(LogOf(s, user), s.now, e.env.now);
      assert LogOf(Step(s, e), user).rejections == LogOf(s, user).rejections;
      if e.action.Begin? {
        var f := Busy(BuildRequest(e.action.email, e.action.tool, e.action.args), Entering, [], 0);
        LagUpdate(s.flights, e.action.slot, f, user);
        EnteringDoesNotLag(f, user);
      }
    }
  }

  lemma EnteringDoesNotLag(f: Flight, user: string)
    requires f.Busy? && f.stage.Entering?
    ensures Lag(f, user) == 0 == Lag(Idle, user)
  {
  }

  lemma {:induction false} RunKeepsUp(s: System, run: seq<Event>, user: string, policy: Limits)
    requires Sound(s, user, policy) && CanRun(s, run) && policy.autoFreezeOnLimitHit
    requires KeepsUp(s, user) && NeverLifted(OneUser, run, user)
    ensures KeepsUp(RunOf(s, run), user)
    decreases |run|
  {
    hide Sound, KeepsUp, Enabled, Step, Lifts;
    if run != [] {
      StepKeepsSound(s, run[0], user, policy);
      StepKeepsUp(s, run[0], user, policy);
      RunKeepsUp(Step(s, run[0]), run[1..], user, policy);
    }
  }

  /** In every interleaved run in which nobody lifts the user's freeze, a user with three or
      more counted rejections in the closed last five minutes is frozen, or one of those
      rejections is between its count and its breaker. */
  lemma ThreeStrikesFreeze(s: System, run: seq<Event>, user: string)
    requires Initial(s) && CanRun(s, run) && Lower(user) == user && NeverLifted(OneUser, run, user)
    requires PolicyOf(s, user).autoFreezeOnLimitHit
    ensures var end := RunOf(s, run);
            || IsFrozen(end.guard, user)
            || Recent(LogOf(end, user), end.now) < AUTO_FREEZE_THRESHOLD + Lagging(end.flights, user)
  {
    hide Sound, CanRun, RunOf, Initial, PolicyOf, Recent, Lagging, IsFrozen;
    InitialIsSound(s, user);
    NobodyLags(s, user);
    RunKeepsUp(s, run, user, PolicyOf(s, user));
  }

  lemma NobodyLags(s: System, user: string)
    requires Initial(s)
    ensures KeepsUp(s, user)
  {
  }
}
