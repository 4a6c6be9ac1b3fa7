/** What every interleaving keeps: the gate's bookkeeping represents each user's full log, and
    a request in flight has passed a prefix of a well-formed chain. */
module Coupling {
  import opened Base
  import opened Chain
  import opened Limits
  import opened Orders
  import opened PerSecond
  import opened History
  import opened GuardModel
  import opened Tracking
  import opened Protocol

  predicate HasPassed(f: Flight, rule: Rule) {
    f.Busy? && exists i :: 0 <= i < f.done && i < |f.chain| && f.chain[i].rule == rule
  }

  /** A request in flight: rupee prices, a walk along a well-formed chain, and a value within
      the per-order cap once the order-value check has let it through. */
  ghost predicate FlightOk(f: Flight, user: string, policy: Limits) {
    f.Busy? ==>
      && f.req.InRupees()
      && f.done <= |f.chain|
      && (f.stage.Entering? ==> f.done == 0)
      && (!f.stage.Entering? ==> WellFormed(f.chain))
      && (f.stage.Bumping? || f.stage.Incrementing? || f.stage.Recording? ==> f.done == |f.chain|)
      && (UserOf(f) == user && HasPassed(f, OrderValue) ==> f.req.Value() <= Max(0, policy.maxSingleOrder.amount))
  }

  ghost predicate FlightsOk(flights: seq<Flight>, user: string, policy: Limits) {
    forall i :: 0 <= i < |flights| ==> FlightOk(flights[i], user, policy)
  }

  /** The limits of the user that no step of the gate changes. */
  ghost predicate Governs(g: GuardState, user: string, policy: Limits) {
    && Lower(user) == user
    && Policy(Effective(g.limits, user)) == policy
    && policy.maxSingleOrder.currency == INR && policy.maxDailyValue.currency == INR
    && WellFormed(g.checks)
  }

  ghost predicate GuardOk(g: GuardState, l: UserLog, user: string, policy: Limits, now: Time) {
    && Follows(g, user, l.orders, l.rejections, policy.duplicateWindowSecs, now)
    && BucketOk(Get(g.perUser, user), l.bumps)
    && Governs(g, user, policy)
  }

  ghost predicate Sound(s: System, user: string, policy: Limits) {
    && GuardOk(s.guard, LogOf(s, user), user, policy, s.now)
    && FlightsOk(s.flights, user, policy)
  }

  // --- The gate ---

  lemma GuardWaits(g: GuardState, l: UserLog, user: string, policy: Limits, earlier: Time, now: Time)
    requires GuardOk(g, l, user, policy, earlier) && earlier <= now
    ensures GuardOk(g, l, user, policy, now)
  {
    hide Follows, BucketOk;
    CurrentTracker(g, user, l.orders, l.rejections, policy.duplicateWindowSecs, earlier, now);
  }

  lemma FreezeGoverned(g: GuardState, user: string, policy: Limits, other: string, l: Limits, stores: bool)
    requires Governs(g, user, policy) && Policy(l) == Policy(RecordFor(g.limits, other))
    ensures Governs(WithLimits(g, other, l, stores), user, policy)
  {
    FreezingKeepsPolicies(g.limits, other, l, user);
  }

  /** A request step of any user keeps the coupling for this one. */
  lemma RequestStepKeepsGuard(
    g: GuardState, l: UserLog, user: string, policy: Limits, earlier: Time, f: Flight, a: Action, env: Env)
    requires GuardOk(g, l, user, policy, earlier) && earlier <= env.now
    requires OfRequest(a) && f.Busy? && Ready(f, a) && f.req.InRupees()
    ensures GuardOk(GuardAfter(g, f, a, env), if UserOf(f) == user then LogAfter(g, l, f, a, env) else l,
                    user, policy, env.now)
  {
    hide Follows, BucketOk, WellFormed;
    var windowSecs, other := policy.duplicateWindowSecs, UserOf(f);
    GuardWaits(g, l, user, policy, earlier, env.now);
    match a
    case Evaluate(_) =>
      EffectFollows(g, user, l.orders, l.rejections, windowSecs, env.now, f.chain[f.done].rule, f.req, env);
    case Count(_) =>
      CountFollows(g, user, l.orders, l.rejections, windowSecs, env.now, other, env.now);
    case Trip(_) =>
      BreakerFollows(g, user, l.orders, l.rejections, windowSecs, env.now, other, env);
      BreakerGoverned(g, user, policy, other, env);
    case Bump(_) =>
      BumpKeeps(g, l, user, policy, other, f.stage.at, env.now);
    case Record(_) =>
      TrackFollows(g, user, l.orders, l.rejections, windowSecs, env.now, other, Some(f.req), env.now);
    case _ =>
  }

  lemma BreakerGoverned(g: GuardState, user: string, policy: Limits, other: string, env: Env)
    requires Governs(g, user, policy)
    ensures Governs(Breaker(g, other, env), user, policy)
  {
    FreezeGoverned(g, user, policy, other, Frozen(RecordFor(g.limits, other), BREAKER, BREAKER_REASON, env.now),
                   env.stores);
  }

  /** An increment with any clock reading, however late. */
  lemma BumpKeeps(g: GuardState, l: UserLog, user: string, policy: Limits, other: string, at: Time, now: Time)
    requires GuardOk(g, l, user, policy, now)
    ensures GuardOk(BumpSecond(g, other, at),
                    if other == user then l.(bumps := l.bumps + [Stamp(at, ())]) else l, user, policy, now)
  {
    hide Follows, BucketOk, WellFormed;
    if other == user {
      IncrementKeepsStreak(Get(g.perUser, user), l.bumps, at);
    }
    FollowsIgnoresSeconds(g, BumpSecond(g, other, at), user, l, policy, now);
  }

  lemma FollowsIgnoresSeconds(g: GuardState, g': GuardState, user: string, l: UserLog, policy: Limits, now: Time)
    requires Follows(g, user, l.orders, l.rejections, policy.duplicateWindowSecs, now)
    requires g'.trackers == g.trackers && g'.limits == g.limits
    ensures Follows(g', user, l.orders, l.rejections, policy.duplicateWindowSecs, now)
  {
    hide Represents;
  }

  /** An operator's or reader's call keeps the coupling. */
  lemma CallKeepsGuard(g: GuardState, l: UserLog, user: string, policy: Limits, earlier: Time, a: Action, env: Env)
    requires GuardOk(g, l, user, policy, earlier) && earlier <= env.now
    ensures GuardOk(GuardAfterCall(g, a, env), l, user, policy, env.now)
  {
    hide Represents, BucketOk, WellFormed;
    var windowSecs := policy.duplicateWindowSecs;
    GuardWaits(g, l, user, policy, earlier, env.now);
    match a
    case FreezeUser(email, who, reason) =>
      var r := Frozen(RecordFor(g.limits, Lower(email)), who, reason, env.now);
      FreezeFollows(g, user, l.orders, l.rejections, windowSecs, env.now, Lower(email), r, env.stores);
      FreezeGoverned(g, user, policy, Lower(email), r, env.stores);
    case UnfreezeUser(email) =>
      var r := Thawed(RecordFor(g.limits, Lower(email)));
      FreezeFollows(g, user, l.orders, l.rejections, windowSecs, env.now, Lower(email), r, env.stores);
      FreezeGoverned(g, user, policy, Lower(email), r, env.stores);
    case Report(email) =>
      if Lower(email) == user {
        TouchFollows(g, user, l.orders, l.rejections, windowSecs, env.now, env.now);
      }
    case _ =>
  }

  // --- The requests in flight ---

  lemma RequestStepKeepsFlight(
    g: GuardState, user: string, policy: Limits, f: Flight, a: Action, env: Env)
    requires Governs(g, user, policy) && FlightOk(f, user, policy)
    requires OfRequest(a) && f.Busy? && Ready(f, a)
    ensures FlightOk(FlightAfter(g, f, a, env), user, policy)
  {
    hide WellFormed;
    var f' := FlightAfter(g, f, a, env);
    if a.Evaluate? && f'.Busy? && f'.stage.Checking? {
      if f.chain[f.done].rule == OrderValue && UserOf(f) == user {
        assert Effective(g.limits, f.req.email) == Effective(g.limits, user);
        assert Policy(Effective(g.limits, user)).maxSingleOrder == policy.maxSingleOrder;
      }
    }
  }

  lemma NewFlightOk(tool: string, email: string, args: ToolArgs, user: string, policy: Limits)
    ensures FlightOk(Busy(BuildRequest(email, tool, args), Entering, [], 0), user, policy)
  {
  }

  lemma SoundFacts(s: System, user: string, policy: Limits, slot: nat)
    requires Sound(s, user, policy) && slot < |s.flights| && s.flights[slot].Busy?
    ensures s.flights[slot].req.InRupees() && Governs(s.guard, user, policy)
  {
  }

  /** Every step of every interleaving keeps the coupling. */
  lemma StepKeepsSound(s: System, e: Event, user: string, policy: Limits)
    requires Sound(s, user, policy) && Enabled(s, e)
    ensures Sound(Step(s, e), user, policy)
  {
    hide GuardOk, FlightOk;
    var l := LogOf(s, user);
    if e.action.Begin? {
      GuardWaits(s.guard, l, user, policy, s.now, e.env.now);
      NewFlightOk(e.action.tool, e.action.email, e.action.args, user, policy);
    } else if OfRequest(e.action) {
      var f := s.flights[e.action.slot];
      SoundFacts(s, user, policy, e.action.slot);
      RequestStepKeepsGuard(s.guard, l, user, policy, s.now, f, e.action, e.env);
      RequestStepKeepsFlight(s.guard, user, policy, f, e.action, e.env);
    } else {
      CallKeepsGuard(s.guard, l, user, policy, s.now, e.action, e.env);
      LogsDifferInReplies(GuardAfterCall(s.guard, e.action, e.env), l, LogOf(Step(s, e), user), user, policy,
                          e.env.now);
    }
  }

  lemma LogsDifferInReplies(g: GuardState, a: UserLog, b: UserLog, user: string, policy: Limits, now: Time)
    requires GuardOk(g, a, user, policy, now) && b.(replies := a.replies) == a
    ensures GuardOk(g, b, user, policy, now)
  {
  }
}
