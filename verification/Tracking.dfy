/** How the gate's atomic operations move a user's full logs, and what its checks answer in
    terms of those logs. Shared by sequential runs and by the interleaved protocol. */
module Tracking {
  import opened Base
  import opened Calendar
  import opened Chain
  import opened Dedup
  import opened Limits
  import opened Orders
  import opened Trackers
  import opened Windows
  import opened History
  import opened GuardModel

  /** A user without a tracker has done nothing yet. */
  ghost predicate Tracked(
    t: Option<Tracker>, log: seq<Stamp<Order>>, rejections: seq<Stamp<()>>, windowSecs: int, now: Time)
  {
    match t
    case None => log == [] && rejections == []
    case Some(t) => Represents(t, log, rejections, windowSecs, now)
  }

  /** The gate holds the fast form of these logs of the user. */
  ghost predicate Follows(
    g: GuardState, user: string, log: seq<Stamp<Order>>, rejections: seq<Stamp<()>>, windowSecs: int, now: Time)
  {
    && Tracked(Get(g.trackers, user), log, rejections, windowSecs, now)
    && Effective(g.limits, user).duplicateWindowSecs == windowSecs
    && Lower(user) == user
  }

  lemma CurrentTracker(
    g: GuardState, user: string, log: seq<Stamp<Order>>, rejections: seq<Stamp<()>>, windowSecs: int,
    earlier: Time, now: Time)
    requires Follows(g, user, log, rejections, windowSecs, earlier) && earlier <= now
    ensures Represents(TrackerOf(g.trackers, user, now), log, rejections, windowSecs, now)
    ensures Follows(g, user, log, rejections, windowSecs, now)
  {
    if user in g.trackers {
      TimePasses(g.trackers[user], log, rejections, windowSecs, earlier, now);
    } else {
      NewTrackerRepresents(windowSecs, now);
    }
  }

  lemma TouchFollows(
    g: GuardState, user: string, log: seq<Stamp<Order>>, rejections: seq<Stamp<()>>, windowSecs: int,
    earlier: Time, now: Time)
    requires Follows(g, user, log, rejections, windowSecs, earlier) && earlier <= now
    ensures Follows(Touch(g, user, now), user, log, rejections, windowSecs, now)
    ensures Status(g, user, now).dailyOrderCount == Total(DailyCount, log, ResetBoundary(now))
    ensures Status(g, user, now).dailyPlacedValue.amount == Total(DailyValue, log, ResetBoundary(now))
  {
    hide Represents;
    CurrentTracker(g, user, log, rejections, windowSecs, earlier, now);
    ResetRefines(TrackerOf(g.trackers, user, now), log, rejections, windowSecs, now, now);
  }

  /** No check adds to the logs. */
  lemma EffectFollows(
    g: GuardState, user: string, log: seq<Stamp<Order>>, rejections: seq<Stamp<()>>, windowSecs: int,
    earlier: Time, rule: Rule, req: Request, env: Env)
    requires Follows(g, user, log, rejections, windowSecs, earlier) && earlier <= env.now
    ensures Follows(Effect(g, rule, req, env), user, log, rejections, windowSecs, env.now)
  {
    hide Represents, ResetDay, PruneOrders, PruneParams, Fill, Added, HashInput;
    CurrentTracker(g, user, log, rejections, windowSecs, earlier, env.now);
    if Lower(req.email) == user {
      var t := TrackerOf(g.trackers, user, env.now);
      assert Effective(g.limits, req.email) == Effective(g.limits, user);
      match rule
      case DailyOrderCount => ResetRefines(t, log, rejections, windowSecs, env.now, env.now);
      case DailyValueCap => ResetRefines(t, log, rejections, windowSecs, env.now, env.now);
      case RateLimit => RateRefines(t, log, rejections, windowSecs, env.now, env.now);
      case DuplicateOrder => DuplicateRefines(t, log, rejections, windowSecs, env.now, env.now, req.sig);
      case _ =>
    }
  }

  /** The counting checks answer from the full history: each admits an order exactly when
      what the history adds up to leaves room for it. */
  ghost predicate Room(g: Gate, log: seq<Stamp<Order>>, limits: Limits, req: Request, now: Time) {
    var used := Total(g, log, Cutoff(g, limits.duplicateWindowSecs, now));
    match g
    case DailyCount => used < limits.maxOrdersPerDay
    case MinuteRate => used < limits.maxOrdersPerMinute
    case SameOrder(sig) => limits.duplicateWindowSecs <= 0 || used == 0
    case DailyValue => !req.price.IsPositive() || used + req.Value() <= limits.maxDailyValue.amount
  }

  function RuleOf(g: Gate): Rule {
    match g
    case DailyCount => DailyOrderCount
    case MinuteRate => RateLimit
    case SameOrder(_) => DuplicateOrder
    case DailyValue => DailyValueCap
  }

  lemma ChecksAnswerFromHistory(
    g: GuardState, user: string, log: seq<Stamp<Order>>, rejections: seq<Stamp<()>>, windowSecs: int,
    earlier: Time, gate: Gate, req: Request, env: Env)
    requires Follows(g, user, log, rejections, windowSecs, earlier) && earlier <= env.now
    requires Lower(req.email) == user && req.InRupees()
    requires Effective(g.limits, user).maxDailyValue.currency == INR
    requires gate.SameOrder? ==> gate.sig == req.sig
    ensures Judge(g, RuleOf(gate), req, env).Allow? <==> Room(gate, log, Effective(g.limits, user), req, env.now)
  {
    hide Represents;
    CurrentTracker(g, user, log, rejections, windowSecs, earlier, env.now);
    var t := TrackerOf(g.trackers, user, env.now);
    assert Effective(g.limits, req.email) == Effective(g.limits, user);
    match gate
    case DailyCount => ResetRefines(t, log, rejections, windowSecs, env.now, env.now);
    case DailyValue => ResetRefines(t, log, rejections, windowSecs, env.now, env.now);
    case MinuteRate => RateRefines(t, log, rejections, windowSecs, env.now, env.now);
    case SameOrder(sig) =>
      DuplicateRefines(t, log, rejections, windowSecs, env.now, env.now, sig);
      DuplicateIsTotal(log, sig, env.now - Span(windowSecs));
  }

  lemma CountFollows(
    g: GuardState, user: string, log: seq<Stamp<Order>>, rejections: seq<Stamp<()>>, windowSecs: int,
    earlier: Time, other: string, now: Time)
    requires Follows(g, user, log, rejections, windowSecs, earlier) && earlier <= now
    ensures Follows(CountRejection(g, other, now), user, log,
                    if other == user then rejections + [Stamp(now, ())] else rejections, windowSecs, now)
  {
    hide Represents;
    CurrentTracker(g, user, log, rejections, windowSecs, earlier, now);
    if other == user {
      RejectionIsLogged(TrackerOf(g.trackers, user, now), log, rejections, windowSecs, now, now);
    }
  }

  lemma FreezeFollows(
    g: GuardState, user: string, log: seq<Stamp<Order>>, rejections: seq<Stamp<()>>, windowSecs: int,
    now: Time, other: string, l: Limits, stores: bool)
    requires Follows(g, user, log, rejections, windowSecs, now)
    requires Policy(l) == Policy(RecordFor(g.limits, other))
    ensures Follows(WithLimits(g, other, l, stores), user, log, rejections, windowSecs, now)
  {
    hide Represents;
    FreezingKeepsPolicies(g.limits, other, l, user);
    assert Policy(Effective(g.limits[other := l], user)).duplicateWindowSecs == windowSecs;
  }

  /** The breaker freezes exactly when the full log holds three rejections of the closed last
      five minutes. */
  lemma BreakerFollows(
    g: GuardState, user: string, log: seq<Stamp<Order>>, rejections: seq<Stamp<()>>, windowSecs: int,
    earlier: Time, other: string, env: Env)
    requires Follows(g, user, log, rejections, windowSecs, earlier) && earlier <= env.now
    ensures Follows(Breaker(g, other, env), user, log, rejections, windowSecs, env.now)
    ensures other == user ==>
              (IsFrozen(Breaker(g, user, env), user) <==>
                 || IsFrozen(g, user)
                 || (&& Effective(g.limits, user).autoFreezeOnLimitHit
                     && |Since(rejections, env.now - AUTO_FREEZE_WINDOW)| >= AUTO_FREEZE_THRESHOLD))
  {
    hide Represents;
    CurrentTracker(g, user, log, rejections, windowSecs, earlier, env.now);
    var g' := WithTracker(g, other, PruneRejections(TrackerOf(g.trackers, other, env.now), env.now));
    if other == user {
      RejectionsRefine(TrackerOf(g.trackers, user, env.now), log, rejections, windowSecs, env.now, env.now);
    }
    assert Follows(g', user, log, rejections, windowSecs, env.now);
    FreezeFollows(g', user, log, rejections, windowSecs, env.now, other,
                  Frozen(RecordFor(g.limits, other), BREAKER, BREAKER_REASON, env.now), env.stores);
  }

  lemma TrackFollows(
    g: GuardState, user: string, log: seq<Stamp<Order>>, rejections: seq<Stamp<()>>, windowSecs: int,
    earlier: Time, other: string, req: Option<Request>, now: Time)
    requires Follows(g, user, log, rejections, windowSecs, earlier) && earlier <= now
    requires req.Some? ==> req.value.InRupees()
    ensures Follows(Track(g, other, req, now), user,
                    if other == user then log + [Stamp(now, OrderOf(req))] else log, rejections, windowSecs, now)
  {
    hide Represents;
    CurrentTracker(g, user, log, rejections, windowSecs, earlier, now);
    if other == user {
      OrderIsLogged(TrackerOf(g.trackers, user, now), log, rejections, windowSecs, now, now, req);
    }
  }
}
