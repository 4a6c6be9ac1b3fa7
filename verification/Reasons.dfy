/** What a refusal says is true: the reason that a user is given names a limit that the user's
    history does not meet, or is what an external check answered. */
module Reasons {
  import opened Base
  import opened Calendar
  import opened Chain
  import opened Dedup
  import opened Limits
  import opened Orders
  import opened PerSecond
  import opened History
  import opened GuardModel
  import opened Tracking
  import opened Laws
  import opened Protocol
  import opened Coupling
  import opened Keys
  import opened Bounds
  import opened Decision
  import opened Terms

  /** The external check refuses with this reason; a panic has a reason of its own. */
  predicate Objects(rule: Rule, reason: Reason, env: Env) {
    && rule.External?
    && (env.external(rule.name) == Answer(Reject(reason)) || (env.external(rule.name).Panic? && reason == CheckPanic))
  }

  /** Which rule of the gate refuses with which reason. */
  lemma ReasonOfRule(g: GuardState, rule: Rule, req: Request, env: Env)
    requires Judge(g, rule, req, env).Reject?
    ensures var reason := Judge(g, rule, req, env).reason;
            match rule
            case KillSwitchRule => reason == TradingFrozen
            case ConfirmationRequired => reason == ConfirmationMissing
            case OrderValue => reason == OrderValueLimit
            case DailyOrderCount => reason == DailyOrderLimit
            case PerSecondRate => reason == PerSecondRateExceeded
            case RateLimit => reason == RateLimitHit
            case ClientOrderId => reason == DuplicateSubmission
            case DuplicateOrder => reason == DuplicateSubmission
            case DailyValueCap => reason == DailyValueLimit
            case OffHoursBlock => reason == OffHoursBlocked
            case MarketHours => reason == MarketClosed
            case External(_) => Objects(rule, reason, env)
  {
  }

  /** The reason holds of the request, the user's history and the limits in force. */
  ghost predicate IsTrue(
    reason: Reason, l: UserLog, p: Limits, everybody: bool, frozen: bool, req: Request, now: Time)
  {
    var price, value := req.price.amount, req.price.amount * req.sig.quantity;
    match reason
    case GlobalFreeze => everybody
    case TradingFrozen => frozen
    case ConfirmationMissing => p.requireConfirmAllOrders && !req.confirmed
    case OrderValueLimit => price > 0 && value > p.maxSingleOrder.amount
    case DailyOrderLimit => Total(DailyCount, l.orders, ResetBoundary(now)) >= p.maxOrdersPerDay
    case PerSecondRateExceeded => Streak(l.bumps, now / 1_000_000_000) >= 9
    case RateLimitHit => Total(MinuteRate, l.orders, now - 60_000_000_000) >= p.maxOrdersPerMinute
    case DuplicateSubmission =>
      || KeyTaken(l.keys, req.clientOrderId, now)
      || (p.duplicateWindowSecs > 0 &&
          Total(SameOrder(req.sig), l.orders, now - p.duplicateWindowSecs * 1_000_000_000) > 0)
    case DailyValueLimit =>
      price > 0 && Total(DailyValue, l.orders, ResetBoundary(now)) + value > p.maxDailyValue.amount
    case OffHoursBlocked => !p.allowOffHours && OffHours(now)
    case MarketClosed => !MarketAllows(now, req.variety)
    case CheckPanic => false
    case Custom(_) => false
  }

  /** An external check of the chain refuses with this reason. */
  ghost predicate FromOutside(chain: seq<Check>, reason: Reason, env: Env) {
    exists i :: 0 <= i < |chain| && Objects(chain[i].rule, reason, env)
  }

  /** The reason of a walk is that of one of its checks, as judged before the call. */
  lemma {:induction false} SomeCheckObjects(g: GuardState, chain: seq<Check>, req: Request, env: Env) returns (i: nat)
    requires OneKeyCheck(chain) && Walk(g, chain, req, env).1.Blocked?
    ensures i < |chain| && Judge(g, chain[i].rule, req, env) == Reject(Walk(g, chain, req, env).1.reason)
    decreases |chain|
  {
    hide Judge, Effect, CountRejection, Breaker, BreakerTrips;
    i := 0;
    var g' := Effect(g, chain[0].rule, req, env);
    if Judge(g, chain[0].rule, req, env).Allow? {
      var j := SomeCheckObjects(g', chain[1..], req, env);
      EffectsDoNotInterfere(g, chain[0].rule, chain[j + 1].rule, req, env);
      i := j + 1;
    }
  }

  /** The four rules that count orders. */
  predicate Counting(rule: Rule) {
    rule.DailyOrderCount? || rule.RateLimit? || rule.DuplicateOrder? || rule.DailyValueCap?
  }

  function GateOf(rule: Rule, req: Request): (gate: Gate)
    requires Counting(rule)
    ensures RuleOf(gate) == rule && (gate.SameOrder? ==> gate.sig == req.sig)
  {
    match rule
    case DailyOrderCount => DailyCount
    case RateLimit => MinuteRate
    case DuplicateOrder => SameOrder(req.sig)
    case DailyValueCap => DailyValue
  }

  lemma NoRoom(g: GuardState, l: UserLog, user: string, p: Limits, rule: Rule, req: Request, env: Env)
    requires GuardOk(g, l, user, p, env.now) && Lower(req.email) == user && req.InRupees() && Counting(rule)
    requires Judge(g, rule, req, env).Reject?
    ensures !Room(GateOf(rule, req), l.orders, p, req, env.now)
  {
    hide Follows, BucketOk, WellFormed, Judge, Total, ResetBoundary;
    assert Policy(Effective(g.limits, user)) == p;
    ChecksAnswerFromHistory(g, user, l.orders, l.rejections, p.duplicateWindowSecs, env.now, GateOf(rule, req), req,
                            env);
  }

  lemma CountingObjection(
    g: GuardState, l: UserLog, user: string, p: Limits, rule: Rule, reason: Reason, req: Request, env: Env)
    requires GuardOk(g, l, user, p, env.now) && Lower(req.email) == user && req.InRupees() && Counting(rule)
    requires Judge(g, rule, req, env) == Reject(reason)
    ensures IsTrue(reason, l, p, g.killSwitch.frozen, IsFrozen(g, user), req, env.now)
  {
    hide GuardOk, Judge, Total, ResetBoundary, IsFrozen, KeyTaken;
    ReasonOfRule(g, rule, req, env);
    NoRoom(g, l, user, p, rule, req, env);
    SomeSameOrder(l.orders, req.sig, env.now - p.duplicateWindowSecs * 1_000_000_000);
  }

  lemma OtherObjection(
    g: GuardState, l: UserLog, user: string, p: Limits, rule: Rule, reason: Reason, req: Request, env: Env)
    requires GuardOk(g, l, user, p, env.now) && Lower(req.email) == user && req.InRupees()
    requires req.clientOrderId != "" ==>
               KeysOk(g.entries, l.keys, user, env.now) && Earned(g.entries, l.keys, user, env.now)
    requires OwnRule(rule) && !Counting(rule) && Judge(g, rule, req, env) == Reject(reason)
    ensures IsTrue(reason, l, p, g.killSwitch.frozen, IsFrozen(g, user), req, env.now)
  {
    ReasonOfRule(g, rule, req, env);
    hide GuardOk, Judge, KeysOk, Earned, Total, ResetBoundary, MarketAllows, OffHours, Streak, IsFrozen;
    OtherRules(g, l, user, p, req, env);
  }

  lemma ObjectionIsTrue(
    g: GuardState, l: UserLog, user: string, p: Limits, rule: Rule, reason: Reason, req: Request, env: Env)
    requires GuardOk(g, l, user, p, env.now) && Lower(req.email) == user && req.InRupees()
    requires req.clientOrderId != "" ==>
               KeysOk(g.entries, l.keys, user, env.now) && Earned(g.entries, l.keys, user, env.now)
    requires Judge(g, rule, req, env) == Reject(reason)
    ensures Objects(rule, reason, env) || IsTrue(reason, l, p, g.killSwitch.frozen, IsFrozen(g, user), req, env.now)
  {
    if rule.External? {
      ReasonOfRule(g, rule, req, env);
    } else if Counting(rule) {
      CountingObjection(g, l, user, p, rule, reason, req, env);
    } else {
      OtherObjection(g, l, user, p, rule, reason, req, env);
    }
  }

  /** In a state whose bookkeeping is sound, a refusal gives a reason that is true. */
  lemma RefusalIsTrue(g: GuardState, l: UserLog, user: string, p: Limits, req: Request, env: Env)
    requires GuardOk(g, l, user, p, env.now) && Lower(req.email) == user && req.InRupees()
    requires req.clientOrderId != "" ==>
               KeysOk(g.entries, l.keys, user, env.now) && Earned(g.entries, l.keys, user, env.now)
    requires OneKeyCheck(g.checks) && CheckOrder(g, req, env).1.Blocked?
    ensures var reason := CheckOrder(g, req, env).1.reason;
            || FromOutside(g.checks, reason, env)
            || IsTrue(reason, l, p, g.killSwitch.frozen, IsFrozen(g, user), req, env.now)
  {
    hide GuardOk, Judge, KeysOk, Earned, Walk, OneKeyCheck, Objects, IsFrozen;
    if !g.killSwitch.frozen {
      var i := SomeCheckObjects(g, g.checks, req, env);
      ObjectionIsTrue(g, l, user, p, g.checks[i].rule, CheckOrder(g, req, env).1.reason, req, env);
    }
  }

  /** Whatever happened before and however it was interleaved: the reason that a user is given
      names what the user's own history and limits do not allow, unless an external check
      answered with it. */
  lemma RefusalsTellTheTruth(s: System, run: seq<Event>, user: string, req: Request, env: Env)
    requires Initial(s) && CanRun(s, run) && Lower(user) == user && OneKeyCheck(s.guard.checks)
    requires req.clientOrderId != "" ==> NulFree(user) && NulFreeRun(run)
    requires Lower(req.email) == user && req.InRupees() && RunOf(s, run).now <= env.now
    requires CheckOrder(RunOf(s, run).guard, req, env).1.Blocked?
    ensures var end := RunOf(s, run);
            var reason := CheckOrder(end.guard, req, env).1.reason;
            || FromOutside(s.guard.checks, reason, env)
            || IsTrue(reason, LogOf(end, user), PolicyOf(s, user), end.guard.killSwitch.frozen,
                      IsFrozen(end.guard, user), req, env.now)
  {
    hide Initial, CanRun, RunOf, Sound, PolicyOf, OneKeyCheck, NulFree, NulFreeRun, NulFreeFlights, CheckOrder, IsTrue,
      FromOutside, GuardOk, KeysOk, Earned, LogOf, IsFrozen;
    ReachableBookkeeping(s, run, user, env.now);
    if req.clientOrderId != "" {
      ReachableKeys(s, run, user, env.now);
    }
    RefusalIsTrue(RunOf(s, run).guard, LogOf(RunOf(s, run), user), user, PolicyOf(s, user), req, env);
  }
}
