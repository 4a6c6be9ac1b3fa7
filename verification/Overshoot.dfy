/** How far concurrency can overshoot a limit. A check and the record that makes it count are
    separate lock sections, so several requests may pass before any of them is recorded; with
    at most k requests of a user in flight the excess is at most k - 1 orders. */
module Overshoot {
  import opened Base
  import opened Calendar
  import opened Chain
  import opened Limits
  import opened Orders
  import opened PerSecond
  import opened Windows
  import opened History
  import opened GuardModel
  import opened Tracking
  import opened Protocol
  import opened Coupling

  /** The most that one order can use up. */
  function Unit(gate: Gate, policy: Limits): nat {
    if gate.DailyValue? then Max(0, policy.maxSingleOrder.amount) else 1
  }

  /** What one request at a time can use up. Orders of negative quantity give back placed
      value, and the credit may be gone when an order that passed on it is recorded; unless
      quantities are natural, the daily value can reach one order of the per-order cap. */
  function Cap(gate: Gate, policy: Limits, natural: bool): int {
    match gate
    case DailyCount => policy.maxOrdersPerDay
    case MinuteRate => policy.maxOrdersPerMinute
    case SameOrder(_) => 1
    case DailyValue =>
      if natural then policy.maxDailyValue.amount else Max(policy.maxDailyValue.amount, Unit(gate, policy))
  }

  function Ceiling(gate: Gate, policy: Limits, k: nat, natural: bool): int {
    Max(0, Cap(gate, policy, natural) + (k - 1) * Unit(gate, policy))
  }

  /** What the user's history uses up in the current period. */
  function Used(gate: Gate, l: UserLog, policy: Limits, now: Time): int {
    Total(gate, l.orders, Cutoff(gate, policy.duplicateWindowSecs, now))
  }

  /** What a request in flight may still add: it has passed the check and is not counted yet. */
  function Weight(gate: Gate, f: Flight, user: string): nat {
    if !HasPassed(f, RuleOf(gate)) || UserOf(f) != user || !Bound(f) then 0
    else
      match gate
      case SameOrder(sig) => if f.req.sig == sig then 1 else 0
      case DailyValue => Max(0, f.req.Value())
      case _ => 1
  }

  function Weigher(gate: Gate, user: string): Flight -> nat {
    f => Weight(gate, f, user)
  }

  function Pending(gate: Gate, flights: seq<Flight>, user: string): nat {
    Sum(Weigher(gate, user), flights)
  }

  // --- Sums over the slots ---

  lemma PendingUpdate(gate: Gate, flights: seq<Flight>, i: nat, f: Flight, user: string)
    requires i < |flights|
    ensures Pending(gate, flights[i := f], user) ==
              Pending(gate, flights, user) - Weight(gate, flights[i], user) + Weight(gate, f, user)
    ensures InFlight(flights[i := f], user) == InFlight(flights, user) - Counted(flights[i], user) + Counted(f, user)
  {
    hide Weight, Counted;
    SumUpdate(Weigher(gate, user), flights, i, f);
    SumUpdate(Counter(user), flights, i, f);
  }

  lemma {:induction false} PendingBound(gate: Gate, flights: seq<Flight>, user: string, policy: Limits)
    requires FlightsOk(flights, user, policy)
    ensures Pending(gate, flights, user) <= InFlight(flights, user) * Unit(gate, policy)
  {
    hide FlightOk;
    if flights != [] {
      var n := |flights| - 1;
      PendingBound(gate, flights[..n], user, policy);
      WeightBound(gate, flights[n], user, policy);
      var u := Unit(gate, policy);
      hide Weight, Unit;
      assert (InFlight(flights[..n], user) + 1) * u == InFlight(flights[..n], user) * u + u;
    }
  }

  /** The daily-value check comes after the order-value check, so whoever passed it stays
      within the per-order cap. */
  lemma WeightBound(gate: Gate, f: Flight, user: string, policy: Limits)
    requires FlightOk(f, user, policy)
    ensures Weight(gate, f, user) <= Counted(f, user) * Unit(gate, policy)
  {
    hide FlightOk;
    if Weight(gate, f, user) > 0 {
      assert UserOf(f) == user;
      if gate.DailyValue? {
        ValueWithinCap(f, user, policy);
      }
    }
  }

  lemma ValueWithinCap(f: Flight, user: string, policy: Limits)
    requires FlightOk(f, user, policy) && HasPassed(f, DailyValueCap) && UserOf(f) == user
    ensures f.req.Value() <= Max(0, policy.maxSingleOrder.amount)
  {
    hide WellFormed;
    var i :| 0 <= i < f.done && i < |f.chain| && f.chain[i].rule == DailyValueCap;
    if f.stage.Entering? {
      assert false;
    }
    OrderValueComesFirst(f.chain, i);
  }

  lemma OrderValueComesFirst(chain: seq<Check>, i: nat)
    requires WellFormed(chain) && i < |chain| && chain[i].rule == DailyValueCap
    ensures exists j :: 0 <= j < i && chain[j].rule == OrderValue
  {
    assert chain[i] == DAILY_VALUE;
    var j :| 0 <= j < |chain| && chain[j] == ORDER_VALUE;
  }

  // --- Time and records ---

  /** As time passes a period only loses orders. */
  lemma UsedShrinks(gate: Gate, l: UserLog, policy: Limits, earlier: Time, now: Time)
    requires earlier <= now && Until(l.orders, earlier)
    ensures Max(0, Used(gate, l, policy, now)) <= Max(0, Used(gate, l, policy, earlier))
  {
    var a, b := Cutoff(gate, policy.duplicateWindowSecs, earlier), Cutoff(gate, policy.duplicateWindowSecs, now);
    BoundaryMonotone(earlier, now);
    if gate.DailyValue? {
      if a != b {
        TotalOfStale(gate, l.orders, b);
      }
    } else {
      TotalShrinks(gate, l.orders, a, b);
    }
  }

  lemma UsedAfterRecord(gate: Gate, l: UserLog, policy: Limits, now: Time, o: Order)
    requires gate.SameOrder? ==> policy.duplicateWindowSecs > 0
    ensures Used(gate, l.(orders := l.orders + [Stamp(now, o)]), policy, now) ==
              Used(gate, l, policy, now) + Measure(gate, o)
  {
    BoundaryMonotone(now, now);
    TotalAppend(gate, l.orders, Stamp(now, o), Cutoff(gate, policy.duplicateWindowSecs, now));
  }

  // --- Passing a check ---

  /** A check lets a request of the user through only while the history leaves room for it. */
  lemma AdmissionLeavesRoom(
    gate: Gate, g: GuardState, l: UserLog, user: string, policy: Limits, req: Request, env: Env)
    requires GuardOk(g, l, user, policy, env.now) && Lower(req.email) == user && req.InRupees()
    requires gate.SameOrder? ==> policy.duplicateWindowSecs > 0 && gate.sig == req.sig
    requires Judge(g, RuleOf(gate), req, env).Allow?
    ensures gate.DailyValue? ==>
              req.Value() <= 0 || Used(gate, l, policy, env.now) + req.Value() <= policy.maxDailyValue.amount
    ensures !gate.DailyValue? ==> Used(gate, l, policy, env.now) + 1 <= Cap(gate, policy, true)
  {
    hide Follows, BucketOk, WellFormed, Total;
    assert Policy(Effective(g.limits, user)) == policy;
    ChecksAnswerFromHistory(g, user, l.orders, l.rejections, policy.duplicateWindowSecs, env.now, gate, req, env);
  }

  // --- The invariant ---

  /** What is used up and what may still be added stay under the ceiling together. */
  ghost predicate Within(gate: Gate, s: System, user: string, policy: Limits, k: nat, natural: bool) {
    Max(0, Used(gate, LogOf(s, user), policy, s.now)) + Pending(gate, s.flights, user) <=
      Ceiling(gate, policy, k, natural)
  }

  /** At the instant of every order the period that ends there is under the ceiling. */
  ghost predicate AlwaysWithin(gate: Gate, l: UserLog, policy: Limits, ceiling: int) {
    forall n {:trigger l.orders[..n]} :: 0 < n <= |l.orders| ==>
      Total(gate, l.orders[..n], Cutoff(gate, policy.duplicateWindowSecs, l.orders[n - 1].at)) <= ceiling
  }

  predicate Meaningful(gate: Gate, policy: Limits) {
    gate.SameOrder? ==> policy.duplicateWindowSecs > 0
  }

  lemma MulMonotone(a: int, b: int, u: nat)
    requires a <= b
    ensures a * u <= b * u
  {
  }

  /** Whatever else the user has in flight fits under the part of the ceiling above the cap. */
  lemma OthersFit(gate: Gate, flights: seq<Flight>, user: string, policy: Limits, k: nat, slot: nat)
    requires FlightsOk(flights, user, policy) && InFlight(flights, user) <= k
    requires slot < |flights| && Counted(flights[slot], user) == 1
    ensures Pending(gate, flights, user) - Weight(gate, flights[slot], user) <= (k - 1) * Unit(gate, policy)
  {
    hide FlightOk, Weight, Unit, Counted;
    PendingUpdate(gate, flights, slot, Idle, user);
    IdleWeighsNothing(gate, user);
    var others := flights[slot := Idle];
    assert FlightsOk(others, user, policy) by {
      IdleIsOk(user, policy);
    }
    PendingBound(gate, others, user, policy);
    MulMonotone(InFlight(others, user), k - 1, Unit(gate, policy));
  }

  lemma IdleWeighsNothing(gate: Gate, user: string)
    ensures Weight(gate, Idle, user) == 0 && Counted(Idle, user) == 0
  {
  }

  lemma IdleIsOk(user: string, policy: Limits)
    ensures FlightOk(Idle, user, policy)
  {
  }

  // --- One step ---

  /** A step either moves what is pending into what is used, or finds the sum under the cap. */
  predicate Fits(gate: Gate, policy: Limits, natural: bool, used: int, weight: int, used': int, weight': int) {
    || Max(0, used') + weight' <= Max(0, used) + weight
    || Max(0, used') + weight' <= Cap(gate, policy, natural)
  }

  lemma PassedAll(f: Flight, user: string, policy: Limits, gate: Gate)
    requires FlightOk(f, user, policy) && f.Busy? && f.stage.Recording?
    ensures HasPassed(f, RuleOf(gate))
  {
    assert CheckOf(gate) in f.chain;
  }

  function CheckOf(gate: Gate): (c: Check)
    ensures c.rule == RuleOf(gate)
  {
    match gate
    case DailyCount => DAILY_ORDER_COUNT
    case MinuteRate => RATE_LIMIT
    case SameOrder(_) => DUPLICATE_ORDER
    case DailyValue => DAILY_VALUE
  }

  lemma RecordFits(
    gate: Gate, g: GuardState, l: UserLog, user: string, policy: Limits, natural: bool, f: Flight, a: Action, env: Env)
    requires FlightOk(f, user, policy) && f.Busy? && UserOf(f) == user && a.Record? && Ready(f, a)
    requires Meaningful(gate, policy)
    ensures Fits(gate, policy, natural, Used(gate, l, policy, env.now), Weight(gate, f, user),
                 Used(gate, LogAfter(g, l, f, a, env), policy, env.now), Weight(gate, FlightAfter(g, f, a, env), user))
  {
    hide FlightOk;
    PassedAll(f, user, policy, gate);
    UsedAfterRecord(gate, l, policy, env.now, OrderOf(Some(f.req)));
  }

  ghost predicate NaturalOrders(log: seq<Stamp<Order>>) {
    forall i :: 0 <= i < |log| ==> log[i].item.value >= 0
  }

  lemma {:induction false} NaturalTotal(gate: Gate, log: seq<Stamp<Order>>, cutoff: Time)
    requires gate.DailyValue? ==> NaturalOrders(log)
    ensures Total(gate, log, cutoff) >= 0
  {
    if log != [] {
      NaturalTotal(gate, log[..|log| - 1], cutoff);
    }
  }

  /** Nothing has been given back. */
  ghost predicate NoCredit(l: UserLog, natural: bool) {
    natural ==> NaturalOrders(l.orders)
  }

  lemma AdmissionFits(gate: Gate, l: UserLog, policy: Limits, natural: bool, now: Time, w: nat)
    requires NoCredit(l, natural) && 0 < w <= Unit(gate, policy)
    requires Used(gate, l, policy, now) + w <= Cap(gate, policy, true)
    ensures Max(0, Used(gate, l, policy, now)) + w <= Cap(gate, policy, natural)
  {
    if natural || !gate.DailyValue? {
      NaturalTotal(gate, l.orders, Cutoff(gate, policy.duplicateWindowSecs, now));
    }
  }

  /** Only the quota's own check, by letting the request through, makes it weigh more. */
  lemma OnlyAdmissionAddsWeight(gate: Gate, g: GuardState, user: string, f: Flight, a: Action, env: Env)
    requires a.Evaluate? && f.Busy? && Ready(f, a)
    requires Weight(gate, FlightAfter(g, f, a, env), user) > Weight(gate, f, user)
    ensures f.chain[f.done].rule == RuleOf(gate) && Judge(g, RuleOf(gate), f.req, env).Allow?
    ensures gate.SameOrder? ==> gate.sig == f.req.sig
  {
    hide Judge;
  }

  lemma EvaluateUsesNothing(gate: Gate, g: GuardState, l: UserLog, policy: Limits, f: Flight, a: Action, env: Env)
    requires a.Evaluate? && f.Busy? && Ready(f, a)
    ensures Used(gate, LogAfter(g, l, f, a, env), policy, env.now) == Used(gate, l, policy, env.now)
  {
    hide Judge, Total;
  }

  lemma EvaluateFits(
    gate: Gate, g: GuardState, l: UserLog, user: string, policy: Limits, natural: bool, f: Flight, a: Action, env: Env)
    requires a.Evaluate? && f.Busy? && UserOf(f) == user && Ready(f, a) && Meaningful(gate, policy)
    requires NoCredit(l, natural)
    requires GuardOk(g, l, user, policy, env.now) && FlightOk(f, user, policy)
    requires FlightOk(FlightAfter(g, f, a, env), user, policy)
    ensures Fits(gate, policy, natural, Used(gate, l, policy, env.now), Weight(gate, f, user),
                 Used(gate, LogAfter(g, l, f, a, env), policy, env.now), Weight(gate, FlightAfter(g, f, a, env), user))
  {
    hide GuardOk, Judge, FlightOk, HasPassed, Used, LogAfter, FlightAfter, NoCredit;
    var f' := FlightAfter(g, f, a, env);
    EvaluateUsesNothing(gate, g, l, policy, f, a, env);
    if Weight(gate, f', user) > Weight(gate, f, user) {
      OnlyAdmissionAddsWeight(gate, g, user, f, a, env);
      InRupees(f, user, policy);
      AdmissionLeavesRoom(gate, g, l, user, policy, f.req, env);
      AdmittedWeight(gate, g, user, policy, f, a, env);
      AdmissionFits(gate, l, policy, natural, env.now, Weight(gate, f', user));
    }
  }

  lemma InRupees(f: Flight, user: string, policy: Limits)
    requires FlightOk(f, user, policy) && f.Busy?
    ensures f.req.InRupees()
  {
  }

  lemma AdmittedWeight(gate: Gate, g: GuardState, user: string, policy: Limits, f: Flight, a: Action, env: Env)
    requires a.Evaluate? && f.Busy? && Ready(f, a) && FlightOk(FlightAfter(g, f, a, env), user, policy)
    requires Weight(gate, FlightAfter(g, f, a, env), user) > 0
    ensures Weight(gate, FlightAfter(g, f, a, env), user) <= Unit(gate, policy)
    ensures Weight(gate, FlightAfter(g, f, a, env), user) == if gate.DailyValue? then f.req.Value() else 1
  {
    hide Judge, FlightOk;
    WeightBound(gate, FlightAfter(g, f, a, env), user, policy);
  }

  lemma RequestStepFits(
    gate: Gate, g: GuardState, l: UserLog, user: string, policy: Limits, natural: bool, f: Flight, a: Action, env: Env)
    requires OfRequest(a) && f.Busy? && UserOf(f) == user && Ready(f, a) && Meaningful(gate, policy)
    requires NoCredit(l, natural)
    requires GuardOk(g, l, user, policy, env.now) && FlightOk(f, user, policy)
    requires FlightOk(FlightAfter(g, f, a, env), user, policy)
    ensures Fits(gate, policy, natural, Used(gate, l, policy, env.now), Weight(gate, f, user),
                 Used(gate, LogAfter(g, l, f, a, env), policy, env.now), Weight(gate, FlightAfter(g, f, a, env), user))
  {
    hide GuardOk, FlightOk, Fits, NoCredit;
    match a
    case Evaluate(_) => EvaluateFits(gate, g, l, user, policy, natural, f, a, env);
    case Record(_) => RecordFits(gate, g, l, user, policy, natural, f, a, env);
    case _ => OtherStepFits(gate, g, l, user, policy, natural, f, a, env);
  }

  lemma OtherStepFits(
    gate: Gate, g: GuardState, l: UserLog, user: string, policy: Limits, natural: bool, f: Flight, a: Action, env: Env)
    requires OfRequest(a) && f.Busy? && UserOf(f) == user && Ready(f, a) && FlightOk(f, user, policy)
    requires !a.Evaluate? && !a.Record?
    ensures Fits(gate, policy, natural, Used(gate, l, policy, env.now), Weight(gate, f, user),
                 Used(gate, LogAfter(g, l, f, a, env), policy, env.now), Weight(gate, FlightAfter(g, f, a, env), user))
  {
  }

  // --- Every step ---

  lemma LoggedUntilNow(s: System, user: string, policy: Limits)
    requires Sound(s, user, policy)
    ensures Until(LogOf(s, user).orders, s.now)
  {
  }

  lemma ForeignWeight(gate: Gate, g: GuardState, user: string, f: Flight, a: Action, env: Env)
    requires OfRequest(a) && f.Busy? && Ready(f, a) && UserOf(f) != user
    ensures Weight(gate, f, user) == Weight(gate, FlightAfter(g, f, a, env), user) == 0
  {
    hide Judge;
  }

  lemma NewWeight(gate: Gate, req: Request, user: string)
    ensures Weight(gate, Busy(req, Entering, [], 0), user) == 0
  {
  }

  lemma RequestStepKeepsWithin(
    gate: Gate, s: System, e: Event, user: string, policy: Limits, k: nat, natural: bool)
    requires OfRequest(e.action) && Enabled(s, e) && Sound(s, user, policy)
    requires Meaningful(gate, policy) && NoCredit(LogOf(s, user), natural)
    requires Within(gate, s, user, policy, k, natural) && InFlight(s.flights, user) <= k
    ensures Within(gate, Step(s, e), user, policy, k, natural)
  {
    hide GuardOk, FlightOk, Used, Weight, GuardAfter, FlightAfter, LogAfter, Ready, Cap, Unit, NoCredit;
    var l, f := LogOf(s, user), s.flights[e.action.slot];
    var f' := FlightAfter(s.guard, f, e.action, e.env);
    LoggedUntilNow(s, user, policy);
    UsedShrinks(gate, l, policy, s.now, e.env.now);
    PendingUpdate(gate, s.flights, e.action.slot, f', user);
    if UserOf(f) == user {
      SoundFacts(s, user, policy, e.action.slot);
      GuardWaits(s.guard, l, user, policy, s.now, e.env.now);
      RequestStepKeepsFlight(s.guard, user, policy, f, e.action, e.env);
      RequestStepFits(gate, s.guard, l, user, policy, natural, f, e.action, e.env);
      OthersFit(gate, s.flights, user, policy, k, e.action.slot);
    } else {
      ForeignWeight(gate, s.guard, user, f, e.action, e.env);
    }
  }

  lemma SameUse(gate: Gate, a: UserLog, b: UserLog, policy: Limits, now: Time)
    requires a.orders == b.orders
    ensures Used(gate, a, policy, now) == Used(gate, b, policy, now)
  {
  }

  lemma StepKeepsWithin(
    gate: Gate, s: System, e: Event, user: string, policy: Limits, k: nat, natural: bool)
    requires Enabled(s, e) && Sound(s, user, policy)
    requires Meaningful(gate, policy) && NoCredit(LogOf(s, user), natural)
    requires Within(gate, s, user, policy, k, natural) && InFlight(s.flights, user) <= k
    ensures Within(gate, Step(s, e), user, policy, k, natural)
  {
    hide GuardOk, FlightOk, Used, Weight, GuardAfterCall, BuildRequest, Cap, Unit, NoCredit;
    if OfRequest(e.action) {
      RequestStepKeepsWithin(gate, s, e, user, policy, k, natural);
    } else {
      var l, l' := LogOf(s, user), LogOf(Step(s, e), user);
      LoggedUntilNow(s, user, policy);
      UsedShrinks(gate, l, policy, s.now, e.env.now);
      SameUse(gate, l, l', policy, e.env.now);
      if e.action.Begin? {
        var req := BuildRequest(e.action.email, e.action.tool, e.action.args);
        PendingUpdate(gate, s.flights, e.action.slot, Busy(req, Entering, [], 0), user);
        NewWeight(gate, req, user);
        IdleWeighsNothing(gate, user);
      }
    }
  }

  /** At the instant of every order the period that ends there is under the ceiling. */
  lemma StepKeepsHistory(
    gate: Gate, s: System, e: Event, user: string, policy: Limits, k: nat, natural: bool)
    requires Enabled(s, e) && Within(gate, Step(s, e), user, policy, k, natural)
    requires AlwaysWithin(gate, LogOf(s, user), policy, Ceiling(gate, policy, k, natural))
    ensures AlwaysWithin(gate, LogOf(Step(s, e), user), policy, Ceiling(gate, policy, k, natural))
  {
    hide Within, AlwaysWithin, Ceiling, Used, Step, Enabled, LogOf;
    NowWithin(gate, Step(s, e), user, policy, k, natural);
    LogGrowth(s, e, user);
    LongerLogStays(gate, LogOf(s, user), LogOf(Step(s, e), user), policy, Ceiling(gate, policy, k, natural), e.env.now);
  }

  lemma LongerLogStays(gate: Gate, l: UserLog, l': UserLog, policy: Limits, ceiling: int, now: Time)
    requires AlwaysWithin(gate, l, policy, ceiling) && Used(gate, l', policy, now) <= ceiling
    requires l'.orders == l.orders || exists o :: l'.orders == l.orders + [Stamp(now, o)]
    ensures AlwaysWithin(gate, l', policy, ceiling)
  {
    hide Cutoff, Total;
    forall n | 0 < n <= |l.orders| ensures l'.orders[..n] == l.orders[..n] {}
    assert l'.orders[..|l'.orders|] == l'.orders;
  }

  lemma NowWithin(gate: Gate, s: System, user: string, policy: Limits, k: nat, natural: bool)
    requires Within(gate, s, user, policy, k, natural)
    ensures Used(gate, LogOf(s, user), policy, s.now) <= Ceiling(gate, policy, k, natural)
  {
  }

  /** A log grows by at most one order per step, stamped with the instant of the step. */
  lemma LogGrowth(s: System, e: Event, user: string)
    requires Enabled(s, e)
    ensures var l, l' := LogOf(s, user), LogOf(Step(s, e), user);
            && (l'.orders == l.orders
                || (exists o :: l'.orders == l.orders + [Stamp(e.env.now, o)]))
            && Step(s, e).now == e.env.now
  {
    hide Judge, GuardAfter, GuardAfterCall, FlightAfter;
  }
}
