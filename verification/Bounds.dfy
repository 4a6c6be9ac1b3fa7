/** What concurrency can and cannot do to the limits, over whole interleaved runs. */
module Bounds {
  import opened Base
  import opened Calendar
  import opened Chain
  import opened Limits
  import opened Orders
  import opened Trackers
  import opened Windows
  import opened History
  import opened GuardModel
  import opened Tracking
  import opened Protocol
  import opened Coupling
  import opened Overshoot

  predicate NaturalEvent(e: Event, user: string) {
    e.action.Begin? && Lower(e.action.email) == user ==> e.action.args.sig.quantity >= 0
  }

  /** Quantities that the user submits in the run are not negative. */
  ghost predicate NaturalRun(run: seq<Event>, user: string) {
    forall i :: 0 <= i < |run| ==> NaturalEvent(run[i], user)
  }

  ghost predicate NaturalFlights(flights: seq<Flight>, user: string) {
    forall i :: 0 <= i < |flights| && flights[i].Busy? && UserOf(flights[i]) == user ==>
      flights[i].req.sig.quantity >= 0
  }

  ghost predicate Natural(s: System, user: string) {
    NaturalOrders(LogOf(s, user).orders) && NaturalFlights(s.flights, user)
  }

  lemma StepKeepsNatural(s: System, e: Event, user: string)
    requires Enabled(s, e) && Natural(s, user) && NaturalEvent(e, user)
    ensures Natural(Step(s, e), user)
  {
    hide Judge, GuardAfter, GuardAfterCall;
    if e.action.Record? && UserOf(s.flights[e.action.slot]) == user {
      ValueIsNatural(s.flights[e.action.slot].req);
    }
  }

  lemma ValueIsNatural(req: Request)
    requires req.sig.quantity >= 0
    ensures req.Value() >= 0
  {
  }

  ghost predicate Invariant(gate: Gate, s: System, user: string, policy: Limits, k: nat, natural: bool) {
    && Sound(s, user, policy)
    && Within(gate, s, user, policy, k, natural)
    && AlwaysWithin(gate, LogOf(s, user), policy, Ceiling(gate, policy, k, natural))
    && (natural ==> Natural(s, user))
  }

  lemma StepKeepsInvariant(gate: Gate, s: System, e: Event, user: string, policy: Limits, k: nat, natural: bool)
    requires Enabled(s, e) && InFlight(s.flights, user) <= k
    requires natural ==> NaturalEvent(e, user)
    requires Invariant(gate, s, user, policy, k, natural) && Meaningful(gate, policy)
    ensures Invariant(gate, Step(s, e), user, policy, k, natural)
  {
    hide Sound, Within, AlwaysWithin, Enabled, Step, NaturalFlights, NaturalOrders, Ceiling, NaturalEvent;
    StepKeepsSound(s, e, user, policy);
    StepKeepsWithin(gate, s, e, user, policy, k, natural);
    StepKeepsHistory(gate, s, e, user, policy, k, natural);
    if natural {
      StepKeepsNatural(s, e, user);
    }
  }

  lemma NaturalRest(run: seq<Event>, user: string)
    requires run != [] && NaturalRun(run, user)
    ensures NaturalRun(run[1..], user) && NaturalEvent(run[0], user)
  {
  }

  lemma {:induction false} RunKeepsInvariant(
    gate: Gate, s: System, run: seq<Event>, user: string, policy: Limits, k: nat, natural: bool)
    requires CanRun(s, run) && AtMost(s, run, user, k) && (natural ==> NaturalRun(run, user))
    requires Invariant(gate, s, user, policy, k, natural) && Meaningful(gate, policy)
    ensures Invariant(gate, RunOf(s, run), user, policy, k, natural)
    decreases |run|
  {
    hide Invariant, Enabled, Step, NaturalRun, NaturalEvent;
    if run != [] {
      if natural {
        NaturalRest(run, user);
      }
      StepKeepsInvariant(gate, s, run[0], user, policy, k, natural);
      RunKeepsInvariant(gate, Step(s, run[0]), run[1..], user, policy, k, natural);
    }
  }

  /** The limits that govern a user throughout a run from this start. */
  function PolicyOf(s: System, user: string): Limits {
    Policy(Effective(s.guard.limits, user))
  }

  lemma InitialIsSound(s: System, user: string)
    requires Initial(s) && Lower(user) == user
    ensures Sound(s, user, PolicyOf(s, user))
  {
    hide WellFormed;
    FreshFollows(s.guard, user, s.now);
  }

  lemma FreshFollows(g: GuardState, user: string, now: Time)
    requires g.trackers == map[] && Lower(user) == user
    ensures Follows(g, user, [], [], Effective(g.limits, user).duplicateWindowSecs, now)
  {
  }

  lemma {:induction false} NothingPending(gate: Gate, flights: seq<Flight>, user: string)
    requires forall i :: 0 <= i < |flights| ==> flights[i].Idle?
    ensures Pending(gate, flights, user) == 0 == InFlight(flights, user)
  {
    if flights != [] {
      NothingPending(gate, flights[..|flights| - 1], user);
    }
  }

  lemma InitialIsWithin(gate: Gate, s: System, user: string, k: nat, natural: bool)
    requires Initial(s)
    ensures Within(gate, s, user, PolicyOf(s, user), k, natural)
    ensures AlwaysWithin(gate, LogOf(s, user), PolicyOf(s, user), Ceiling(gate, PolicyOf(s, user), k, natural))
    ensures Natural(s, user)
  {
    NothingPending(gate, s.flights, user);
  }

  /** In every reachable state of every interleaving with at most k requests of the user in
      flight, recorded orders and requests already past the check stay under the ceiling. */
  lemma ReachableInvariant(gate: Gate, s: System, run: seq<Event>, user: string, k: nat, natural: bool)
    requires Initial(s) && CanRun(s, run) && Lower(user) == user && AtMost(s, run, user, k)
    requires natural ==> NaturalRun(run, user)
    requires Meaningful(gate, PolicyOf(s, user))
    ensures Invariant(gate, RunOf(s, run), user, PolicyOf(s, user), k, natural)
  {
    hide Sound, Within, AlwaysWithin, Ceiling, Natural, NaturalRun, CanRun, AtMost, RunOf, Initial, PolicyOf;
    InitialIsSound(s, user);
    InitialIsWithin(gate, s, user, k, natural);
    RunKeepsInvariant(gate, s, run, user, PolicyOf(s, user), k, natural);
  }

  // --- The bounds ---

  /** The period of a gate that ends at any instant: the bound at the instants of the orders
      carries over. */
  lemma PeriodsStayUnder(gate: Gate, l: UserLog, policy: Limits, ceiling: nat, n: nat, t: Time)
    requires AlwaysWithin(gate, l, policy, ceiling) && n <= |l.orders| && Until(l.orders[..n], t)
    requires Sorted(l.orders)
    ensures Total(gate, l.orders[..n], Cutoff(gate, policy.duplicateWindowSecs, t)) <= ceiling
  {
    if n > 0 {
      var upTo := l.orders[..n];
      var last := upTo[n - 1].at;
      assert Total(gate, upTo, Cutoff(gate, policy.duplicateWindowSecs, last)) <= ceiling;
      UsedShrinks(gate, l.(orders := upTo), policy, last, t);
    }
  }

  lemma LogIsSorted(s: System, user: string, policy: Limits)
    requires Sound(s, user, policy)
    ensures Sorted(LogOf(s, user).orders)
  {
  }

  lemma PeriodBound(gate: Gate, s: System, run: seq<Event>, user: string, k: nat, natural: bool, n: nat, t: Time)
    requires Initial(s) && CanRun(s, run) && Lower(user) == user && AtMost(s, run, user, k)
    requires natural ==> NaturalRun(run, user)
    requires Meaningful(gate, PolicyOf(s, user))
    requires n <= |LogOf(RunOf(s, run), user).orders| && Until(LogOf(RunOf(s, run), user).orders[..n], t)
    ensures var upTo, p := LogOf(RunOf(s, run), user).orders[..n], PolicyOf(s, user);
            Total(gate, upTo, Cutoff(gate, p.duplicateWindowSecs, t)) <= Ceiling(gate, p, k, natural)
  {
    hide Sound, AlwaysWithin, Natural, NaturalRun, CanRun, AtMost, RunOf, Initial, PolicyOf, Total, Within, LogOf;
    var end, p := RunOf(s, run), PolicyOf(s, user);
    ReachableInvariant(gate, s, run, user, k, natural);
    LogIsSorted(end, user, p);
    PeriodsStayUnder(gate, LogOf(end, user), p, Ceiling(gate, p, k, natural), n, t);
  }

  /** What can be placed on one trading day with so many requests in flight: the daily limit,
      or one order of the per-order cap where value can be given back, and one more order of
      the cap for each further request. */
  function ValueBound(p: Limits, k: nat, natural: bool): int {
    var cap := Max(0, p.maxSingleOrder.amount);
    Max(0, (if natural then p.maxDailyValue.amount else Max(p.maxDailyValue.amount, cap)) + (k - 1) * cap)
  }

  /** Where the per-order cap is not above the daily limit, giving back value gains nothing. */
  lemma CreditGainsNothing(p: Limits, k: nat)
    requires p.maxSingleOrder.amount <= Max(0, p.maxDailyValue.amount)
    ensures ValueBound(p, k, false) == ValueBound(p, k, true)
  {
  }

  /** Bounded overshoot. Take any interleaving in which a user never has more than k requests
      in flight, and any instant t: among the user's orders up to t, those of the trading day
      exceed the daily limit by at most k - 1, those of the closed minute that ends at t
      exceed the minute limit by at most k - 1, and the value placed on the trading day stays
      under its bound: k - 1 times the per-order cap above the daily limit when the user gives
      nothing back, or when the cap is not above that limit. With k = 1 these bounds are the
      limits themselves. */
  lemma BoundedOvershoot(s: System, run: seq<Event>, user: string, k: nat, n: nat, t: Time)
    requires Initial(s) && CanRun(s, run) && Lower(user) == user && AtMost(s, run, user, k)
    requires n <= |LogOf(RunOf(s, run), user).orders| && Until(LogOf(RunOf(s, run), user).orders[..n], t)
    ensures var upTo, p := LogOf(RunOf(s, run), user).orders[..n], PolicyOf(s, user);
            && Total(DailyCount, upTo, ResetBoundary(t)) <= Max(0, p.maxOrdersPerDay + k - 1)
            && |Since(Instants(upTo), t - RATE_WINDOW)| <= Max(0, p.maxOrdersPerMinute + k - 1)
            && Total(DailyValue, upTo, ResetBoundary(t)) <= ValueBound(p, k, false)
            && (p.maxSingleOrder.amount <= Max(0, p.maxDailyValue.amount) || NaturalRun(run, user) ==>
                  Total(DailyValue, upTo, ResetBoundary(t)) <= ValueBound(p, k, true))
  {
    hide NaturalRun, CanRun, AtMost, RunOf, Initial, PolicyOf, Total, LogOf, Since, Instants, ResetBoundary, Until, Max;
    PeriodBound(DailyCount, s, run, user, k, false, n, t);
    PeriodBound(MinuteRate, s, run, user, k, false, n, t);
    RateIsTotal(LogOf(RunOf(s, run), user).orders[..n], t - RATE_WINDOW);
    PeriodBound(DailyValue, s, run, user, k, false, n, t);
    if NaturalRun(run, user) {
      PeriodBound(DailyValue, s, run, user, k, true, n, t);
    }
    if PolicyOf(s, user).maxSingleOrder.amount <= Max(0, PolicyOf(s, user).maxDailyValue.amount) {
      CreditGainsNothing(PolicyOf(s, user), k);
    }
  }

  /** The same for the counters that the gate itself keeps and reports. */
  lemma StatusStaysBounded(s: System, run: seq<Event>, user: string, k: nat, now: Time)
    requires Initial(s) && CanRun(s, run) && Lower(user) == user && AtMost(s, run, user, k)
    requires RunOf(s, run).now <= now
    ensures var status, p := Status(RunOf(s, run).guard, user, now), PolicyOf(s, user);
            && status.dailyOrderCount <= Max(0, p.maxOrdersPerDay + k - 1)
            && status.dailyPlacedValue.amount <= ValueBound(p, k, false)
            && (p.maxSingleOrder.amount <= Max(0, p.maxDailyValue.amount) || NaturalRun(run, user) ==>
                  status.dailyPlacedValue.amount <= ValueBound(p, k, true))
  {
    hide NaturalRun, CanRun, AtMost, RunOf, Initial, PolicyOf, Total, ResetBoundary, Until, Max, ValueBound, Represents,
      Within, AlwaysWithin;
    var end, p := RunOf(s, run), PolicyOf(s, user);
    var l := LogOf(end, user);
    ReachableInvariant(DailyCount, s, run, user, k, false);
    LoggedUntilNow(end, user, p);
    UntilLater(l.orders, end.now, now);
    TouchFollows(end.guard, user, l.orders, l.rejections, p.duplicateWindowSecs, end.now, now);
    assert l.orders[..|l.orders|] == l.orders;
    BoundedOvershoot(s, run, user, k, |l.orders|, now);
  }

  lemma UntilLater(log: seq<Stamp<Order>>, earlier: Time, now: Time)
    requires Until(log, earlier) && earlier <= now
    ensures Until(log, now)
  {
  }

  // --- One request at a time ---

  lemma {:induction false} TwoAddUp(gate: Gate, log: seq<Stamp<Order>>, i: nat, j: nat, cutoff: Time)
    requires !gate.DailyValue? && i < j < |log| && cutoff <= log[i].at && cutoff <= log[j].at
    requires Measure(gate, log[i].item) == 1 == Measure(gate, log[j].item)
    ensures Total(gate, log, cutoff) >= 2
  {
    var n := |log| - 1;
    if j < n {
      TwoAddUp(gate, log[..n], i, j, cutoff);
    } else {
      OneAddsUp(gate, log[..n], i, cutoff);
    }
  }

  lemma {:induction false} OneAddsUp(gate: Gate, log: seq<Stamp<Order>>, i: nat, cutoff: Time)
    requires !gate.DailyValue? && i < |log| && cutoff <= log[i].at && Measure(gate, log[i].item) == 1
    ensures Total(gate, log, cutoff) >= 1
  {
    var n := |log| - 1;
    if i < n {
      OneAddsUp(gate, log[..n], i, cutoff);
    } else {
      NaturalTotal(gate, log[..n], cutoff);
    }
  }

  /** Duplicate spacing: with one request of the user in flight at a time, two recorded orders
      for the same exchange, symbol, side and quantity are strictly more than the duplicate
      window apart. */
  lemma DuplicatesAreSpaced(s: System, run: seq<Event>, user: string, i: nat, j: nat)
    requires Initial(s) && CanRun(s, run) && Lower(user) == user && AtMost(s, run, user, 1)
    requires PolicyOf(s, user).duplicateWindowSecs > 0
    requires i < j < |LogOf(RunOf(s, run), user).orders|
    requires var orders := LogOf(RunOf(s, run), user).orders;
             orders[i].item.sig.Some? && orders[i].item.sig == orders[j].item.sig
    ensures var orders := LogOf(RunOf(s, run), user).orders;
            orders[j].at - orders[i].at > Span(PolicyOf(s, user).duplicateWindowSecs)
  {
    hide NaturalRun, CanRun, AtMost, RunOf, Initial, PolicyOf, Sound, LogOf, Total;
    var orders, p := LogOf(RunOf(s, run), user).orders, PolicyOf(s, user);
    var gate := SameOrder(orders[j].item.sig.value);
    ReachableInvariant(gate, s, run, user, 1, false);
    LogIsSorted(RunOf(s, run), user, p);
    var cutoff := Cutoff(gate, p.duplicateWindowSecs, orders[j].at);
    PeriodBound(gate, s, run, user, 1, false, j + 1, orders[j].at);
    if cutoff <= orders[i].at {
      TwoAddUp(gate, orders[..j + 1], i, j, cutoff);
      assert false;
    }
  }

  /** Why the daily value limit needs its condition, even for one request at a time: value
      given back before the opening lets a larger order pass its check, and the reset between
      the check and the record takes the credit away. What is then placed is the whole order,
      above the limit. */
  lemma CreditIsLostAtTheOpening(g: GuardState, req: Request, before: Env, after: Env)
    requires req.InRupees() && req.price.IsPositive()
    requires var user, p := Lower(req.email), Effective(g.limits, req.email);
             && user in g.trackers && p.maxDailyValue.currency == p.maxSingleOrder.currency == INR
             && p.maxDailyValue.amount < req.Value() <= p.maxSingleOrder.amount
             && g.trackers[user].dailyPlacedValue.currency == INR
             && g.trackers[user].dailyPlacedValue.amount < 0
             && g.trackers[user].dailyPlacedValue.amount + req.Value() <= p.maxDailyValue.amount
             && ResetBoundary(before.now) <= g.trackers[user].dayResetAt < ResetBoundary(after.now)
    ensures Judge(g, OrderValue, req, before).Allow? && Judge(g, DailyValueCap, req, before).Allow?
    ensures var user := Lower(req.email);
            var placed := Status(Track(g, user, Some(req), after.now), user, after.now).dailyPlacedValue;
            placed.amount == req.Value() > Effective(g.limits, req.email).maxDailyValue.amount
  {
    BoundaryMonotone(after.now, after.now);
  }
}
