/** Users with at most one order a day. Giving back value gains them less: the order that gives
    back is itself the one of its day, so only requests that were past the count before it can
    use the credit. */
module OneADay {
  import opened Base
  import opened Calendar
  import opened Chain
  import opened Limits
  import opened Orders
  import opened Windows
  import opened History
  import opened GuardModel
  import opened Protocol
  import opened Coupling
  import opened Overshoot
  import opened Bounds

  function PerOrder(policy: Limits): nat {
    Max(0, policy.maxSingleOrder.amount)
  }

  function PerDay(policy: Limits): nat {
    Max(0, policy.maxDailyValue.amount)
  }

  /** No recorded order is above the per-order cap. */
  ghost predicate Capped(log: seq<Stamp<Order>>, policy: Limits) {
    forall i :: 0 <= i < |log| ==> log[i].item.value <= PerOrder(policy)
  }

  /** An order of the day within the daily limit, or a request past the count that the value
      check has not passed on credit. */
  predicate ModestOrder(o: Stamp<Order>, policy: Limits, now: Time) {
    ResetBoundary(now) <= o.at && o.item.value <= PerDay(policy)
  }

  predicate ModestFlight(f: Flight, user: string, policy: Limits) {
    Weight(DailyCount, f, user) == 1 && (!HasPassed(f, DailyValueCap) || f.req.Value() <= PerDay(policy))
  }

  ghost predicate SomeOrder(log: seq<Stamp<Order>>, policy: Limits, now: Time) {
    exists i :: 0 <= i < |log| && ModestOrder(log[i], policy, now)
  }

  ghost predicate SomeFlight(flights: seq<Flight>, user: string, policy: Limits) {
    exists i :: 0 <= i < |flights| && ModestFlight(flights[i], user, policy)
  }

  /** Orders of the day, and requests that may become such orders. */
  function Places(l: UserLog, flights: seq<Flight>, user: string, policy: Limits, now: Time): int {
    Used(DailyCount, l, policy, now) + Pending(DailyCount, flights, user)
  }

  /** When all k places of the day are taken, one of them is modest. */
  ghost predicate Spare(s: System, user: string, policy: Limits, k: nat) {
    var l := LogOf(s, user);
    || Places(l, s.flights, user, policy, s.now) < k
    || SomeOrder(l.orders, policy, s.now)
    || SomeFlight(s.flights, user, policy)
  }

  // --- Values ---

  lemma {:induction false} CappedTotal(log: seq<Stamp<Order>>, policy: Limits, cutoff: Time)
    requires Capped(log, policy)
    ensures Total(DailyValue, log, cutoff) <= Total(DailyCount, log, cutoff) * PerOrder(policy)
    ensures Total(DailyCount, log, cutoff) >= 0
  {
    if log != [] {
      var front := log[..|log| - 1];
      CappedTotal(front, policy, cutoff);
      var n, cap := Total(DailyCount, front, cutoff), PerOrder(policy);
      assert (n + 1) * cap == n * cap + cap;
    }
  }

  lemma {:induction false} ModestTotal(log: seq<Stamp<Order>>, policy: Limits, now: Time)
    requires Capped(log, policy) && SomeOrder(log, policy, now)
    ensures var cutoff := ResetBoundary(now);
            Total(DailyValue, log, cutoff) <= PerDay(policy) + (Total(DailyCount, log, cutoff) - 1) * PerOrder(policy)
  {
    var n, cutoff, cap := |log| - 1, ResetBoundary(now), PerOrder(policy);
    var front := log[..n];
    var i :| 0 <= i < |log| && ModestOrder(log[i], policy, now);
    var c := Total(DailyCount, front, cutoff);
    if i == n {
      CappedTotal(front, policy, cutoff);
    } else {
      assert ModestOrder(front[i], policy, now);
      ModestTotal(front, policy, now);
      assert (c - 1) * cap + cap == c * cap;
    }
  }

  /** Without a modest order the day's orders have not given anything back. */
  lemma {:induction false} ImmodestTotal(log: seq<Stamp<Order>>, policy: Limits, now: Time)
    requires !SomeOrder(log, policy, now)
    ensures Total(DailyValue, log, ResetBoundary(now)) >= 0
  {
    if log != [] {
      var n := |log| - 1;
      assert forall i :: 0 <= i < n ==> log[..n][i] == log[i];
      ImmodestTotal(log[..n], policy, now);
      assert !ModestOrder(log[n], policy, now);
    }
  }

  /** What one order a day leaves to place. */
  function DayBound(policy: Limits, k: nat): int {
    PerDay(policy) + (k - 1) * PerOrder(policy)
  }

  lemma SpareIsBounded(s: System, user: string, policy: Limits, k: nat)
    requires Spare(s, user, policy, k) && Capped(LogOf(s, user).orders, policy) && k >= 1
    requires Places(LogOf(s, user), s.flights, user, policy, s.now) <= k
    ensures Used(DailyValue, LogOf(s, user), policy, s.now) <= DayBound(policy, k)
  {
    hide Total, PerOrder, PerDay, Weight, ModestFlight;
    var log, cap := LogOf(s, user).orders, PerOrder(policy);
    var count := Total(DailyCount, log, ResetBoundary(s.now));
    CappedTotal(log, policy, ResetBoundary(s.now));
    if SomeOrder(log, policy, s.now) {
      ModestTotal(log, policy, s.now);
      MulMonotone(count - 1, k - 1, cap);
    } else {
      if SomeFlight(s.flights, user, policy) {
        FlightTakesAPlace(s.flights, user, policy);
      }
      assert count <= k - 1;
      MulMonotone(count, k - 1, cap);
    }
  }

  lemma FlightTakesAPlace(flights: seq<Flight>, user: string, policy: Limits)
    requires SomeFlight(flights, user, policy)
    ensures Pending(DailyCount, flights, user) >= 1
  {
    var i :| 0 <= i < |flights| && ModestFlight(flights[i], user, policy);
    PendingUpdate(DailyCount, flights, i, Idle, user);
    IdleWeighsNothing(DailyCount, user);
  }

  // --- Time ---

  /** As long as all places stay taken, no order has left the day. */
  lemma SpareLater(s: System, user: string, policy: Limits, k: nat, now: Time)
    requires Spare(s, user, policy, k) && s.now <= now && Until(LogOf(s, user).orders, s.now)
    requires Places(LogOf(s, user), s.flights, user, policy, s.now) <= k
    ensures Spare(s.(now := now), user, policy, k)
    ensures Places(LogOf(s, user), s.flights, user, policy, now) <= k
  {
    hide Weight, Pending;
    var l := LogOf(s, user);
    var early, late := ResetBoundary(s.now), ResetBoundary(now);
    assert LogOf(s.(now := now), user) == l;
    BoundaryMonotone(s.now, now);
    if early != late {
      TotalOfStale(DailyCount, l.orders, late);
      TotalShrinks(DailyCount, l.orders, early, late);
      if i :| 0 <= i < |l.orders| && ModestOrder(l.orders[i], policy, s.now) {
        OneAddsUp(DailyCount, l.orders, i, early);
      }
    }
  }

  // --- A step of one of the user's requests ---

  /** What a step does to a request, as far as the day is concerned. */
  ghost predicate ModestStep(
    l: UserLog, l': UserLog, user: string, policy: Limits, f: Flight, f': Flight, now: Time)
  {
    var w, w' := Weight(DailyCount, f, user), Weight(DailyCount, f', user);
    && (forall i :: 0 <= i < |l.orders| ==> i < |l'.orders| && l'.orders[i] == l.orders[i])
    && ( || ModestFlight(f', user, policy)
         || SomeOrder(l'.orders, policy, now)
         || (w' == w && !ModestFlight(f, user, policy) && l'.orders == l.orders)
         || (w' < w && l'.orders == l.orders)
         || (w == 1 && w' == 0 && !ModestFlight(f, user, policy) && |l'.orders| == |l.orders| + 1))
  }

  lemma CountComesFirst(chain: seq<Check>, done: nat)
    requires WellFormed(chain) && done < |chain| && chain[done].rule == DailyOrderCount
    ensures forall i :: 0 <= i <= done ==> chain[i].rule != DailyValueCap
  {
    forall i | 0 <= i <= done ensures chain[i].rule != DailyValueCap {
      assert Canonical(chain[i]) && Canonical(chain[done]);
      assert i < done ==> chain[i].order <= chain[done].order;
    }
  }

  lemma EvaluateIsModest(g: GuardState, l: UserLog, user: string, policy: Limits, f: Flight, a: Action, env: Env)
    requires GuardOk(g, l, user, policy, env.now) && FlightOk(f, user, policy)
    requires a.Evaluate? && f.Busy? && UserOf(f) == user && Ready(f, a)
    ensures ModestStep(l, LogAfter(g, l, f, a, env), user, policy, f, FlightAfter(g, f, a, env), env.now)
  {
    hide GuardOk, FlightOk, Judge, PerDay;
    EvaluateUsesNothing(DailyCount, g, l, policy, f, a, env);
    EvaluateLogsNothing(g, l, f, a, env);
    InRupees(f, user, policy);
    var f', rule := FlightAfter(g, f, a, env), f.chain[f.done].rule;
    if Answered(g, f, env).Allow? {
      if rule == DailyOrderCount {
        ChainIsFit(f, user, policy);
        CountComesFirst(f.chain, f.done);
      } else if rule == DailyValueCap {
        ValueCheckIsModest(g, l, user, policy, f.req, env);
      }
    }
  }

  lemma ChainIsFit(f: Flight, user: string, policy: Limits)
    requires FlightOk(f, user, policy) && f.Busy? && !f.stage.Entering?
    ensures WellFormed(f.chain)
  {
  }

  lemma EvaluateLogsNothing(g: GuardState, l: UserLog, f: Flight, a: Action, env: Env)
    requires a.Evaluate? && f.Busy? && Ready(f, a)
    ensures LogAfter(g, l, f, a, env).orders == l.orders
  {
    hide Judge;
  }

  lemma ValueCheckIsModest(g: GuardState, l: UserLog, user: string, policy: Limits, req: Request, env: Env)
    requires GuardOk(g, l, user, policy, env.now) && Lower(req.email) == user && req.InRupees()
    requires Judge(g, DailyValueCap, req, env).Allow?
    ensures SomeOrder(l.orders, policy, env.now) || req.Value() <= PerDay(policy)
  {
    hide GuardOk, Judge;
    AdmissionLeavesRoom(DailyValue, g, l, user, policy, req, env);
    if !SomeOrder(l.orders, policy, env.now) {
      ImmodestTotal(l.orders, policy, env.now);
    }
  }

  lemma RecordIsModest(g: GuardState, l: UserLog, user: string, policy: Limits, f: Flight, a: Action, env: Env)
    requires a.Record? && f.Busy? && UserOf(f) == user && Ready(f, a) && FlightOk(f, user, policy)
    ensures ModestStep(l, LogAfter(g, l, f, a, env), user, policy, f, FlightAfter(g, f, a, env), env.now)
  {
    hide FlightOk, PerDay;
    PassedAll(f, user, policy, DailyCount);
    PassedAll(f, user, policy, DailyValue);
    BoundaryMonotone(env.now, env.now);
    if f.req.Value() <= PerDay(policy) {
      assert ModestOrder(LogAfter(g, l, f, a, env).orders[|l.orders|], policy, env.now);
    }
  }

  lemma OtherStepIsModest(g: GuardState, l: UserLog, user: string, policy: Limits, f: Flight, a: Action, env: Env)
    requires OfRequest(a) && !a.Evaluate? && !a.Record? && f.Busy? && UserOf(f) == user && Ready(f, a)
    requires FlightOk(f, user, policy)
    ensures ModestStep(l, LogAfter(g, l, f, a, env), user, policy, f, FlightAfter(g, f, a, env), env.now)
  {
    hide Judge, PerDay, WellFormed;
  }

  lemma RequestStepIsModest(g: GuardState, l: UserLog, user: string, policy: Limits, f: Flight, a: Action, env: Env)
    requires GuardOk(g, l, user, policy, env.now) && FlightOk(f, user, policy)
    requires OfRequest(a) && f.Busy? && UserOf(f) == user && Ready(f, a)
    ensures ModestStep(l, LogAfter(g, l, f, a, env), user, policy, f, FlightAfter(g, f, a, env), env.now)
  {
    hide GuardOk, FlightOk, ModestStep, LogAfter, FlightAfter, Ready;
    match a
    case Evaluate(_) => EvaluateIsModest(g, l, user, policy, f, a, env);
    case Record(_) => RecordIsModest(g, l, user, policy, f, a, env);
    case _ => OtherStepIsModest(g, l, user, policy, f, a, env);
  }

  // --- Every step ---

  lemma OthersStay(flights: seq<Flight>, slot: nat, f: Flight, user: string, policy: Limits)
    requires slot < |flights| && SomeFlight(flights, user, policy) && !ModestFlight(flights[slot], user, policy)
    ensures SomeFlight(flights[slot := f], user, policy)
  {
    hide ModestFlight;
    var i :| 0 <= i < |flights| && ModestFlight(flights[i], user, policy);
    assert flights[slot := f][i] == flights[i];
  }

  lemma NewModest(flights: seq<Flight>, slot: nat, f: Flight, user: string, policy: Limits)
    requires slot < |flights| && ModestFlight(f, user, policy)
    ensures SomeFlight(flights[slot := f], user, policy)
  {
    hide ModestFlight;
    assert flights[slot := f][slot] == f;
  }

  lemma LongerKeepsSome(log: seq<Stamp<Order>>, log': seq<Stamp<Order>>, policy: Limits, now: Time)
    requires SomeOrder(log, policy, now)
    requires forall i :: 0 <= i < |log| ==> i < |log'| && log'[i] == log[i]
    ensures SomeOrder(log', policy, now)
  {
  }

  lemma OneMoreOrder(log: seq<Stamp<Order>>, log': seq<Stamp<Order>>, now: Time)
    requires log' == log || exists o :: log' == log + [Stamp(now, o)]
    requires |log'| == |log| + 1
    ensures Total(DailyCount, log', ResetBoundary(now)) == Total(DailyCount, log, ResetBoundary(now)) + 1
  {
    BoundaryMonotone(now, now);
    var o :| log' == log + [Stamp(now, o)];
    TotalAppend(DailyCount, log, Stamp(now, o), ResetBoundary(now));
  }

  /** A step of one slot, when the time has already passed. */
  lemma SlotKeepsSpare(
    s: System, s': System, slot: nat, user: string, policy: Limits, k: nat)
    requires slot < |s.flights| && slot < |s'.flights| && s'.flights == s.flights[slot := s'.flights[slot]]
    requires s'.now == s.now && Spare(s, user, policy, k)
    requires Places(LogOf(s, user), s.flights, user, policy, s.now) <= k
    requires ModestStep(LogOf(s, user), LogOf(s', user), user, policy, s.flights[slot], s'.flights[slot], s.now)
    requires var log, log' := LogOf(s, user).orders, LogOf(s', user).orders;
             log' == log || exists o :: log' == log + [Stamp(s.now, o)]
    ensures Spare(s', user, policy, k)
  {
    hide Weight, ModestFlight, SomeOrder, SomeFlight, LogOf, Pending, Total, ResetBoundary;
    var l, l', f, f' := LogOf(s, user), LogOf(s', user), s.flights[slot], s'.flights[slot];
    PendingUpdate(DailyCount, s.flights, slot, f', user);
    if ModestFlight(f', user, policy) {
      NewModest(s.flights, slot, f', user, policy);
    } else if !SomeOrder(l'.orders, policy, s.now) {
      if SomeOrder(l.orders, policy, s.now) {
        LongerKeepsSome(l.orders, l'.orders, policy, s.now);
      }
      if |l'.orders| == |l.orders| + 1 {
        OneMoreOrder(l.orders, l'.orders, s.now);
      }
      if SomeFlight(s.flights, user, policy) && !ModestFlight(f, user, policy) {
        OthersStay(s.flights, slot, f', user, policy);
      }
    }
  }

  lemma UnchangedIsModest(l: UserLog, l': UserLog, user: string, policy: Limits, f: Flight, f': Flight, now: Time)
    requires l'.orders == l.orders
    requires Weight(DailyCount, f, user) == 0 == Weight(DailyCount, f', user)
    ensures ModestStep(l, l', user, policy, f, f', now)
  {
  }

  /** The slot that an event is about. */
  predicate Slotted(a: Action) {
    a.Begin? || OfRequest(a)
  }

  lemma EventIsModest(s: System, e: Event, user: string, policy: Limits)
    requires Enabled(s, e) && Slotted(e.action) && Sound(s, user, policy)
    ensures ModestStep(LogOf(s, user), LogOf(Step(s, e), user), user, policy, s.flights[e.action.slot],
                       Step(s, e).flights[e.action.slot], e.env.now)
  {
    hide GuardOk, FlightOk, Weight, GuardAfter, FlightAfter, LogAfter, Ready, ModestStep, BuildRequest;
    var l, f := LogOf(s, user), s.flights[e.action.slot];
    if e.action.Begin? {
      var req := BuildRequest(e.action.email, e.action.tool, e.action.args);
      NewWeight(DailyCount, req, user);
      IdleWeighsNothing(DailyCount, user);
      UnchangedIsModest(l, l, user, policy, f, Busy(req, Entering, [], 0), e.env.now);
    } else if UserOf(f) == user {
      GuardWaits(s.guard, l, user, policy, s.now, e.env.now);
      RequestStepIsModest(s.guard, l, user, policy, f, e.action, e.env);
    } else {
      ForeignWeight(DailyCount, s.guard, user, f, e.action, e.env);
      UnchangedIsModest(l, l, user, policy, f, FlightAfter(s.guard, f, e.action, e.env), e.env.now);
    }
  }

  lemma OneSlotMoves(s: System, e: Event)
    requires Enabled(s, e)
    ensures Step(s, e).now == e.env.now
    ensures Slotted(e.action) ==> Step(s, e).flights == s.flights[e.action.slot := Step(s, e).flights[e.action.slot]]
    ensures !Slotted(e.action) ==> Step(s, e).flights == s.flights
    ensures !Slotted(e.action) ==> forall user :: LogOf(Step(s, e), user).orders == LogOf(s, user).orders
  {
    hide GuardAfter, GuardAfterCall, FlightAfter, LogAfter, BuildRequest;
  }

  lemma StepKeepsSpare(s: System, e: Event, user: string, policy: Limits, k: nat)
    requires Enabled(s, e) && Sound(s, user, policy) && Spare(s, user, policy, k)
    requires Places(LogOf(s, user), s.flights, user, policy, s.now) <= k
    ensures Spare(Step(s, e), user, policy, k)
  {
    hide Sound, Step, Enabled, ModestStep, SomeOrder, SomeFlight, Pending;
    var waiting, s' := s.(now := e.env.now), Step(s, e);
    assert LogOf(waiting, user) == LogOf(s, user);
    NotBefore(s, e);
    LoggedUntilNow(s, user, policy);
    SpareLater(s, user, policy, k, e.env.now);
    OneSlotMoves(s, e);
    if Slotted(e.action) {
      SlotInRange(s, e);
      EventIsModest(s, e, user, policy);
      LogGrowth(s, e, user);
      SlotKeepsSpare(waiting, s', e.action.slot, user, policy, k);
    }
  }

  lemma NotBefore(s: System, e: Event)
    requires Enabled(s, e)
    ensures s.now <= e.env.now
  {
  }

  lemma SlotInRange(s: System, e: Event)
    requires Enabled(s, e) && Slotted(e.action)
    ensures e.action.slot < |s.flights|
  {
  }

  lemma StepKeepsCapped(s: System, e: Event, user: string, policy: Limits)
    requires Enabled(s, e) && Sound(s, user, policy) && Capped(LogOf(s, user).orders, policy)
    ensures Capped(LogOf(Step(s, e), user).orders, policy)
  {
    hide GuardOk, FlightOk, Judge, GuardAfter, GuardAfterCall, FlightAfter;
    if e.action.Record? && UserOf(s.flights[e.action.slot]) == user {
      RecordedWithinCap(s.flights[e.action.slot], user, policy);
    }
  }

  lemma RecordedWithinCap(f: Flight, user: string, policy: Limits)
    requires FlightOk(f, user, policy) && f.Busy? && f.stage.Recording? && UserOf(f) == user
    ensures f.req.Value() <= PerOrder(policy)
  {
    hide FlightOk;
    PassedAll(f, user, policy, DailyValue);
    ValueWithinCap(f, user, policy);
  }

  // --- Whole runs ---

  ghost predicate DayInvariant(s: System, user: string, policy: Limits, k: nat) {
    && Invariant(DailyCount, s, user, policy, k, false)
    && Spare(s, user, policy, k) && Capped(LogOf(s, user).orders, policy)
    && AlwaysWithin(DailyValue, LogOf(s, user), policy, DayBound(policy, k))
  }

  lemma FewPlaces(s: System, user: string, policy: Limits, k: nat)
    requires Invariant(DailyCount, s, user, policy, k, false) && policy.maxOrdersPerDay <= 1 && k >= 1
    ensures Places(LogOf(s, user), s.flights, user, policy, s.now) <= k && Sound(s, user, policy)
  {
    hide Sound, Pending, Used, AlwaysWithin;
  }

  lemma StepKeepsDay(s: System, e: Event, user: string, policy: Limits, k: nat)
    requires Enabled(s, e) && InFlight(s.flights, user) <= k && policy.maxOrdersPerDay <= 1 && k >= 1
    requires DayInvariant(s, user, policy, k)
    ensures DayInvariant(Step(s, e), user, policy, k)
  {
    hide Invariant, Sound, Enabled, Step, Spare, Capped, AlwaysWithin, Places, LogOf, DayBound;
    var s' := Step(s, e);
    StepKeepsInvariant(DailyCount, s, e, user, policy, k, false);
    FewPlaces(s, user, policy, k);
    StepKeepsSpare(s, e, user, policy, k);
    StepKeepsCapped(s, e, user, policy);
    FewPlaces(s', user, policy, k);
    SpareIsBounded(s', user, policy, k);
    LogGrowth(s, e, user);
    LongerLogStays(DailyValue, LogOf(s, user), LogOf(s', user), policy, DayBound(policy, k), e.env.now);
  }

  lemma {:induction false} RunKeepsDay(s: System, run: seq<Event>, user: string, policy: Limits, k: nat)
    requires CanRun(s, run) && AtMost(s, run, user, k) && policy.maxOrdersPerDay <= 1 && k >= 1
    requires DayInvariant(s, user, policy, k)
    ensures DayInvariant(RunOf(s, run), user, policy, k)
    decreases |run|
  {
    hide DayInvariant, Enabled, Step;
    if run != [] {
      StepKeepsDay(s, run[0], user, policy, k);
      RunKeepsDay(Step(s, run[0]), run[1..], user, policy, k);
    }
  }

  lemma InitialDay(s: System, user: string, k: nat)
    requires Initial(s) && Lower(user) == user && k >= 1
    ensures DayInvariant(s, user, PolicyOf(s, user), k)
  {
    hide Sound, PolicyOf, DayBound;
    InitialIsSound(s, user);
    InitialIsWithin(DailyCount, s, user, k, false);
    NothingPending(DailyCount, s.flights, user);
  }

  /** With at most one order a day the credit gains at most the negative part of the daily
      limit: the day's value stays within that limit, counted as zero when it is negative, and
      one order of the per-order cap for each further request in flight. */
  lemma OneADayIsBounded(s: System, run: seq<Event>, user: string, k: nat, n: nat, t: Time)
    requires Initial(s) && CanRun(s, run) && Lower(user) == user && AtMost(s, run, user, k) && k >= 1
    requires PolicyOf(s, user).maxOrdersPerDay <= 1
    requires n <= |LogOf(RunOf(s, run), user).orders| && Until(LogOf(RunOf(s, run), user).orders[..n], t)
    ensures var upTo, p := LogOf(RunOf(s, run), user).orders[..n], PolicyOf(s, user);
            Total(DailyValue, upTo, ResetBoundary(t)) <=
              Max(0, p.maxDailyValue.amount) + (k - 1) * Max(0, p.maxSingleOrder.amount)
  {
    hide CanRun, AtMost, RunOf, Initial, PolicyOf, Total, LogOf, ResetBoundary, Until, Sound, Within, AlwaysWithin,
      Spare, Capped;
    var end, p := RunOf(s, run), PolicyOf(s, user);
    InitialDay(s, user, k);
    RunKeepsDay(s, run, user, p, k);
    LogIsSorted(end, user, p);
    MulMonotone(0, k - 1, PerOrder(p));
    PeriodsStayUnder(DailyValue, LogOf(end, user), p, DayBound(p, k), n, t);
  }

  // --- No order at all ---

  /** Nothing is recorded, and nobody is past the check of the quota. */
  ghost predicate Empty(gate: Gate, s: System, user: string, policy: Limits) {
    && Sound(s, user, policy) && LogOf(s, user).orders == [] && Pending(gate, s.flights, user) == 0
  }

  predicate Shut(gate: Gate, policy: Limits) {
    (gate.DailyCount? && policy.maxOrdersPerDay <= 0) || (gate.MinuteRate? && policy.maxOrdersPerMinute <= 0)
  }

  lemma FitsNothing(
    gate: Gate, g: GuardState, l: UserLog, user: string, policy: Limits, f: Flight, a: Action, env: Env)
    requires OfRequest(a) && f.Busy? && UserOf(f) == user && Ready(f, a) && Shut(gate, policy)
    requires GuardOk(g, l, user, policy, env.now) && FlightOk(f, user, policy)
    requires FlightOk(FlightAfter(g, f, a, env), user, policy)
    requires l.orders == [] && Weight(gate, f, user) == 0
    ensures LogAfter(g, l, f, a, env).orders == [] && Weight(gate, FlightAfter(g, f, a, env), user) == 0
  {
    hide GuardOk, FlightOk, Weight, FlightAfter, Judge, ResetBoundary;
    RequestStepFits(gate, g, l, user, policy, false, f, a, env);
    if a.Record? {
      UsedAfterRecord(gate, l, policy, env.now, OrderOf(Some(f.req)));
    }
  }

  lemma StepKeepsEmpty(gate: Gate, s: System, e: Event, user: string, policy: Limits)
    requires Enabled(s, e) && Empty(gate, s, user, policy) && Shut(gate, policy)
    ensures Empty(gate, Step(s, e), user, policy)
  {
    hide GuardOk, FlightOk, Weight, GuardAfter, FlightAfter, LogAfter, GuardAfterCall, Ready, BuildRequest;
    var l, s' := LogOf(s, user), Step(s, e);
    StepKeepsSound(s, e, user, policy);
    OneSlotMoves(s, e);
    if Slotted(e.action) {
      var f, f' := s.flights[e.action.slot], s'.flights[e.action.slot];
      PendingUpdate(gate, s.flights, e.action.slot, Idle, user);
      PendingUpdate(gate, s.flights, e.action.slot, f', user);
      IdleWeighsNothing(gate, user);
      if e.action.Begin? {
        NewWeight(gate, BuildRequest(e.action.email, e.action.tool, e.action.args), user);
      } else if UserOf(f) == user {
        GuardWaits(s.guard, l, user, policy, s.now, e.env.now);
        FitsNothing(gate, s.guard, l, user, policy, f, e.action, e.env);
      } else {
        ForeignWeight(gate, s.guard, user, f, e.action, e.env);
      }
    }
  }

  lemma {:induction false} RunKeepsEmpty(gate: Gate, s: System, run: seq<Event>, user: string, policy: Limits)
    requires CanRun(s, run) && Empty(gate, s, user, policy) && Shut(gate, policy)
    ensures Empty(gate, RunOf(s, run), user, policy)
    decreases |run|
  {
    hide Empty, Enabled, Step;
    if run != [] {
      StepKeepsEmpty(gate, s, run[0], user, policy);
      RunKeepsEmpty(gate, Step(s, run[0]), run[1..], user, policy);
    }
  }

  /** A daily or a minute limit below one lets no order through, however many are in flight. */
  lemma ShutMeansNone(s: System, run: seq<Event>, user: string)
    requires Initial(s) && CanRun(s, run) && Lower(user) == user
    requires PolicyOf(s, user).maxOrdersPerDay <= 0 || PolicyOf(s, user).maxOrdersPerMinute <= 0
    ensures LogOf(RunOf(s, run), user).orders == []
  {
    hide CanRun, RunOf, PolicyOf, Sound;
    var p := PolicyOf(s, user);
    var gate := if p.maxOrdersPerDay <= 0 then DailyCount else MinuteRate;
    InitialIsSound(s, user);
    NothingPending(gate, s.flights, user);
    RunKeepsEmpty(gate, s, run, user, p);
  }
}
