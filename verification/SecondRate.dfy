/** The second limit under interleaving. Its counter keeps one bucket, and both the check and
    the increment read the clock before they take the counter's lock, so a late reading may be
    checked against the wrong second, or wipe out the count of the current one. */
module SecondRate {
  import opened Base
  import opened Chain
  import opened Limits
  import opened Orders
  import opened PerSecond
  import opened Windows
  import opened History
  import opened GuardModel
  import opened Tracking
  import opened Protocol
  import opened Coupling
  import opened Bounds

  /** What a request may do to the counts of one calendar second. A stale one holds a reading
      of an earlier second; a pending one may still be counted in this second. */
  function Stale(f: Flight, user: string, second: int): nat {
    if f.Busy? && UserOf(f) == user && (f.stage.Asking? || f.stage.Incrementing?) && Seconds(f.stage.at) < second
    then 1 else 0
  }

  function Pending(f: Flight, user: string, second: int): nat {
    if !f.Busy? || UserOf(f) != user || Stale(f, user, second) > 0 then 0
    else if f.stage.Bumping? || Due(f, user, second) > 0 then 1
    else if (f.stage.Checking? || f.stage.Asking?) && HasPassed(f, PerSecondRate) then 1
    else 0
  }

  /** The request will be counted in this second, whatever happens. */
  function Due(f: Flight, user: string, second: int): nat {
    if f.Busy? && UserOf(f) == user && f.stage.Incrementing? && Seconds(f.stage.at) == second then 1 else 0
  }

  /** The request may be recorded in this second without having been counted in it. */
  function Early(f: Flight, user: string, second: int): nat {
    if f.Busy? && UserOf(f) == user && (f.stage.Recording? || (f.stage.Incrementing? && Stale(f, user, second) > 0))
    then 1 else 0
  }

  function OrdersIn(orders: seq<Stamp<Order>>, second: int): nat {
    InSecond(Instants(orders), second)
  }

  /** The most that a second can hold while so many of the k requests are stale: each of the
      others that turns stale readings into a fresh bucket opens room for nine more, and for
      the ones that are in flight beside it. */
  function Room(stale: int, k: nat): nat
    decreases k - stale
  {
    if stale >= k then 0 else MAX_ORDERS_PER_SECOND + (k - 1 - stale) + Room(stale + 1, k)
  }

  lemma {:induction false} RoomShrinks(stale: int, k: nat)
    requires 0 <= stale <= k
    ensures Room(stale, k) >= 9 * (k - stale)
    ensures Room(stale, k) <= Room(0, k)
    decreases k - stale
  {
    if stale < k {
      RoomShrinks(stale + 1, k);
    }
    if stale > 0 {
      RoomGrows(stale, k);
    }
  }

  lemma {:induction false} RoomGrows(stale: nat, k: nat)
    requires stale <= k
    ensures Room(stale, k) <= Room(0, k)
  {
    if stale > 0 {
      RoomGrows(stale - 1, k);
    }
  }

  /** In closed form: nine for each request, and one for each pair of them. */
  lemma {:induction false} RoomInAll(stale: int, k: nat)
    requires 0 <= stale <= k
    ensures 2 * Room(stale, k) == 18 * (k - stale) + (k - stale) * (k - stale - 1)
    decreases k - stale
  {
    if stale < k {
      RoomInAll(stale + 1, k);
      var n := k - stale;
      assert n * (n - 1) == (n - 1) * (n - 2) + 2 * (n - 1);
    }
  }

  /** The counts of one second while the clock stands at another: stale and pending requests,
      the ones that are due, and the early ones. */
  ghost predicate Paced(l: UserLog, second: int, clock: int, k: nat, stale: int, pending: int, due: int, early: int) {
    var counted, orders := InSecond(l.bumps, second), OrdersIn(l.orders, second);
    if clock < second then counted == 0 && orders == 0
    else if clock == second then
      && counted + pending <= Room(stale, k)
      && counted - Streak(l.bumps, second) <= Room(stale + 1, k)
      && orders + early <= counted + k
    else
      && counted + due <= Room(0, k)
      && orders <= counted + k
  }

  // --- The clock moves on ---

  lemma ClockMoves(
    l: UserLog, second: int, clock: int, later: int, k: nat, stale: int, pending: int, due: int, early: int)
    requires Paced(l, second, clock, k, stale, pending, due, early) && clock <= later
    requires 0 <= stale && 0 <= pending && stale + pending <= k && 0 <= due <= pending && 0 <= early <= k
    requires clock < second ==> due == 0
    ensures Paced(l, second, later, k, stale, pending, due, early)
  {
    RoomShrinks(stale, k);
    StreakIsHistoryIff(l.bumps, second);
    hide Room;
  }

  // --- A step of one of the user's requests ---

  lemma BumpsAppend(bumps: seq<Stamp<()>>, at: Time, second: int)
    ensures var bumps' := bumps + [Stamp(at, ())];
            && InSecond(bumps', second) == InSecond(bumps, second) + (if Seconds(at) == second then 1 else 0)
            && Streak(bumps', second) == if Seconds(at) == second then Streak(bumps, second) + 1 else 0
  {
    assert (bumps + [Stamp(at, ())])[..|bumps|] == bumps;
  }

  lemma OrdersAppend(orders: seq<Stamp<Order>>, e: Stamp<Order>, second: int)
    ensures OrdersIn(orders + [e], second) == OrdersIn(orders, second) + if Seconds(e.at) == second then 1 else 0
  {
    ProjectionsAppend(orders, e);
    BumpsAppend(Instants(orders), e.at, second);
  }

  predicate ReadingOk(f: Flight, now: Time) {
    f.Busy? && (f.stage.Asking? || f.stage.Incrementing?) ==> f.stage.at <= now
  }

  /** The counts after one request has moved from f to f'. */
  ghost predicate PacedAfter(
    l: UserLog, second: int, clock: int, k: nat, stale: int, pending: int, due: int, early: int, f: Flight, f': Flight,
    user: string)
  {
    Paced(l, second, clock, k,
          stale - Stale(f, user, second) + Stale(f', user, second),
          pending - Pending(f, user, second) + Pending(f', user, second),
          due - Due(f, user, second) + Due(f', user, second),
          early - Early(f, user, second) + Early(f', user, second))
  }

  /** The second check answers by the streak; with a reading of this second an allow means
      that the streak has room. */
  lemma SecondCheckPaces(
    g: GuardState, l: UserLog, user: string, policy: Limits, f: Flight, a: Action, env: Env,
    second: int, k: nat, stale: int, pending: int, due: int, early: int)
    requires GuardOk(g, l, user, policy, env.now)
    requires f.Busy? && UserOf(f) == user && a.Evaluate? && Ready(f, a) && f.stage.Asking? && ReadingOk(f, env.now)
    requires Paced(l, second, Seconds(env.now), k, stale, pending, due, early) && 0 <= stale <= k
    requires Stale(f, user, second) <= stale
    requires stale - Stale(f, user, second) + pending - Pending(f, user, second) <= k - 1
    requires Pending(f, user, second) <= pending
    ensures PacedAfter(l, second, Seconds(env.now), k, stale, pending, due, early, f, FlightAfter(g, f, a, env), user)
  {
    hide Follows, BucketOk, WellFormed, Governs;
    CountIsStreak(Get(g.perUser, user), l.bumps, f.stage.at);
    if Answered(g, f, env).Allow? {
      assert Streak(l.bumps, Seconds(f.stage.at)) < MAX_ORDERS_PER_SECOND;
    }
  }

  lemma OtherCheckPaces(
    g: GuardState, l: UserLog, user: string, f: Flight, a: Action, env: Env,
    second: int, k: nat, stale: int, pending: int, due: int, early: int)
    requires f.Busy? && UserOf(f) == user && a.Evaluate? && Ready(f, a) && !f.stage.Asking?
    requires Paced(l, second, Seconds(env.now), k, stale, pending, due, early)
    ensures PacedAfter(l, second, Seconds(env.now), k, stale, pending, due, early, f, FlightAfter(g, f, a, env), user)
  {
    hide Judge;
  }

  lemma BumpPaces(
    g: GuardState, l: UserLog, user: string, f: Flight, a: Action, env: Env,
    second: int, k: nat, stale: int, pending: int, due: int, early: int)
    requires f.Busy? && UserOf(f) == user && a.Bump? && Ready(f, a) && ReadingOk(f, env.now)
    requires Paced(l, second, Seconds(env.now), k, stale, pending, due, early) && 0 <= stale <= k
    requires Stale(f, user, second) <= stale && 0 <= pending
    ensures PacedAfter(LogAfter(g, l, f, a, env), second, Seconds(env.now), k, stale, pending, due, early,
                       f, FlightAfter(g, f, a, env), user)
  {
    hide InSecond, Streak;
    BumpsAppend(l.bumps, f.stage.at, second);
  }

  lemma RecordPaces(
    g: GuardState, l: UserLog, user: string, f: Flight, a: Action, env: Env,
    second: int, k: nat, stale: int, pending: int, due: int, early: int)
    requires f.Busy? && UserOf(f) == user && a.Record? && Ready(f, a)
    requires Paced(l, second, Seconds(env.now), k, stale, pending, due, early)
    ensures PacedAfter(LogAfter(g, l, f, a, env), second, Seconds(env.now), k, stale, pending, due, early,
                       f, FlightAfter(g, f, a, env), user)
  {
    hide InSecond, Streak, OrdersIn;
    OrdersAppend(l.orders, Stamp(env.now, OrderOf(Some(f.req))), second);
  }

  /** Any other step leaves a request at most as much of a burden as it was. */
  lemma OtherWeights(
    g: GuardState, l: UserLog, user: string, policy: Limits, f: Flight, a: Action, env: Env, second: int)
    requires f.Busy? && UserOf(f) == user && OfRequest(a) && Ready(f, a) && FlightOk(f, user, policy)
    requires !a.Evaluate? && !a.Bump? && !a.Record?
    ensures var f' := FlightAfter(g, f, a, env);
            && (Seconds(env.now) == second ==>
                  && Stale(f', user, second) == Stale(f, user, second)
                  && Pending(f', user, second) <= Pending(f, user, second)
                  && Early(f', user, second) <= Early(f, user, second))
            && (Seconds(env.now) > second ==> Due(f', user, second) <= Due(f, user, second))
    ensures LogAfter(g, l, f, a, env).bumps == l.bumps && LogAfter(g, l, f, a, env).orders == l.orders
  {
    hide FlightOk, Judge;
    if a.Handle? {
      HandlerComesAfter(f, user, policy);
    }
  }

  lemma HandlerComesAfter(f: Flight, user: string, policy: Limits)
    requires FlightOk(f, user, policy) && f.Busy? && f.stage.Checking? && f.done >= |f.chain|
    ensures HasPassed(f, PerSecondRate)
  {
    assert PER_SECOND_RATE in f.chain;
  }

  lemma OtherStepPaces(
    g: GuardState, l: UserLog, user: string, policy: Limits, f: Flight, a: Action, env: Env,
    second: int, k: nat, stale: int, pending: int, due: int, early: int)
    requires f.Busy? && UserOf(f) == user && OfRequest(a) && Ready(f, a) && FlightOk(f, user, policy)
    requires !a.Evaluate? && !a.Bump? && !a.Record?
    requires Paced(l, second, Seconds(env.now), k, stale, pending, due, early)
    ensures PacedAfter(LogAfter(g, l, f, a, env), second, Seconds(env.now), k, stale, pending, due, early,
                       f, FlightAfter(g, f, a, env), user)
  {
    hide FlightOk, FlightAfter, LogAfter, Stale, Pending, Due, Early, InSecond, Streak, OrdersIn, Room;
    OtherWeights(g, l, user, policy, f, a, env, second);
  }

  lemma OwnStepPaces(
    g: GuardState, l: UserLog, user: string, policy: Limits, f: Flight, a: Action, env: Env,
    second: int, k: nat, stale: int, pending: int, due: int, early: int)
    requires GuardOk(g, l, user, policy, env.now) && FlightOk(f, user, policy) && ReadingOk(f, env.now)
    requires f.Busy? && UserOf(f) == user && OfRequest(a) && Ready(f, a)
    requires Paced(l, second, Seconds(env.now), k, stale, pending, due, early) && 0 <= stale <= k
    requires Stale(f, user, second) <= stale && Pending(f, user, second) <= pending
    requires stale - Stale(f, user, second) + pending - Pending(f, user, second) <= k - 1
    ensures PacedAfter(LogAfter(g, l, f, a, env), second, Seconds(env.now), k, stale, pending, due, early,
                       f, FlightAfter(g, f, a, env), user)
  {
    hide GuardOk, FlightOk, Paced, PacedAfter;
    match a
    case Evaluate(_) =>
      EvaluateLogs(g, l, f, a, env, second, k);
      if f.stage.Asking? {
        SecondCheckPaces(g, l, user, policy, f, a, env, second, k, stale, pending, due, early);
      } else {
        OtherCheckPaces(g, l, user, f, a, env, second, k, stale, pending, due, early);
      }
      SameLogs(l, LogAfter(g, l, f, a, env), second, Seconds(env.now), k, stale, pending, due, early, f,
               FlightAfter(g, f, a, env), user);
    case Bump(_) => BumpPaces(g, l, user, f, a, env, second, k, stale, pending, due, early);
    case Record(_) => RecordPaces(g, l, user, f, a, env, second, k, stale, pending, due, early);
    case _ => OtherStepPaces(g, l, user, policy, f, a, env, second, k, stale, pending, due, early);
  }

  lemma EvaluateLogs(g: GuardState, l: UserLog, f: Flight, a: Action, env: Env, second: int, k: nat)
    requires f.Busy? && a.Evaluate? && Ready(f, a)
    ensures LogAfter(g, l, f, a, env).bumps == l.bumps && LogAfter(g, l, f, a, env).orders == l.orders
  {
    hide Judge;
  }

  lemma SameLogs(
    l: UserLog, l': UserLog, second: int, clock: int, k: nat, stale: int, pending: int, due: int, early: int,
    f: Flight, f': Flight, user: string)
    requires l'.bumps == l.bumps && l'.orders == l.orders
    ensures PacedAfter(l, second, clock, k, stale, pending, due, early, f, f', user) <==>
              PacedAfter(l', second, clock, k, stale, pending, due, early, f, f', user)
    ensures Paced(l, second, clock, k, stale, pending, due, early) <==>
              Paced(l', second, clock, k, stale, pending, due, early)
  {
  }

  // --- All requests together ---

  function StaleOf(user: string, second: int): Flight -> nat { f => Stale(f, user, second) }

  function PendingOf(user: string, second: int): Flight -> nat { f => Pending(f, user, second) }

  function DueOf(user: string, second: int): Flight -> nat { f => Due(f, user, second) }

  function EarlyOf(user: string, second: int): Flight -> nat { f => Early(f, user, second) }

  ghost predicate ReadingsOk(flights: seq<Flight>, now: Time) {
    forall i :: 0 <= i < |flights| ==> ReadingOk(flights[i], now)
  }

  lemma FlightFacts(f: Flight, user: string, second: int, now: Time)
    requires ReadingOk(f, now)
    ensures Stale(f, user, second) + Pending(f, user, second) <= Counted(f, user)
    ensures Due(f, user, second) <= Pending(f, user, second) && Early(f, user, second) <= Counted(f, user)
    ensures Seconds(now) < second ==> Due(f, user, second) == 0
  {
  }

  lemma {:induction false} SumFacts(flights: seq<Flight>, user: string, second: int, now: Time)
    requires ReadingsOk(flights, now)
    ensures Sum(StaleOf(user, second), flights) + Sum(PendingOf(user, second), flights) <= InFlight(flights, user)
    ensures Sum(DueOf(user, second), flights) <= Sum(PendingOf(user, second), flights)
    ensures Sum(EarlyOf(user, second), flights) <= InFlight(flights, user)
    ensures Seconds(now) < second ==> Sum(DueOf(user, second), flights) == 0
  {
    hide Stale, Pending, Due, Early, Counted, ReadingOk;
    if flights != [] {
      SumFacts(flights[..|flights| - 1], user, second, now);
      FlightFacts(flights[|flights| - 1], user, second, now);
    }
  }

  /** What every interleaving keeps: clock readings are past ones, and the counts of the
      second are paced. */
  ghost predicate Regular(s: System, user: string, second: int, k: nat) {
    && ReadingsOk(s.flights, s.now)
    && Paced(LogOf(s, user), second, Seconds(s.now), k,
             Sum(StaleOf(user, second), s.flights), Sum(PendingOf(user, second), s.flights),
             Sum(DueOf(user, second), s.flights), Sum(EarlyOf(user, second), s.flights))
  }

  lemma RegularLater(s: System, user: string, second: int, k: nat, now: Time)
    requires Regular(s, user, second, k) && s.now <= now && InFlight(s.flights, user) <= k
    ensures Regular(s.(now := now), user, second, k)
  {
    hide Paced, Stale, Pending, Due, Early, InFlight, Sum;
    SumFacts(s.flights, user, second, s.now);
    ClockMoves(LogOf(s, user), second, Seconds(s.now), Seconds(now), k,
               Sum(StaleOf(user, second), s.flights), Sum(PendingOf(user, second), s.flights),
               Sum(DueOf(user, second), s.flights), Sum(EarlyOf(user, second), s.flights));
    assert LogOf(s.(now := now), user) == LogOf(s, user);
  }

  lemma SumsUpdate(flights: seq<Flight>, i: nat, f: Flight, user: string, second: int)
    requires i < |flights|
    ensures var flights' := flights[i := f];
            && Sum(StaleOf(user, second), flights') ==
                 Sum(StaleOf(user, second), flights) - Stale(flights[i], user, second) + Stale(f, user, second)
            && Sum(PendingOf(user, second), flights') ==
                 Sum(PendingOf(user, second), flights) - Pending(flights[i], user, second) + Pending(f, user, second)
            && Sum(DueOf(user, second), flights') ==
                 Sum(DueOf(user, second), flights) - Due(flights[i], user, second) + Due(f, user, second)
            && Sum(EarlyOf(user, second), flights') ==
                 Sum(EarlyOf(user, second), flights) - Early(flights[i], user, second) + Early(f, user, second)
            && InFlight(flights', user) == InFlight(flights, user) - Counted(flights[i], user) + Counted(f, user)
  {
    hide Stale, Pending, Due, Early, Counted;
    SumUpdate(StaleOf(user, second), flights, i, f);
    SumUpdate(PendingOf(user, second), flights, i, f);
    SumUpdate(DueOf(user, second), flights, i, f);
    SumUpdate(EarlyOf(user, second), flights, i, f);
    SumUpdate(Counter(user), flights, i, f);
  }

  lemma IdleFacts(user: string, second: int, now: Time)
    ensures Stale(Idle, user, second) == 0 == Pending(Idle, user, second) && Counted(Idle, user) == 0
            && ReadingOk(Idle, now)
    ensures Due(Idle, user, second) == 0 == Early(Idle, user, second)
  {
  }

  /** What the user has in flight beside one of the requests. */
  lemma OthersFit(flights: seq<Flight>, slot: nat, user: string, second: int, now: Time, k: nat)
    requires ReadingsOk(flights, now) && InFlight(flights, user) <= k
    requires slot < |flights| && flights[slot].Busy? && UserOf(flights[slot]) == user
    ensures var stale, pending := Sum(StaleOf(user, second), flights), Sum(PendingOf(user, second), flights);
            var f := flights[slot];
            && stale - Stale(f, user, second) + pending - Pending(f, user, second) <= k - 1
            && Stale(f, user, second) <= stale <= k && Pending(f, user, second) <= pending
  {
    hide Stale, Pending, Due, Early, ReadingOk;
    IdleFacts(user, second, now);
    SumsUpdate(flights, slot, Idle, user, second);
    SumFacts(flights[slot := Idle], user, second, now);
    SumFacts(flights, user, second, now);
  }

  lemma ForeignFacts(g: GuardState, user: string, f: Flight, a: Action, env: Env, second: int)
    requires OfRequest(a) && f.Busy? && Ready(f, a) && UserOf(f) != user
    ensures Stale(f, user, second) == 0 == Pending(f, user, second)
            && Due(f, user, second) == 0 == Early(f, user, second)
    ensures var f' := FlightAfter(g, f, a, env);
            Stale(f', user, second) == 0 == Pending(f', user, second)
              && Due(f', user, second) == 0 == Early(f', user, second)
  {
    hide Judge, HasPassed;
  }

  lemma ReadingStays(g: GuardState, f: Flight, a: Action, env: Env)
    requires OfRequest(a) && f.Busy? && Ready(f, a)
    ensures ReadingOk(FlightAfter(g, f, a, env), env.now)
  {
    hide Judge;
  }

  lemma RequestStepKeepsRegular(s: System, e: Event, user: string, policy: Limits, second: int, k: nat)
    requires OfRequest(e.action) && Enabled(s, e) && Sound(s, user, policy) && s.now == e.env.now
    requires Regular(s, user, second, k) && InFlight(s.flights, user) <= k
    ensures Regular(Step(s, e), user, second, k)
  {
    hide GuardOk, FlightOk, GuardAfter, FlightAfter, LogAfter, Ready, Stale, Pending, Due, Early, Paced, InFlight,
      ReadingOk, Sum;
    var l, f := LogOf(s, user), s.flights[e.action.slot];
    var f' := FlightAfter(s.guard, f, e.action, e.env);
    ReadingStays(s.guard, f, e.action, e.env);
    SumsUpdate(s.flights, e.action.slot, f', user, second);
    if UserOf(f) == user {
      OthersFit(s.flights, e.action.slot, user, second, s.now, k);
      OwnStepPaces(s.guard, l, user, policy, f, e.action, e.env, second, k,
                   Sum(StaleOf(user, second), s.flights), Sum(PendingOf(user, second), s.flights),
                   Sum(DueOf(user, second), s.flights), Sum(EarlyOf(user, second), s.flights));
    } else {
      ForeignFacts(s.guard, user, f, e.action, e.env, second);
    }
  }

  lemma NewFacts(req: Request, user: string, second: int, now: Time)
    ensures var f := Busy(req, Entering, [], 0);
            && Stale(f, user, second) == 0 == Pending(f, user, second)
            && Due(f, user, second) == 0 == Early(f, user, second)
            && ReadingOk(f, now)
  {
  }

  lemma StepKeepsRegular(s: System, e: Event, user: string, policy: Limits, second: int, k: nat)
    requires Enabled(s, e) && Sound(s, user, policy) && s.now == e.env.now
    requires Regular(s, user, second, k) && InFlight(s.flights, user) <= k
    ensures Regular(Step(s, e), user, second, k)
  {
    hide GuardOk, FlightOk, GuardAfterCall, BuildRequest, Stale, Pending, Due, Early, Paced, InFlight, ReadingOk, Sum;
    if OfRequest(e.action) {
      RequestStepKeepsRegular(s, e, user, policy, second, k);
    } else {
      SameLogs(LogOf(s, user), LogOf(Step(s, e), user), second, Seconds(s.now), k,
               Sum(StaleOf(user, second), s.flights), Sum(PendingOf(user, second), s.flights),
               Sum(DueOf(user, second), s.flights), Sum(EarlyOf(user, second), s.flights), Idle, Idle, user);
      if e.action.Begin? {
        var req := BuildRequest(e.action.email, e.action.tool, e.action.args);
        SumsUpdate(s.flights, e.action.slot, Busy(req, Entering, [], 0), user, second);
        NewFacts(req, user, second, s.now);
        IdleFacts(user, second, s.now);
      }
    }
  }

  // --- Whole runs ---

  /** A step reads the clock once: waiting first and stepping then is the same step. */
  lemma WaitThenStep(s: System, e: Event, user: string, policy: Limits)
    requires Enabled(s, e) && Sound(s, user, policy)
    ensures var waited := s.(now := e.env.now);
            Enabled(waited, e) && Sound(waited, user, policy) && Step(waited, e) == Step(s, e)
  {
    hide GuardOk, FlightOk, GuardAfter, FlightAfter, LogAfter, GuardAfterCall, Ready, Status, BuildRequest;
    GuardWaits(s.guard, LogOf(s, user), user, policy, s.now, e.env.now);
    assert LogOf(s.(now := e.env.now), user) == LogOf(s, user);
  }

  lemma {:induction false} RunKeepsRegular(
    s: System, run: seq<Event>, user: string, policy: Limits, second: int, k: nat)
    requires CanRun(s, run) && Sound(s, user, policy) && Regular(s, user, second, k) && AtMost(s, run, user, k)
    ensures Regular(RunOf(s, run), user, second, k)
    decreases |run|
  {
    hide Enabled, Step, Sound, Regular;
    if run != [] {
      var e := run[0];
      StepMovesOn(s, e);
      WaitThenStep(s, e, user, policy);
      RegularLater(s, user, second, k, e.env.now);
      StepKeepsRegular(s.(now := e.env.now), e, user, policy, second, k);
      StepKeepsSound(s, e, user, policy);
      RunKeepsRegular(Step(s, e), run[1..], user, policy, second, k);
    }
  }

  lemma StepMovesOn(s: System, e: Event)
    requires Enabled(s, e)
    ensures s.now <= e.env.now
  {
  }

  lemma {:induction false} NothingInFlight(flights: seq<Flight>, user: string, second: int)
    requires forall i :: 0 <= i < |flights| ==> flights[i].Idle?
    ensures Sum(StaleOf(user, second), flights) == 0 == Sum(PendingOf(user, second), flights)
    ensures Sum(DueOf(user, second), flights) == 0 == Sum(EarlyOf(user, second), flights)
  {
    if flights != [] {
      NothingInFlight(flights[..|flights| - 1], user, second);
    }
  }

  lemma InitialIsRegular(s: System, user: string, second: int, k: nat)
    requires Initial(s)
    ensures Regular(s, user, second, k)
  {
    hide Sum, Stale, Pending, Due, Early, Room, WellFormed;
    NothingInFlight(s.flights, user, second);
    RoomShrinks(0, k);
    RoomIsNatural(1, k);
    assert Instants([]) == [];
  }

  lemma RoomIsNatural(stale: int, k: nat)
    ensures Room(stale, k) >= 0
  {
  }

  lemma PacedIsBounded(l: UserLog, second: int, clock: int, k: nat, stale: int, pending: int, due: int, early: int)
    requires Paced(l, second, clock, k, stale, pending, due, early)
    requires 0 <= stale <= k && 0 <= pending && 0 <= due && 0 <= early
    ensures InSecond(l.bumps, second) <= Room(0, k) && OrdersIn(l.orders, second) <= InSecond(l.bumps, second) + k
  {
    RoomShrinks(stale, k);
    hide Room;
  }

  /** With at most k requests of the user in flight, a calendar second counts at most nine
      orders for each of them and one for each pair, however late clock readings reach the
      counter; and at most k more are recorded in that second. */
  lemma SecondsAreBounded(s: System, run: seq<Event>, user: string, k: nat, second: int)
    requires Initial(s) && CanRun(s, run) && Lower(user) == user && AtMost(s, run, user, k)
    ensures var l := LogOf(RunOf(s, run), user);
            && 2 * InSecond(l.bumps, second) <= 2 * MAX_ORDERS_PER_SECOND * k + k * (k - 1)
            && OrdersIn(l.orders, second) <= InSecond(l.bumps, second) + k
  {
    hide Initial, CanRun, RunOf, Sound, AtMost, PolicyOf, LogOf, InSecond, OrdersIn, Paced, Sum, InFlight;
    var end := RunOf(s, run);
    InitialIsSound(s, user);
    InitialIsRegular(s, user, second, k);
    RunKeepsRegular(s, run, user, PolicyOf(s, user), second, k);
    AtMostAtEnd(s, run, user, k);
    SumFacts(end.flights, user, second, end.now);
    PacedIsBounded(LogOf(end, user), second, Seconds(end.now), k,
                   Sum(StaleOf(user, second), end.flights), Sum(PendingOf(user, second), end.flights),
                   Sum(DueOf(user, second), end.flights), Sum(EarlyOf(user, second), end.flights));
    RoomInAll(0, k);
  }

  lemma {:induction false} AtMostAtEnd(s: System, run: seq<Event>, user: string, k: nat)
    requires CanRun(s, run) && AtMost(s, run, user, k)
    ensures InFlight(RunOf(s, run).flights, user) <= k
    decreases |run|
  {
    hide Enabled, Step, InFlight;
    if run != [] {
      AtMostAtEnd(Step(s, run[0]), run[1..], user, k);
    }
  }

  /** With one request of the user in flight at a time, no calendar second ever counts more
      than nine orders, nor has more than ten recorded in it. */
  lemma NineASecond(s: System, run: seq<Event>, user: string, second: int)
    requires Initial(s) && CanRun(s, run) && Lower(user) == user && AtMost(s, run, user, 1)
    ensures InSecond(LogOf(RunOf(s, run), user).bumps, second) <= MAX_ORDERS_PER_SECOND
    ensures OrdersIn(LogOf(RunOf(s, run), user).orders, second) <= MAX_ORDERS_PER_SECOND + 1
  {
    hide Initial, CanRun, RunOf, AtMost, LogOf, InSecond, OrdersIn;
    SecondsAreBounded(s, run, user, 1, second);
  }

  // --- One request at a time ---

  /** Readings reach the counter in the sequence in which they were taken. */
  ghost predicate Orderly(s: System, user: string) {
    var bumps := LogOf(s, user).bumps;
    && Sorted(bumps) && Until(bumps, s.now)
    && forall i :: 0 <= i < |s.flights| ==> ReadsAfter(s.flights[i], user, bumps)
  }

  ghost predicate ReadsAfter(f: Flight, user: string, bumps: seq<Stamp<()>>) {
    f.Busy? && UserOf(f) == user && (f.stage.Asking? || f.stage.Incrementing?) ==> Until(bumps, f.stage.at)
  }

  lemma OnlyOne(flights: seq<Flight>, user: string, i: nat, j: nat)
    requires InFlight(flights, user) <= 1 && i < |flights| && j < |flights|
    requires Counted(flights[i], user) == 1 == Counted(flights[j], user)
    ensures i == j
  {
    hide Counted;
    if i != j {
      IdleFacts(user, 0, 0);
      SumUpdate(Counter(user), flights, i, Idle);
      SumUpdate(Counter(user), flights[i := Idle], j, Idle);
    }
  }

  lemma OwnStepIsOrderly(g: GuardState, l: UserLog, user: string, f: Flight, a: Action, env: Env)
    requires OfRequest(a) && f.Busy? && Ready(f, a) && UserOf(f) == user && ReadingOk(f, env.now)
    requires Sorted(l.bumps) && Until(l.bumps, env.now) && ReadsAfter(f, user, l.bumps)
    ensures var bumps := LogAfter(g, l, f, a, env).bumps;
            Sorted(bumps) && Until(bumps, env.now) && ReadsAfter(FlightAfter(g, f, a, env), user, bumps)
    ensures !a.Bump? ==> LogAfter(g, l, f, a, env).bumps == l.bumps
  {
    hide Judge;
  }

  lemma ForeignStepIsOrderly(g: GuardState, bumps: seq<Stamp<()>>, user: string, f: Flight, a: Action, env: Env)
    requires OfRequest(a) && f.Busy? && Ready(f, a) && UserOf(f) != user
    ensures ReadsAfter(FlightAfter(g, f, a, env), user, bumps)
  {
    hide Judge, Until;
  }

  lemma RequestStepKeepsOrderly(s: System, e: Event, user: string)
    requires OfRequest(e.action) && Enabled(s, e) && ReadingsOk(s.flights, s.now)
    requires Orderly(s, user) && InFlight(s.flights, user) <= 1
    ensures Orderly(Step(s, e), user) && ReadingsOk(Step(s, e).flights, e.env.now)
  {
    hide GuardAfter, FlightAfter, LogAfter, Ready, InFlight, Sorted, Until, ReadsAfter;
    var bumps, f := LogOf(s, user).bumps, s.flights[e.action.slot];
    BumpsUntil(bumps, s.now, e.env.now);
    ReadingStays(s.guard, f, e.action, e.env);
    if UserOf(f) == user {
      OwnStepIsOrderly(s.guard, LogOf(s, user), user, f, e.action, e.env);
      forall i | 0 <= i < |s.flights| && i != e.action.slot
        ensures ReadsAfter(s.flights[i], user, LogOf(Step(s, e), user).bumps)
      {
        if s.flights[i].Busy? && UserOf(s.flights[i]) == user {
          OnlyOne(s.flights, user, i, e.action.slot);
        }
        ForeignReadsAfter(s.flights[i], user, LogOf(Step(s, e), user).bumps);
      }
    } else {
      ForeignStepIsOrderly(s.guard, bumps, user, f, e.action, e.env);
    }
  }

  lemma ForeignReadsAfter(f: Flight, user: string, bumps: seq<Stamp<()>>)
    ensures !f.Busy? || UserOf(f) != user ==> ReadsAfter(f, user, bumps)
  {
  }

  lemma BumpsUntil(bumps: seq<Stamp<()>>, earlier: Time, now: Time)
    requires Until(bumps, earlier) && earlier <= now
    ensures Until(bumps, now)
  {
  }

  lemma StepKeepsOrderly(s: System, e: Event, user: string)
    requires Enabled(s, e) && ReadingsOk(s.flights, s.now) && Orderly(s, user) && InFlight(s.flights, user) <= 1
    ensures Orderly(Step(s, e), user) && ReadingsOk(Step(s, e).flights, e.env.now)
  {
    hide GuardAfterCall, BuildRequest, InFlight, Sorted, Until, Status;
    if OfRequest(e.action) {
      RequestStepKeepsOrderly(s, e, user);
    } else {
      BumpsUntil(LogOf(s, user).bumps, s.now, e.env.now);
    }
  }

  lemma {:induction false} RunKeepsOrderly(s: System, run: seq<Event>, user: string)
    requires CanRun(s, run) && AtMost(s, run, user, 1) && ReadingsOk(s.flights, s.now) && Orderly(s, user)
    ensures Orderly(RunOf(s, run), user)
    decreases |run|
  {
    hide Enabled, Orderly, ReadingsOk;
    if run != [] {
      StepKeepsOrderly(s, run[0], user);
      RunKeepsOrderly(Step(s, run[0]), run[1..], user);
    }
  }

  lemma SortedIsUnbroken(bumps: seq<Stamp<()>>, earlier: Time, now: Time)
    requires Sorted(bumps) && Until(bumps, earlier) && earlier <= now
    ensures Unbroken(bumps, Seconds(now))
  {
    forall i, j | 0 <= i < j < |bumps| && Seconds(bumps[i].at) == Seconds(now)
      ensures Seconds(bumps[j].at) == Seconds(now)
    {
      assert bumps[i].at <= bumps[j].at <= now;
    }
  }

  /** With one request of the user in flight at a time the streak that the counter answers
      with is the whole history of the current second. */
  lemma OneAtATimeCountsAll(s: System, run: seq<Event>, user: string, now: Time)
    requires Initial(s) && CanRun(s, run) && AtMost(s, run, user, 1) && RunOf(s, run).now <= now
    ensures var bumps := LogOf(RunOf(s, run), user).bumps; Streak(bumps, Seconds(now)) == InSecond(bumps, Seconds(now))
  {
    hide CanRun, RunOf, AtMost, InSecond, Streak, WellFormed, Unbroken;
    RunKeepsOrderly(s, run, user);
    SortedIsUnbroken(LogOf(RunOf(s, run), user).bumps, RunOf(s, run).now, now);
    StreakIsHistoryIff(LogOf(RunOf(s, run), user).bumps, Seconds(now));
  }

  // --- Counted in one second, recorded in another ---

  function Unrecorded(f: Flight, user: string): nat {
    if f.Busy? && UserOf(f) == user && f.stage.Recording? then 1 else 0
  }

  function UnrecordedOf(user: string): Flight -> nat { f => Unrecorded(f, user) }

  /** Orders are recorded in the sequence in which they were counted, and not before. */
  ghost predicate Aligned(s: System, user: string) {
    var l := LogOf(s, user);
    && |l.bumps| == |l.orders| + Sum(UnrecordedOf(user), s.flights)
    && forall i :: 0 <= i < |l.orders| ==> l.bumps[i].at <= l.orders[i].at
  }

  lemma OwnStepIsAligned(g: GuardState, l: UserLog, user: string, f: Flight, a: Action, env: Env)
    requires OfRequest(a) && f.Busy? && Ready(f, a) && UserOf(f) == user && Until(l.bumps, env.now)
    requires |l.bumps| >= |l.orders| + Unrecorded(f, user)
    requires forall i :: 0 <= i < |l.orders| ==> l.bumps[i].at <= l.orders[i].at
    ensures var l', f' := LogAfter(g, l, f, a, env), FlightAfter(g, f, a, env);
            && |l'.bumps| - |l'.orders| - Unrecorded(f', user) == |l.bumps| - |l.orders| - Unrecorded(f, user)
            && |l'.orders| <= |l'.bumps|
            && forall i :: 0 <= i < |l'.orders| ==> l'.bumps[i].at <= l'.orders[i].at
  {
    hide Judge;
  }

  lemma ForeignStepIsAligned(g: GuardState, user: string, f: Flight, a: Action, env: Env)
    requires OfRequest(a) && f.Busy? && Ready(f, a) && UserOf(f) != user
    ensures Unrecorded(f, user) == 0 == Unrecorded(FlightAfter(g, f, a, env), user)
  {
    hide Judge;
  }

  lemma UnrecordedUpdate(flights: seq<Flight>, i: nat, f: Flight, user: string)
    requires i < |flights|
    ensures Sum(UnrecordedOf(user), flights[i := f]) ==
              Sum(UnrecordedOf(user), flights) - Unrecorded(flights[i], user) + Unrecorded(f, user)
    ensures Unrecorded(flights[i], user) <= Sum(UnrecordedOf(user), flights)
  {
    hide Unrecorded;
    SumUpdate(UnrecordedOf(user), flights, i, f);
    SumUpdate(UnrecordedOf(user), flights, i, Idle);
    assert Unrecorded(Idle, user) == 0 by { IdleIsRecorded(user); }
  }

  lemma IdleIsRecorded(user: string)
    ensures Unrecorded(Idle, user) == 0 && forall req :: Unrecorded(Busy(req, Entering, [], 0), user) == 0
  {
  }

  lemma StepKeepsAligned(s: System, e: Event, user: string)
    requires Enabled(s, e) && Orderly(s, user) && Aligned(s, user)
    ensures Aligned(Step(s, e), user)
  {
    hide GuardAfter, FlightAfter, LogAfter, GuardAfterCall, Ready, Unrecorded, Sum, Status, BuildRequest, ReadsAfter,
      Sorted;
    if OfRequest(e.action) {
      var l, f := LogOf(s, user), s.flights[e.action.slot];
      UnrecordedUpdate(s.flights, e.action.slot, FlightAfter(s.guard, f, e.action, e.env), user);
      if UserOf(f) == user {
        OwnStepIsAligned(s.guard, l, user, f, e.action, e.env);
      } else {
        ForeignStepIsAligned(s.guard, user, f, e.action, e.env);
      }
    } else if e.action.Begin? {
      var req := BuildRequest(e.action.email, e.action.tool, e.action.args);
      UnrecordedUpdate(s.flights, e.action.slot, Busy(req, Entering, [], 0), user);
      IdleIsRecorded(user);
    }
  }

  lemma {:induction false} RunKeepsAligned(s: System, run: seq<Event>, user: string)
    requires CanRun(s, run) && AtMost(s, run, user, 1) && ReadingsOk(s.flights, s.now)
    requires Orderly(s, user) && Aligned(s, user)
    ensures Aligned(RunOf(s, run), user)
    decreases |run|
  {
    hide Enabled, Orderly, Aligned, ReadingsOk, Step;
    if run != [] {
      StepKeepsOrderly(s, run[0], user);
      StepClock(s, run[0]);
      StepKeepsAligned(s, run[0], user);
      RunKeepsAligned(Step(s, run[0]), run[1..], user);
    }
  }

  lemma StepClock(s: System, e: Event)
    requires Enabled(s, e)
    ensures Step(s, e).now == e.env.now
  {
  }

  lemma {:induction false} NobodyUnrecorded(flights: seq<Flight>, user: string)
    requires forall i :: 0 <= i < |flights| ==> flights[i].Idle?
    ensures Sum(UnrecordedOf(user), flights) == 0
  {
    if flights != [] {
      NobodyUnrecorded(flights[..|flights| - 1], user);
    }
  }

  /** An order recorded in the second was counted on a reading of an earlier one. */
  ghost predicate CarriedOver(l: UserLog, second: int) {
    exists i :: 0 <= i < |l.orders| && i < |l.bumps| && Seconds(l.orders[i].at) == second
      && Seconds(l.bumps[i].at) < second
  }

  lemma {:induction false} RecordedWhereCounted(bumps: seq<Stamp<()>>, orders: seq<Stamp<Order>>, second: int)
    requires |orders| <= |bumps|
    requires forall i :: 0 <= i < |orders| && Seconds(orders[i].at) == second ==> Seconds(bumps[i].at) == second
    ensures OrdersIn(orders, second) <= InSecond(bumps, second)
  {
    if |orders| < |bumps| {
      RecordedWhereCounted(bumps[..|bumps| - 1], orders, second);
    } else if orders != [] {
      var n := |orders| - 1;
      RecordedWhereCounted(bumps[..n], orders[..n], second);
      assert orders == orders[..n] + [orders[n]];
      OrdersAppend(orders[..n], orders[n], second);
    } else {
      assert Instants([]) == [];
    }
  }

  /** With one request of the user in flight at a time, the i-th order counted is the i-th one
      recorded, and more than nine are recorded in a second only if one of them was carried
      over: counted on a reading of an earlier second. */
  lemma TenOnlyIfCarriedOver(s: System, run: seq<Event>, user: string, second: int)
    requires Initial(s) && CanRun(s, run) && Lower(user) == user && AtMost(s, run, user, 1)
    ensures var l := LogOf(RunOf(s, run), user);
            && |l.orders| <= |l.bumps| <= |l.orders| + 1
            && (forall i :: 0 <= i < |l.orders| ==> l.bumps[i].at <= l.orders[i].at)
            && (OrdersIn(l.orders, second) > MAX_ORDERS_PER_SECOND ==> CarriedOver(l, second))
  {
    hide CanRun, RunOf, AtMost, InSecond, OrdersIn, WellFormed, Sum;
    NobodyUnrecorded(s.flights, user);
    RunKeepsAligned(s, run, user);
    NineASecond(s, run, user, second);
    AtMostAtEnd(s, run, user, 1);
    var end := RunOf(s, run);
    var l := LogOf(end, user);
    UnrecordedAreInFlight(end.flights, user);
    if !CarriedOver(l, second) {
      forall i | 0 <= i < |l.orders| && Seconds(l.orders[i].at) == second ensures Seconds(l.bumps[i].at) == second {
        assert l.bumps[i].at <= l.orders[i].at;
      }
      RecordedWhereCounted(l.bumps, l.orders, second);
    }
  }

  lemma {:induction false} UnrecordedAreInFlight(flights: seq<Flight>, user: string)
    ensures Sum(UnrecordedOf(user), flights) <= InFlight(flights, user)
  {
    if flights != [] {
      UnrecordedAreInFlight(flights[..|flights| - 1], user);
    }
  }
}
