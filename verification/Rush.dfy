/** The bounds on a calendar second are reached as well: late clock readings do wipe out the
    count of the current second, and an order may be recorded in a later second than the one
    it is counted in. */
module Rush {
  import opened Base
  import opened Calendar
  import opened Chain
  import opened Limits
  import opened Orders
  import opened PerSecond
  import opened Trackers
  import opened Windows
  import opened History
  import opened GuardModel
  import opened Protocol
  import opened Coupling
  import opened Bounds
  import opened Decision
  import opened Uninterrupted
  import opened Batch
  import opened SecondRate

  const EARLY: Time := NOW
  const LATE: Time := NOW + SECOND

  lemma TwoSeconds()
    ensures Seconds(EARLY) + 1 == Seconds(LATE) && EARLY < LATE
    ensures MarketAllows(EARLY, "regular") && !OffHours(EARLY) && MarketAllows(LATE, "regular") && !OffHours(LATE)
  {
    MarketIsOpen();
    assert LocalDay(LATE) == 0 && TimeOfDay(LATE) == 41_401_000_000_000;
  }

  /** A market order, which no value limit looks at. */
  function MarketArgs(quantity: int): ToolArgs {
    ToolArgs(Signature("NSE", "INFY", "BUY", quantity), 0, 0, "MARKET", true, "", "regular")
  }

  function E(at: Time, quantity: int): Stamp<Order> {
    Stamp(at, OrderOf(Some(Req(USER, MarketArgs(quantity)))))
  }

  lemma MarketRequests(quantity: int)
    ensures var req := Req(USER, MarketArgs(quantity));
            && !req.price.IsPositive() && req.confirmed && req.clientOrderId == "" && req.variety == "regular"
            && req.sig == MarketArgs(quantity).sig && req.email == USER
  {
  }

  /** So many orders a day and a minute, and no duplicate rule. */
  function Wide(n: int): Limits {
    SYSTEM_DEFAULTS.(maxOrdersPerDay := n, maxOrdersPerMinute := n, duplicateWindowSecs := -1)
  }

  lemma {:induction false} TotalAtMostLog(gate: Gate, log: seq<Stamp<Order>>, cutoff: Time)
    requires !gate.DailyValue?
    ensures Total(gate, log, cutoff) <= |log|
  {
    if log != [] {
      TotalAtMostLog(gate, log[..|log| - 1], cutoff);
    }
  }

  lemma RushIsPermitted(l: UserLog, n: int, now: Time)
    requires |l.orders| < n && Streak(l.bumps, Seconds(now)) < MAX_ORDERS_PER_SECOND && (now == EARLY || now == LATE)
    ensures Permitted(l, Wide(n), false, Req(USER, MarketArgs(1)), World(now))
  {
    TwoSeconds();
    MarketRequests(1);
    TotalAtMostLog(DailyCount, l.orders, ResetBoundary(now));
    TotalAtMostLog(MinuteRate, l.orders, now - RATE_WINDOW);
    RateIsTotal(l.orders, now - RATE_WINDOW);
    hide OffHours, MarketAllows, ResetBoundary, Req, MarketArgs, Total, Since, Instants;
  }

  // --- A request that waits with its reading ---

  /** The order has been placed, the clock has been read, and the counter's lock is awaited. */
  function Stalled(chain: seq<Check>): Flight {
    Busy(Req(USER, MarketArgs(1)), Incrementing(EARLY), chain, |chain|)
  }

  lemma HandleAndRead(s: System, slot: nat, env: Env) returns (run: seq<Event>)
    requires InSlot(s, slot, Checking) && s.flights[slot].done >= |s.flights[slot].chain| && s.now <= env.now
    ensures CanRun(s, run)
    ensures var f, end := s.flights[slot], RunOf(s, run);
            end.guard == s.guard && end.now == env.now
              && Moved(s, end, slot, UserOf(f), f.(stage := Incrementing(env.now)))
  {
    hide Step;
    var f, handle, clock := s.flights[slot], Event(Handle(slot, true), env), Event(ReadClock(slot), env);
    var m := Step(s, handle);
    HandlerStep(s, handle, slot, true);
    ClockStep(m, clock, slot);
    EmptyRun(Step(m, clock));
    Then(m, clock, []);
    Then(s, handle, [clock] + []);
    run := [handle] + ([clock] + []);
    MovedTwice(s, m, RunOf(s, run), slot, UserOf(f), f.(stage := Bumping), f.(stage := Incrementing(env.now)));
  }

  /** The last free slot takes a request that stalls. */
  lemma StallOne(s: System, policy: Limits, j: nat, k: nat) returns (run: seq<Event>)
    requires Open(s, USER, policy) && s.now <= EARLY && j < k
    requires Lined(s.flights, j + 1, k, Idle, Stalled(s.guard.checks), [])
    requires Permitted(LogOf(s, USER), policy, false, Req(USER, MarketArgs(1)), World(EARLY))
    ensures CanRun(s, run)
    ensures var end := RunOf(s, run);
            && Open(end, USER, policy) && SameRules(s.guard, end.guard) && SameRecords(LogOf(s, USER), LogOf(end, USER))
            && Lined(end.flights, j, k, Idle, Stalled(s.guard.checks), []) && end.now <= EARLY
  {
    hide Open, Permitted, BuildRequest, CanRun, RunOf;
    EverybodyAgrees(s.guard.checks, EARLY);
    MarketRequests(1);
    run := PassSlot(s, USER, policy, MarketArgs(1), World(EARLY), j);
    var m := RunOf(s, run);
    var more := HandleAndRead(m, j, World(EARLY));
    Concat(s, run, more);
    StillOpen(m, more, USER, policy);
    run := run + more;
  }

  lemma {:induction false} StallAll(s: System, policy: Limits, j: nat, k: nat) returns (run: seq<Event>)
    requires Open(s, USER, policy) && s.now <= EARLY && 1 <= j <= k
    requires Lined(s.flights, j, k, Idle, Stalled(s.guard.checks), [])
    requires Permitted(LogOf(s, USER), policy, false, Req(USER, MarketArgs(1)), World(EARLY))
    ensures CanRun(s, run)
    ensures var end := RunOf(s, run);
            && Open(end, USER, policy) && SameRules(s.guard, end.guard) && SameRecords(LogOf(s, USER), LogOf(end, USER))
            && Lined(end.flights, 1, k, Idle, Stalled(s.guard.checks), []) && end.now <= EARLY
    decreases j
  {
    hide Open, Permitted, BuildRequest, CanRun, RunOf;
    if j == 1 {
      EmptyRun(s);
      run := [];
    } else {
      run := StallOne(s, policy, j - 1, k);
      var m := RunOf(s, run);
      PermittedReads(LogOf(s, USER), LogOf(m, USER), policy, Req(USER, MarketArgs(1)), World(EARLY));
      var more := StallAll(m, policy, j - 1, k);
      Concat(s, run, more);
      run := run + more;
    }
  }

  /** The first stalled request gets the lock in the next second: its reading replaces the
      bucket, and its order is recorded in that second. */
  lemma ReleaseOne(s: System, policy: Limits, j: nat, k: nat) returns (run: seq<Event>)
    requires Open(s, USER, policy) && s.now <= LATE && j < k
    requires Lined(s.flights, j, k, Idle, Stalled(s.guard.checks), [])
    ensures CanRun(s, run)
    ensures var end := RunOf(s, run);
            && Open(end, USER, policy) && SameRules(s.guard, end.guard)
            && Lined(end.flights, j + 1, k, Idle, Stalled(s.guard.checks), []) && end.now <= LATE
            && LogOf(end, USER).orders == LogOf(s, USER).orders + [E(LATE, 1)]
            && LogOf(end, USER).bumps == LogOf(s, USER).bumps + [Stamp(EARLY, ())]
  {
    hide Sound, Track, BumpSecond, BuildRequest, OrderOf;
    MarketRequests(1);
    var bump, record := Event(Bump(j), World(LATE)), Event(Record(j), World(LATE));
    var s1 := Step(s, bump);
    var s2 := Step(s1, record);
    EmptyRun(s2);
    Then(s1, record, []);
    Then(s, bump, [record] + []);
    run := [bump] + ([record] + []);
    LateRecordKeepsLimits(s.guard, USER, Req(USER, MarketArgs(1)));
    StillOpen(s, run, USER, policy);
    assert s2.flights == s.flights[j := Idle];
  }

  lemma LateRecordKeepsLimits(g: GuardState, user: string, req: Request)
    ensures SameRules(g, Track(BumpSecond(g, user, EARLY), user, Some(req), LATE))
  {
  }

  // --- The next second ---

  lemma {:induction false} TicksCount(bumps: seq<Stamp<()>>, n: nat)
    ensures InSecond(bumps + Ticks(n, LATE), Seconds(LATE)) == InSecond(bumps, Seconds(LATE)) + n
    ensures Streak(bumps + Ticks(n, LATE), Seconds(LATE)) == Streak(bumps, Seconds(LATE)) + n
  {
    if n == 0 {
      assert bumps + [] == bumps;
    } else {
      TicksCount(bumps, n - 1);
      assert bumps + Ticks(n, LATE) == (bumps + Ticks(n - 1, LATE)) + [Stamp(LATE, ())];
      BumpsAppend(bumps + Ticks(n - 1, LATE), LATE, Seconds(LATE));
    }
  }

  /** How a stretch of the run leaves things: so many more orders counted in the second. */
  ghost predicate Rushed(s: System, end: System, policy: Limits, more: nat) {
    && Open(end, USER, policy) && SameRules(s.guard, end.guard) && end.now <= LATE
    && |LogOf(end, USER).orders| == |LogOf(s, USER).orders| + more
    && InSecond(LogOf(end, USER).bumps, Seconds(LATE)) == InSecond(LogOf(s, USER).bumps, Seconds(LATE)) + more
    && Streak(LogOf(end, USER).bumps, Seconds(LATE)) == Streak(LogOf(s, USER).bumps, Seconds(LATE)) + more
  }

  lemma FrontSlots(flights: seq<Flight>, m: nat, j: nat, k: nat, f: Flight)
    requires Lined(flights, j, k, Idle, f, []) && m <= j
    ensures Lined(flights, m, m, Idle, Idle, flights[m..])
    ensures forall other :: Lined(other, m, m, Idle, Idle, flights[m..]) ==> other == flights
  {
  }

  /** Requests in the first m slots pass together and are counted in the second. */
  lemma Burst(s: System, n: int, m: nat, j: nat, k: nat) returns (run: seq<Event>)
    requires Open(s, USER, Wide(n)) && s.now <= LATE && m <= j
    requires Lined(s.flights, j, k, Idle, Stalled(s.guard.checks), [])
    requires |LogOf(s, USER).orders| < n && Streak(LogOf(s, USER).bumps, Seconds(LATE)) < MAX_ORDERS_PER_SECOND
    ensures CanRun(s, run) && Rushed(s, RunOf(s, run), Wide(n), m) && RunOf(s, run).flights == s.flights
  {
    hide Open, Permitted, BuildRequest, CanRun, RunOf, Lined, Copies, Ticks, InSecond, Streak, OrderOf, Wide;
    var l := LogOf(s, USER);
    FrontSlots(s.flights, m, j, k, Stalled(s.guard.checks));
    RushIsPermitted(l, n, LATE);
    MarketRequests(1);
    EverybodyAgrees(s.guard.checks, LATE);
    run := PassThenRecord(s, USER, Wide(n), MarketArgs(1), World(LATE), World(LATE), m, s.flights[m..]);
    TicksCount(l.bumps, m);
    CopiesAreCopies(m, E(LATE, 1));
  }

  lemma RushedTwice(s: System, m: System, end: System, policy: Limits, a: nat, b: nat)
    requires Rushed(s, m, policy, a) && Rushed(m, end, policy, b)
    ensures Rushed(s, end, policy, a + b)
  {
    hide Open, InSecond, Streak;
  }

  /** One order after the other until the second has eight in a row. */
  lemma {:induction false} OneByOne(s: System, n: int, c: nat, j: nat, k: nat) returns (run: seq<Event>)
    requires Open(s, USER, Wide(n)) && s.now <= LATE && 1 <= j && c <= 8
    requires Lined(s.flights, j, k, Idle, Stalled(s.guard.checks), [])
    requires |LogOf(s, USER).orders| + c < n && Streak(LogOf(s, USER).bumps, Seconds(LATE)) + c <= 8
    ensures CanRun(s, run) && Rushed(s, RunOf(s, run), Wide(n), c) && RunOf(s, run).flights == s.flights
    decreases c
  {
    hide Open, CanRun, RunOf, Lined, InSecond, Streak;
    if c == 0 {
      EmptyRun(s);
      run := [];
    } else {
      run := Burst(s, n, 1, j, k);
      var m := RunOf(s, run);
      var more := OneByOne(m, n, c - 1, j, k);
      Concat(s, run, more);
      run := run + more;
      RushedTwice(s, m, RunOf(s, run), Wide(n), 1, c - 1);
    }
  }

  /** Eight in a row, and then as many together as there are free slots. */
  lemma Fill8(s: System, n: int, j: nat, k: nat) returns (run: seq<Event>)
    requires Open(s, USER, Wide(n)) && s.now <= LATE && 1 <= j
    requires Lined(s.flights, j, k, Idle, Stalled(s.guard.checks), [])
    requires |LogOf(s, USER).orders| + 8 < n && Streak(LogOf(s, USER).bumps, Seconds(LATE)) == 0
    ensures CanRun(s, run) && Rushed(s, RunOf(s, run), Wide(n), 8 + j) && RunOf(s, run).flights == s.flights
  {
    hide Open, CanRun, RunOf, Lined, InSecond, Streak;
    run := OneByOne(s, n, 8, j, k);
    var m := RunOf(s, run);
    var more := Burst(m, n, j, j, k);
    Concat(s, run, more);
    run := run + more;
    RushedTwice(s, m, RunOf(s, run), Wide(n), 8, j);
  }

  /** With j slots free and the others stalled: fill the second, let one late reading wipe out
      the count, and go on with one more free slot. */
  lemma {:induction false} RushOn(s: System, n: int, j: nat, k: nat) returns (run: seq<Event>)
    requires Open(s, USER, Wide(n)) && s.now <= LATE && 1 <= j <= k
    requires Lined(s.flights, j, k, Idle, Stalled(s.guard.checks), [])
    requires |LogOf(s, USER).orders| + (k - j + 1) * (k + 9) < n && Streak(LogOf(s, USER).bumps, Seconds(LATE)) == 0
    ensures CanRun(s, run)
    ensures var bumps := LogOf(RunOf(s, run), USER).bumps;
            && InSecond(bumps, Seconds(LATE)) ==
                 InSecond(LogOf(s, USER).bumps, Seconds(LATE)) + Room(0, k) - Room(k - j + 1, k)
            && Streak(bumps, Seconds(LATE)) == 8 + k
    decreases k - j
  {
    hide Open, CanRun, RunOf, Lined, InSecond, Streak;
    assert (k - j + 1) * (k + 9) == (k - j) * (k + 9) + (k + 9);
    MulNatural(k - j, k + 9);
    assert Room(k - j, k) == 8 + j + Room(k - j + 1, k);
    run := Fill8(s, n, j, k);
    if j < k {
      var m := RunOf(s, run);
      var release := ReleaseOne(m, Wide(n), j, k);
      Concat(s, run, release);
      run := run + release;
      var next := RunOf(s, run);
      TwoSeconds();
      BumpsAppend(LogOf(m, USER).bumps, EARLY, Seconds(LATE));
      var more := RushOn(next, n, j + 1, k);
      Concat(s, run, more);
      run := run + more;
    }
  }

  lemma MulNatural(a: int, b: int)
    requires a >= 0 && b >= 0
    ensures a * b >= 0
  {
  }

  lemma WideIsWide(n: int)
    requires n > 0
    ensures RupeeLimits(Wide(n)) && Policy(Fill(Wide(n))) == Wide(n)
  {
  }

  /** The bound on a second cannot be improved: for every k there is a run with at most k
      requests of one user in flight after which one second has counted nine orders for each
      of them and one for each pair. The counter itself then knows of 8 + k. */
  lemma SecondsBoundIsReached(k: nat) returns (s: System, run: seq<Event>)
    requires k >= 1
    ensures Initial(s) && CanRun(s, run) && AtMost(s, run, USER, k)
    ensures var bumps := LogOf(RunOf(s, run), USER).bumps;
            && 2 * InSecond(bumps, Seconds(LATE)) == 2 * MAX_ORDERS_PER_SECOND * k + k * (k - 1)
            && Streak(bumps, Seconds(LATE)) == 8 + k
  {
    hide Initial, CanRun, RunOf, AtMost, PolicyOf, Permitted, Open, Start, InSecond, Streak, Lined, Wide;
    var n := k * (k + 9) + 1;
    MulNatural(k, k + 9);
    WideIsWide(n);
    s := Start(Wide(n), k);
    StartIsInitial(Wide(n), k);
    run := OpenUp(s, USER);
    var lifted := RunOf(s, run);
    NothingCounted();
    RushIsPermitted(LogOf(lifted, USER), n, EARLY);
    LinedAnew(s.flights, k, Stalled(lifted.guard.checks));
    var stalling := StallAll(lifted, Wide(n), k, k);
    Concat(s, run, stalling);
    run := run + stalling;
    TwoSeconds();
    var rushing := RushOn(RunOf(s, run), n, 1, k);
    Concat(s, run, rushing);
    run := run + rushing;
    AtMostTheSlots(s, run, USER);
    SlotsOfStart(Wide(n), k);
    RoomInAll(0, k);
    RoomInAll(k, k);
  }

  lemma NothingCounted()
    ensures InSecond([], Seconds(LATE)) == 0 == Streak([], Seconds(LATE)) && Streak([], Seconds(EARLY)) == 0
  {
  }

  lemma LinedAnew(flights: seq<Flight>, k: nat, f: Flight)
    requires Lined(flights, k, k, Idle, Idle, [])
    ensures Lined(flights, k, k, Idle, f, [])
  {
  }

  lemma SlotsOfStart(limits: Limits, k: nat)
    ensures |Start(limits, k).flights| == k
  {
  }

  // --- Ten in a second ---

  /** Orders of one, two, three and so on, all recorded in the later second. */
  function Counting(n: nat): seq<Stamp<Order>> {
    if n == 0 then [] else Counting(n - 1) + [E(LATE, n)]
  }

  lemma {:induction false} CountingAddsUp(n: nat, cutoff: Time, quantity: int)
    requires cutoff <= LATE && quantity > n
    ensures |Counting(n)| == n
    ensures Total(SameOrder(MarketArgs(quantity).sig), Counting(n), cutoff) == 0
  {
    if n > 0 {
      CountingAddsUp(n - 1, cutoff, quantity);
      MarketRequests(n);
      TotalAppend(SameOrder(MarketArgs(quantity).sig), Counting(n - 1), E(LATE, n), cutoff);
    }
  }

  /** With the default limits: up to nine earlier orders, and up to eight counted in the
      second, leave room for one more. */
  lemma NextIsPermitted(l: UserLog, n: nat)
    requires n <= 9 && l.orders == Counting(n) && Streak(l.bumps, Seconds(LATE)) < MAX_ORDERS_PER_SECOND
    ensures Permitted(l, SYSTEM_DEFAULTS, false, Req(USER, MarketArgs(n + 1)), World(LATE))
  {
    var window := LATE - Span(SYSTEM_DEFAULTS.duplicateWindowSecs);
    TwoSeconds();
    MarketRequests(n + 1);
    CountingAddsUp(n, window, n + 1);
    DuplicateIsTotal(l.orders, MarketArgs(n + 1).sig, window);
    TotalAtMostLog(DailyCount, l.orders, ResetBoundary(LATE));
    TotalAtMostLog(MinuteRate, l.orders, LATE - RATE_WINDOW);
    RateIsTotal(l.orders, LATE - RATE_WINDOW);
    hide OffHours, MarketAllows, ResetBoundary, Req, Total, Since, Instants, Params, Holds, Counting;
  }

  lemma FirstIsPermitted(l: UserLog)
    requires l.orders == [] && l.bumps == []
    ensures Permitted(l, SYSTEM_DEFAULTS, false, Req(USER, MarketArgs(1)), World(EARLY))
  {
    TwoSeconds();
    MarketRequests(1);
    hide OffHours, MarketAllows, ResetBoundary, Req;
  }

  lemma {:induction false} CountOn(s: System, n: nat) returns (run: seq<Event>)
    requires Open(s, USER, SYSTEM_DEFAULTS) && s.now <= LATE && 1 <= n <= 10
    requires Lined(s.flights, 1, 1, Idle, Idle, [])
    requires LogOf(s, USER).orders == Counting(n) && Streak(LogOf(s, USER).bumps, Seconds(LATE)) == n - 1
    ensures CanRun(s, run) && LogOf(RunOf(s, run), USER).orders == Counting(10)
    decreases 10 - n
  {
    hide Open, Permitted, CanRun, RunOf, Lined, Streak, InSecond, Req;
    if n == 10 {
      EmptyRun(s);
      run := [];
    } else {
      NextIsPermitted(LogOf(s, USER), n);
      MarketRequests(n + 1);
      EverybodyAgrees(s.guard.checks, LATE);
      run := PassThenRecord(s, USER, SYSTEM_DEFAULTS, MarketArgs(n + 1), World(LATE), World(LATE), 1, []);
      var m := RunOf(s, run);
      TicksCount(LogOf(s, USER).bumps, 1);
      assert Copies(1, E(LATE, n + 1)) == [E(LATE, n + 1)];
      var more := CountOn(m, n + 1);
      Concat(s, run, more);
      run := run + more;
    }
  }

  lemma {:induction false} CountingInSecond(n: nat)
    ensures OrdersIn(Counting(n), Seconds(LATE)) == n
  {
    if n > 0 {
      CountingInSecond(n - 1);
      OrdersAppend(Counting(n - 1), E(LATE, n), Seconds(LATE));
    } else {
      assert Instants([]) == [];
    }
  }

  /** Under the default limits, with one request in flight at a time, ten orders may be recorded
      in one second: the first of them was counted at the end of the second before. */
  lemma TenInASecond() returns (s: System, run: seq<Event>)
    ensures Initial(s) && PolicyOf(s, USER) == SYSTEM_DEFAULTS && CanRun(s, run) && AtMost(s, run, USER, 1)
    ensures OrdersIn(LogOf(RunOf(s, run), USER).orders, Seconds(LATE)) == 10
  {
    hide Initial, CanRun, RunOf, AtMost, PolicyOf, Permitted, Open, Start, OrdersIn, Streak, Lined, Req;
    s := Start(SYSTEM_DEFAULTS, 1);
    StartIsInitial(SYSTEM_DEFAULTS, 1);
    run := OpenUp(s, USER);
    var lifted := RunOf(s, run);
    FirstIsPermitted(LogOf(lifted, USER));
    LinedAnew(s.flights, 1, Stalled(lifted.guard.checks));
    var stalling := StallOne(lifted, SYSTEM_DEFAULTS, 0, 1);
    Concat(s, run, stalling);
    run := run + stalling;
    var stalled := RunOf(s, run);
    TwoSeconds();
    var release := ReleaseOne(stalled, SYSTEM_DEFAULTS, 0, 1);
    Concat(s, run, release);
    run := run + release;
    var m := RunOf(s, run);
    NothingCounted();
    BumpsAppend([], EARLY, Seconds(LATE));
    LinedAgain(m.flights, Stalled(m.guard.checks));
    assert Counting(1) == [E(LATE, 1)];
    var counting := CountOn(m, 1);
    Concat(s, run, counting);
    run := run + counting;
    AtMostTheSlots(s, run, USER);
    SlotsOfStart(SYSTEM_DEFAULTS, 1);
    CountingInSecond(10);
  }

  lemma LinedAgain(flights: seq<Flight>, f: Flight)
    requires Lined(flights, 1, 1, Idle, f, [])
    ensures Lined(flights, 1, 1, Idle, Idle, [])
  {
  }
}
