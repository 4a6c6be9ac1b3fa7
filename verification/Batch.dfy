/** Building interleavings: several requests of a user pass on what the history permits to one
    of them, and are recorded afterwards, while other requests stay where they are. */
module Batch {
  import opened Base
  import opened Calendar
  import opened Chain
  import opened Limits
  import opened Orders
  import opened History
  import opened GuardModel
  import opened Laws
  import opened Protocol
  import opened Coupling
  import opened Bounds
  import opened Decision
  import opened Uninterrupted

  const TOOL := "place_order"

  function Req(user: string, args: ToolArgs): Request {
    BuildRequest(user, TOOL, args)
  }

  /** A request that has passed every check and waits at the handler. */
  function Waiting(user: string, args: ToolArgs, chain: seq<Check>): Flight {
    Busy(Req(user, args), Checking, chain, |chain|)
  }

  /** Every external check agrees. */
  function World(now: Time): Env {
    Env(now, _ => Answer(Allow), false)
  }

  lemma EverybodyAgrees(chain: seq<Check>, now: Time)
    ensures ExternalsAgree(chain, World(now))
  {
  }

  /** The user may trade. */
  ghost predicate Open(s: System, user: string, policy: Limits) {
    && Sound(s, user, policy) && OneKeyCheck(s.guard.checks)
    && Lower(user) == user && user != ""
    && !s.guard.killSwitch.frozen && !IsFrozen(s.guard, user)
  }

  /** The first n slots hold one thing, the next ones up to m another, and then come the rest. */
  predicate Lined(flights: seq<Flight>, n: nat, m: nat, front: Flight, back: Flight, rest: seq<Flight>) {
    && n <= m && |flights| == m + |rest|
    && (forall i :: 0 <= i < n ==> flights[i] == front)
    && (forall i :: n <= i < m ==> flights[i] == back)
    && (forall i :: m <= i < |flights| ==> flights[i] == rest[i - m])
  }

  ghost predicate SameRecords(l: UserLog, l': UserLog) {
    l'.orders == l.orders && l'.bumps == l.bumps
  }

  /** Without a key, a permission depends on the orders and the second counts only. */
  lemma PermittedReads(l: UserLog, l': UserLog, policy: Limits, req: Request, env: Env)
    requires Permitted(l, policy, false, req, env) && req.clientOrderId == "" && SameRecords(l, l')
    ensures Permitted(l', policy, false, req, env)
  {
  }

  /** An allow leaves limits, switch and chain alone. */
  lemma {:induction false} AllowedKeepsLimits(g: GuardState, chain: seq<Check>, req: Request, env: Env)
    requires Walk(g, chain, req, env).1.Allowed?
    ensures SameRules(g, Walk(g, chain, req, env).0)
    decreases |chain|
  {
    hide Effect, Judge;
    if chain != [] {
      AllowedKeepsLimits(Effect(g, chain[0].rule, req, env), chain[1..], req, env);
    }
  }

  ghost predicate SameRules(g: GuardState, g': GuardState) {
    g'.limits == g.limits && g'.killSwitch == g.killSwitch && g'.checks == g.checks
  }

  lemma RecordKeepsLimits(g: GuardState, email: string, req: Option<Request>, env: Env)
    ensures SameRules(g, RecordOrder(g, email, req, env))
  {
  }

  lemma SoundLater(s: System, user: string, policy: Limits, env: Env)
    requires Sound(s, user, policy) && s.now <= env.now
    ensures GuardOk(s.guard, LogOf(s, user), user, policy, env.now)
  {
    hide GuardOk;
    GuardWaits(s.guard, LogOf(s, user), user, policy, s.now, env.now);
  }

  lemma StillOpen(s: System, run: seq<Event>, user: string, policy: Limits)
    requires Open(s, user, policy) && CanRun(s, run) && SameRules(s.guard, RunOf(s, run).guard)
    ensures Open(RunOf(s, run), user, policy)
  {
    hide Sound, CanRun, RunOf, OneKeyCheck;
    RunKeepsSound(s, run, user, policy);
  }

  // --- The requests pass ---

  /** One request passes in a free slot. */
  lemma PassSlot(s: System, user: string, policy: Limits, args: ToolArgs, env: Env, slot: nat) returns (run: seq<Event>)
    requires Open(s, user, policy) && args.clientOrderId == "" && s.now <= env.now
    requires slot < |s.flights| && s.flights[slot].Idle?
    requires Permitted(LogOf(s, user), policy, false, Req(user, args), env) && ExternalsAgree(s.guard.checks, env)
    ensures CanRun(s, run)
    ensures var end := RunOf(s, run);
            && Open(end, user, policy) && SameRules(s.guard, end.guard) && SameRecords(LogOf(s, user), LogOf(end, user))
            && end.flights == s.flights[slot := Waiting(user, args, s.guard.checks)] && end.now <= env.now
  {
    hide Sound, Permitted, ExternalsAgree, OneKeyCheck, GuardOk, BuildRequest, Walk, IsFrozen, CanRun, RunOf;
    var req := Req(user, args);
    SoundLater(s, user, policy, env);
    AllowedIffPermitted(s.guard, LogOf(s, user), user, policy, req, env);
    run := BeginAndCheck(s, slot, TOOL, user, args, env);
    AllowedKeepsLimits(s.guard, s.guard.checks, req, env);
    StillOpen(s, run, user, policy);
  }

  lemma {:induction false} PassAll(
    s: System, user: string, policy: Limits, args: ToolArgs, env: Env, n: nat, m: nat, rest: seq<Flight>)
    returns (run: seq<Event>)
    requires Open(s, user, policy) && args.clientOrderId == "" && s.now <= env.now
    requires Lined(s.flights, n, m, Waiting(user, args, s.guard.checks), Idle, rest)
    requires Permitted(LogOf(s, user), policy, false, Req(user, args), env) && ExternalsAgree(s.guard.checks, env)
    ensures CanRun(s, run)
    ensures var end := RunOf(s, run);
            && Open(end, user, policy) && SameRules(s.guard, end.guard) && SameRecords(LogOf(s, user), LogOf(end, user))
            && Lined(end.flights, m, m, Waiting(user, args, s.guard.checks), Idle, rest) && end.now <= env.now
    decreases m - n
  {
    hide Open, Permitted, ExternalsAgree, BuildRequest, CanRun, RunOf;
    if n == m {
      EmptyRun(s);
      run := [];
    } else {
      run := PassSlot(s, user, policy, args, env, n);
      var next := RunOf(s, run);
      PermittedReads(LogOf(s, user), LogOf(next, user), policy, Req(user, args), env);
      var more := PassAll(next, user, policy, args, env, n + 1, m, rest);
      Concat(s, run, more);
      run := run + more;
    }
  }

  // --- They are recorded ---

  function Copies(n: nat, e: Stamp<Order>): seq<Stamp<Order>> {
    if n == 0 then [] else Copies(n - 1, e) + [e]
  }

  function Ticks(n: nat, at: Time): seq<Stamp<()>> {
    if n == 0 then [] else Ticks(n - 1, at) + [Stamp(at, ())]
  }

  lemma {:induction false} CopiesAreCopies(n: nat, e: Stamp<Order>)
    ensures |Copies(n, e)| == n && forall i :: 0 <= i < n ==> Copies(n, e)[i] == e
  {
    if n > 0 {
      CopiesAreCopies(n - 1, e);
    }
  }

  lemma OneMoreCopy(gate: Gate, before: seq<Stamp<Order>>, n: nat, e: Stamp<Order>, cutoff: Time)
    requires cutoff <= e.at
    ensures Total(gate, before + Copies(n + 1, e), cutoff) ==
              Total(gate, before + Copies(n, e), cutoff) + Measure(gate, e.item)
  {
    assert before + Copies(n + 1, e) == (before + Copies(n, e)) + [e];
    TotalAppend(gate, before + Copies(n, e), e, cutoff);
  }

  lemma {:induction false} CopiesAddUp(gate: Gate, before: seq<Stamp<Order>>, n: nat, e: Stamp<Order>, cutoff: Time)
    requires cutoff <= e.at
    ensures Total(gate, before + Copies(n, e), cutoff) == Total(gate, before, cutoff) + n * Measure(gate, e.item)
  {
    hide Measure, Total;
    if n == 0 {
      assert before + [] == before;
    } else {
      CopiesAddUp(gate, before, n - 1, e, cutoff);
      OneMoreCopy(gate, before, n - 1, e, cutoff);
      var m := Measure(gate, e.item);
      assert (n - 1) * m + m == n * m;
    }
  }

  /** One waiting request is recorded. */
  lemma RecordSlot(s: System, user: string, policy: Limits, env: Env, slot: nat) returns (run: seq<Event>)
    requires Open(s, user, policy) && s.now <= env.now
    requires InSlot(s, slot, Checking) && s.flights[slot].done >= |s.flights[slot].chain|
    requires UserOf(s.flights[slot]) == user
    ensures CanRun(s, run)
    ensures var end := RunOf(s, run);
            && Open(end, user, policy) && SameRules(s.guard, end.guard) && end.now == env.now
            && end.flights == s.flights[slot := Idle]
            && LogOf(end, user).orders == LogOf(s, user).orders + [Stamp(env.now, OrderOf(Some(s.flights[slot].req)))]
            && LogOf(end, user).bumps == LogOf(s, user).bumps + [Stamp(env.now, ())]
  {
    hide Open, CanRun, RunOf, OrderOf, Instants, RecordOrder;
    var f := s.flights[slot];
    run := HandleAndRecord(s, slot, env, true);
    OneInstant(Stamp(env.now, OrderOf(Some(f.req))));
    RecordKeepsLimits(s.guard, f.req.email, Some(f.req), env);
    StillOpen(s, run, user, policy);
  }

  lemma {:induction false} RecordAll(
    s: System, user: string, policy: Limits, f: Flight, env: Env, n: nat, m: nat, rest: seq<Flight>)
    returns (run: seq<Event>)
    requires Open(s, user, policy) && s.now <= env.now
    requires f.Busy? && f.stage == Checking && f.done >= |f.chain| && UserOf(f) == user
    requires Lined(s.flights, n, m, Idle, f, rest)
    ensures CanRun(s, run)
    ensures var end, e := RunOf(s, run), Stamp(env.now, OrderOf(Some(f.req)));
            && Open(end, user, policy) && SameRules(s.guard, end.guard) && end.now <= env.now
            && Lined(end.flights, m, m, Idle, f, rest)
            && LogOf(end, user).orders == LogOf(s, user).orders + Copies(m - n, e)
            && LogOf(end, user).bumps == LogOf(s, user).bumps + Ticks(m - n, env.now)
    decreases m - n
  {
    hide Open, CanRun, RunOf, OrderOf, Lined, Copies, Ticks;
    LinedFits(s.flights, n, m, Idle, f, rest);
    var e := Stamp(env.now, OrderOf(Some(f.req)));
    if n == m {
      EmptyRun(s);
      NoCopies(e, env.now);
      run := [];
    } else {
      LinedSlot(s.flights, n, m, Idle, f, rest);
      run := RecordSlot(s, user, policy, env, n);
      var next := RunOf(s, run);
      var more := RecordAll(next, user, policy, f, env, n + 1, m, rest);
      Concat(s, run, more);
      run := run + more;
      FrontCopy(LogOf(s, user).orders, LogOf(s, user).bumps, m - n, e);
    }
  }

  lemma LinedSlot(flights: seq<Flight>, n: nat, m: nat, front: Flight, back: Flight, rest: seq<Flight>)
    requires Lined(flights, n, m, front, back, rest) && n < m
    ensures n < |flights| && flights[n] == back && Lined(flights[n := front], n + 1, m, front, back, rest)
  {
  }

  lemma LinedFits(flights: seq<Flight>, n: nat, m: nat, front: Flight, back: Flight, rest: seq<Flight>)
    requires Lined(flights, n, m, front, back, rest)
    ensures n <= m
  {
  }

  lemma NoCopies(e: Stamp<Order>, at: Time)
    ensures Copies(0, e) == [] && Ticks(0, at) == []
  {
  }

  lemma {:induction false} CopiesCommute(n: nat, e: Stamp<Order>)
    ensures Copies(n + 1, e) == [e] + Copies(n, e)
    ensures Ticks(n + 1, e.at) == [Stamp(e.at, ())] + Ticks(n, e.at)
  {
    if n == 0 {
      assert Copies(1, e) == Copies(0, e) + [e] && Ticks(1, e.at) == Ticks(0, e.at) + [Stamp(e.at, ())];
    } else {
      CopiesCommute(n - 1, e);
      assert Copies(n + 1, e) == ([e] + Copies(n - 1, e)) + [e];
      assert Ticks(n + 1, e.at) == ([Stamp(e.at, ())] + Ticks(n - 1, e.at)) + [Stamp(e.at, ())];
    }
  }

  lemma FrontCopy(orders: seq<Stamp<Order>>, bumps: seq<Stamp<()>>, n: nat, e: Stamp<Order>)
    requires n > 0
    ensures (orders + [e]) + Copies(n - 1, e) == orders + Copies(n, e)
    ensures (bumps + [Stamp(e.at, ())]) + Ticks(n - 1, e.at) == bumps + Ticks(n, e.at)
  {
    hide Copies, Ticks;
    CopiesCommute(n - 1, e);
  }

  /** As many requests as there are free slots in front pass on what the history permits to one
      of them, and then they are all recorded; the slots behind keep what they hold. */
  lemma PassThenRecord(
    s: System, user: string, policy: Limits, args: ToolArgs, checking: Env, recording: Env, m: nat, rest: seq<Flight>)
    returns (run: seq<Event>)
    requires Open(s, user, policy) && args.clientOrderId == "" && s.now <= checking.now <= recording.now
    requires Lined(s.flights, m, m, Idle, Idle, rest)
    requires Permitted(LogOf(s, user), policy, false, Req(user, args), checking)
    requires ExternalsAgree(s.guard.checks, checking)
    ensures CanRun(s, run)
    ensures var end, e := RunOf(s, run), Stamp(recording.now, OrderOf(Some(Req(user, args))));
            && Open(end, user, policy) && SameRules(s.guard, end.guard) && end.now <= recording.now
            && Lined(end.flights, m, m, Idle, Idle, rest)
            && LogOf(end, user).orders == LogOf(s, user).orders + Copies(m, e)
            && LogOf(end, user).bumps == LogOf(s, user).bumps + Ticks(m, recording.now)
  {
    hide Open, Permitted, ExternalsAgree, BuildRequest, CanRun, RunOf, OrderOf, Copies, Ticks;
    OpenUser(s, user, policy);
    run := PassAll(s, user, policy, args, checking, 0, m, rest);
    var middle := RunOf(s, run);
    var f := Waiting(user, args, s.guard.checks);
    assert f.req.email == user;
    var more := RecordAll(middle, user, policy, f, recording, 0, m, rest);
    Concat(s, run, more);
    run := run + more;
  }

  lemma OpenUser(s: System, user: string, policy: Limits)
    requires Open(s, user, policy)
    ensures Lower(user) == user && user != ""
  {
  }

  // --- From a start ---

  const USER := "a"

  /** Half past eleven IST on a Thursday. */
  const NOW: Time := 21_600_000_000_000

  lemma MarketIsOpen()
    ensures MarketAllows(NOW, "regular") && !OffHours(NOW)
  {
    assert LocalDay(NOW) == 0 && TimeOfDay(NOW) == 41_400_000_000_000;
  }

  lemma UserIsLower()
    ensures Lower(USER) == USER
  {
    assert Lower(USER)[0] == LowerChar(USER[0]);
  }

  /** A new gate with k idle workers, and limits of its own for one user. */
  function Start(limits: Limits, k: nat): System {
    System(FRESH.(limits := map[USER := limits]), map[], seq(k, _ => Idle), 0)
  }

  lemma BuiltinsAreFit()
    ensures WellFormed(BUILTINS) && OneKeyCheck(BUILTINS)
  {
    hide WellFormed, Registered, OneKeyCheck;
    RegistrationKeepsChainWellFormed([]);
    RegisteredAsksOnce([]);
    assert BUILTINS + [] == BUILTINS;
  }

  lemma StartIsInitial(limits: Limits, k: nat)
    requires RupeeLimits(limits)
    ensures Initial(Start(limits, k)) && OneKeyCheck(Start(limits, k).guard.checks)
    ensures PolicyOf(Start(limits, k), USER) == Policy(Fill(limits))
    ensures Lower(USER) == USER && Start(limits, k).now == 0
    ensures Lined(Start(limits, k).flights, k, k, Idle, Idle, [])
  {
    hide WellFormed, OneKeyCheck, Fill;
    BuiltinsAreFit();
    UserIsLower();
    assert Effective(Start(limits, k).guard.limits, USER) == Fill(limits);
  }

  /** Any start of a lower-case user can be opened: the lifts are calls like any other. */
  lemma OpenUp(s: System, user: string) returns (run: seq<Event>)
    requires Initial(s) && Lower(user) == user && user != "" && OneKeyCheck(s.guard.checks)
    ensures CanRun(s, run)
    ensures var end := RunOf(s, run);
            && Open(end, user, PolicyOf(s, user)) && end.flights == s.flights && end.now == s.now
            && LogOf(end, user).orders == [] && LogOf(end, user).bumps == []
            && end.guard.checks == s.guard.checks
  {
    hide WellFormed, OneKeyCheck, Sound, PolicyOf;
    var env := World(s.now);
    var all, one := Event(UnfreezeAll, env), Event(UnfreezeUser(user), env);
    InitialIsSound(s, user);
    var s1 := Step(s, all);
    var s2 := Step(s1, one);
    EmptyRun(s2);
    Then(s1, one, []);
    Then(s, all, [one] + []);
    run := [all] + ([one] + []);
    RunKeepsSound(s, run, user, PolicyOf(s, user));
  }

  // --- No more requests than slots ---

  lemma {:induction false} SlotsBoundFlights(flights: seq<Flight>, user: string)
    ensures InFlight(flights, user) <= |flights|
  {
    if flights != [] {
      SlotsBoundFlights(flights[..|flights| - 1], user);
    }
  }

  lemma SlotsStay(s: System, e: Event)
    requires Enabled(s, e)
    ensures |Step(s, e).flights| == |s.flights|
  {
    hide GuardAfter, GuardAfterCall, LogAfter, FlightAfter;
  }

  /** A user never has more requests in flight than there are slots. */
  lemma {:induction false} AtMostTheSlots(s: System, run: seq<Event>, user: string)
    requires CanRun(s, run)
    ensures AtMost(s, run, user, |s.flights|)
    decreases |run|
  {
    hide Enabled, Step, InFlight;
    SlotsBoundFlights(s.flights, user);
    if run != [] {
      SlotsStay(s, run[0]);
      AtMostTheSlots(Step(s, run[0]), run[1..], user);
    }
  }
}
