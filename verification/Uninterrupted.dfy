/** The interleaved protocol contains the sequential gate: a request whose steps nobody
    interrupts does to the gate, and tells the user, what the middleware does in one call. */
module Uninterrupted {
  import opened Base
  import opened Orders
  import opened History
  import opened GuardModel
  import opened Protocol

  function ReplyTo(r: CheckResult, succeeds: bool): Reply {
    match r
    case Blocked(reason, autoFrozen) => Refused(reason, autoFrozen)
    case Allowed => if succeeds then OrderPlaced else HandlerFailed
  }

  /** What the middleware leaves behind after the check. */
  function Recorded(g: GuardState, r: CheckResult, req: Request, succeeds: bool, recording: Env): GuardState {
    if r.Allowed? && succeeds then RecordOrder(g, req.email, Some(req), recording) else g
  }

  function Placed(r: CheckResult, req: Request, succeeds: bool, recording: Env): seq<Stamp<Order>> {
    if r.Allowed? && succeeds then [Stamp(recording.now, OrderOf(Some(req)))] else []
  }

  /** The request in the slot has moved on, and nobody was told or recorded anything. */
  ghost predicate Moved(s: System, end: System, slot: nat, user: string, f: Flight) {
    && slot < |s.flights| && end.flights == s.flights[slot := f]
    && LogOf(end, user).replies == LogOf(s, user).replies
    && LogOf(end, user).orders == LogOf(s, user).orders && LogOf(end, user).bumps == LogOf(s, user).bumps
    && forall other :: other != user ==> LogOf(end, other) == LogOf(s, other)
  }

  /** The slot is free again, the user got exactly one answer and the given orders were
      recorded, and nobody else's log moved. */
  ghost predicate Served(s: System, end: System, slot: nat, user: string, reply: Reply, orders: seq<Stamp<Order>>) {
    && slot < |s.flights| && end.flights == s.flights[slot := Idle]
    && LogOf(end, user).replies == LogOf(s, user).replies + [reply]
    && LogOf(end, user).orders == LogOf(s, user).orders + orders
    && LogOf(end, user).bumps == LogOf(s, user).bumps + Instants(orders)
    && forall other :: other != user ==> LogOf(end, other) == LogOf(s, other)
  }

  ghost predicate InSlot(s: System, slot: nat, stage: Stage) {
    slot < |s.flights| && s.flights[slot].Busy? && s.flights[slot].stage == stage
  }

  lemma Then(s: System, e: Event, rest: seq<Event>)
    requires Enabled(s, e) && CanRun(Step(s, e), rest)
    ensures CanRun(s, [e] + rest) && RunOf(s, [e] + rest) == RunOf(Step(s, e), rest)
  {
    assert ([e] + rest)[1..] == rest;
  }

  lemma {:induction false} Concat(s: System, a: seq<Event>, b: seq<Event>)
    requires CanRun(s, a) && CanRun(RunOf(s, a), b)
    ensures CanRun(s, a + b) && RunOf(s, a + b) == RunOf(RunOf(s, a), b)
    decreases |a|
  {
    hide Step, Enabled;
    if a == [] {
      assert a + b == b;
    } else {
      Concat(Step(s, a[0]), a[1..], b);
      assert (a + b)[0] == a[0] && (a + b)[1..] == a[1..] + b;
    }
  }

  lemma EmptyRun(s: System)
    ensures CanRun(s, []) && RunOf(s, []) == s
  {
  }

  lemma MovedTwice(s: System, m: System, end: System, slot: nat, user: string, f: Flight, f': Flight)
    requires Moved(s, m, slot, user, f) && Moved(m, end, slot, user, f')
    ensures Moved(s, end, slot, user, f')
  {
  }

  lemma ServedLater(
    s: System, m: System, end: System, slot: nat, user: string, f: Flight, reply: Reply, orders: seq<Stamp<Order>>)
    requires Moved(s, m, slot, user, f) && Served(m, end, slot, user, reply, orders)
    ensures Served(s, end, slot, user, reply, orders)
  {
  }

  // --- Single steps ---

  lemma ClockStep(s: System, e: Event, slot: nat)
    requires e.action == ReadClock(slot) && Enabled(s, e)
    ensures var f, next := s.flights[slot], Step(s, e);
            && next.guard == s.guard && next.now == e.env.now
            && Moved(s, next, slot, UserOf(f),
                     f.(stage := if f.stage.Bumping? then Incrementing(e.env.now) else Asking(e.env.now)))
  {
  }

  lemma EvaluateStep(s: System, e: Event, slot: nat)
    requires e.action == Evaluate(slot) && Enabled(s, e)
    ensures var f := s.flights[slot];
            var c, next := f.chain[f.done], Step(s, e);
            && next.guard == Effect(s.guard, c.rule, f.req, e.env) && next.now == e.env.now
            && match Answered(s.guard, f, e.env)
               case Allow => Moved(s, next, slot, UserOf(f), f.(stage := Checking, done := f.done + 1))
               case Reject(reason) =>
                 if c.counted then Moved(s, next, slot, UserOf(f), f.(stage := Counting(reason)))
                 else Served(s, next, slot, UserOf(f), Refused(reason, false), [])
  {
    hide Effect, Judge;
  }

  /** One link of the chain; the second counter takes two steps to ask. */
  lemma OneCheck(s: System, slot: nat, env: Env) returns (run: seq<Event>)
    requires InSlot(s, slot, Checking) && s.flights[slot].done < |s.flights[slot].chain| && s.now <= env.now
    ensures CanRun(s, run)
    ensures var f, end := s.flights[slot], RunOf(s, run);
            var c := f.chain[f.done];
            && end.guard == Effect(s.guard, c.rule, f.req, env) && end.now == env.now
            && match Judge(s.guard, c.rule, f.req, env)
               case Allow => Moved(s, end, slot, UserOf(f), f.(done := f.done + 1))
               case Reject(reason) =>
                 if c.counted then Moved(s, end, slot, UserOf(f), f.(stage := Counting(reason)))
                 else Served(s, end, slot, UserOf(f), Refused(reason, false), [])
  {
    hide Effect, Judge, Step;
    var f, e := s.flights[slot], Event(Evaluate(slot), env);
    assert env.(now := env.now) == env;
    if AsksSecond(f) {
      var clock := Event(ReadClock(slot), env);
      var m := Step(s, clock);
      ClockStep(s, clock, slot);
      EvaluateStep(m, e, slot);
      EmptyRun(Step(m, e));
      Then(m, e, []);
      Then(s, clock, [e] + []);
      run := [clock] + ([e] + []);
    } else {
      EvaluateStep(s, e, slot);
      EmptyRun(Step(s, e));
      Then(s, e, []);
      run := [e] + [];
    }
  }

  /** After a counted rejection: the two lock sections that feed the breaker. */
  lemma Refuse(s: System, slot: nat, env: Env, reason: Reason) returns (run: seq<Event>)
    requires InSlot(s, slot, Counting(reason)) && s.now <= env.now
    ensures CanRun(s, run)
    ensures var user, g := UserOf(s.flights[slot]), CountRejection(s.guard, UserOf(s.flights[slot]), env.now);
            && RunOf(s, run).guard == Breaker(g, user, env) && RunOf(s, run).now == env.now
            && Served(s, RunOf(s, run), slot, user, Refused(reason, BreakerTrips(g, user, env.now)), [])
  {
    hide CountRejection, Breaker, BreakerTrips;
    var count, trip := Event(Count(slot), env), Event(Trip(slot), env);
    var s1 := Step(s, count);
    var s2 := Step(s1, trip);
    EmptyRun(s2);
    Then(s1, trip, []);
    Then(s, count, [trip] + []);
    run := [count] + ([trip] + []);
    assert s2.flights == s.flights[slot := Idle];
  }

  // --- The check ---

  /** The walk: an allowed request waits at the handler, any other one has been answered. */
  lemma {:induction false} FinishChecks(s: System, slot: nat, env: Env) returns (run: seq<Event>)
    requires InSlot(s, slot, Checking) && s.flights[slot].done <= |s.flights[slot].chain| && s.now <= env.now
    ensures CanRun(s, run)
    ensures var f, end := s.flights[slot], RunOf(s, run);
            var (g, r) := Walk(s.guard, f.chain[f.done..], f.req, env);
            && end.guard == g && end.now <= env.now
            && match r
               case Allowed => Moved(s, end, slot, UserOf(f), f.(done := |f.chain|))
               case Blocked(reason, autoFrozen) => Served(s, end, slot, UserOf(f), Refused(reason, autoFrozen), [])
    decreases |s.flights[slot].chain| - s.flights[slot].done
  {
    hide Effect, Judge, CountRejection, Breaker, BreakerTrips, RecordOrder, Step, Enabled;
    var f := s.flights[slot];
    var user, rest := UserOf(f), f.chain[f.done..];
    run := [];
    if f.done == |f.chain| {
      EmptyRun(s);
    } else {
      run := OneCheck(s, slot, env);
      var m := RunOf(s, run);
      assert rest == [f.chain[f.done]] + f.chain[f.done + 1..];
      var r := Walk(s.guard, rest, f.req, env).1;
      match Judge(s.guard, f.chain[f.done].rule, f.req, env) {
        case Allow =>
          var more := FinishChecks(m, slot, env);
          Concat(s, run, more);
          run := run + more;
          if r.Allowed? {
            MovedTwice(s, m, RunOf(s, run), slot, user, f.(done := f.done + 1), f.(done := |f.chain|));
          } else {
            ServedLater(s, m, RunOf(s, run), slot, user, f.(done := f.done + 1), ReplyTo(r, false), []);
          }
        case Reject(reason) =>
          if f.chain[f.done].counted {
            var more := Refuse(m, slot, env, reason);
            Concat(s, run, more);
            run := run + more;
            ServedLater(s, m, RunOf(s, run), slot, user, f.(stage := Counting(reason)), ReplyTo(r, false), []);
          }
      }
    }
  }

  /** Entering the gate: refused at once while everybody is frozen, on to the chain otherwise. */
  lemma Enter(s: System, slot: nat, tool: string, email: string, args: ToolArgs, env: Env) returns (run: seq<Event>)
    requires slot < |s.flights| && s.flights[slot].Idle? && s.now <= env.now
    requires tool in ORDER_TOOLS && email != ""
    ensures CanRun(s, run)
    ensures var req, end := BuildRequest(email, tool, args), RunOf(s, run);
            && end.guard == s.guard && end.now == env.now
            && if s.guard.killSwitch.frozen then Served(s, end, slot, Lower(email), Refused(GlobalFreeze, false), [])
               else Moved(s, end, slot, Lower(email), Busy(req, Checking, s.guard.checks, 0))
  {
    hide BuildRequest;
    var begin, admit := Event(Begin(slot, tool, email, args), env), Event(Admit(slot), env);
    var req := BuildRequest(email, tool, args);
    assert req.email == email;
    var s1 := Step(s, begin);
    var s2 := Step(s1, admit);
    EmptyRun(s2);
    Then(s1, admit, []);
    Then(s, begin, [admit] + []);
    run := [begin] + ([admit] + []);
    assert s2.flights == s.flights[slot := FlightAfter(s1.guard, s1.flights[slot], Admit(slot), env)];
  }

  /** A request of an order tool, begun in a free slot and checked at one instant. */
  lemma BeginAndCheck(s: System, slot: nat, tool: string, email: string, args: ToolArgs, env: Env)
    returns (run: seq<Event>)
    requires slot < |s.flights| && s.flights[slot].Idle? && s.now <= env.now
    requires tool in ORDER_TOOLS && email != ""
    ensures CanRun(s, run)
    ensures var req, end := BuildRequest(email, tool, args), RunOf(s, run);
            var (g, r) := CheckOrder(s.guard, req, env);
            && end.guard == g && end.now <= env.now
            && match r
               case Allowed =>
                 Moved(s, end, slot, Lower(email), Busy(req, Checking, s.guard.checks, |s.guard.checks|))
               case Blocked(reason, autoFrozen) => Served(s, end, slot, Lower(email), Refused(reason, autoFrozen), [])
  {
    hide Walk, Step, Enabled, BuildRequest;
    var req, user := BuildRequest(email, tool, args), Lower(email);
    var chain := s.guard.checks;
    var entered, passed := Busy(req, Checking, chain, 0), Busy(req, Checking, chain, |chain|);
    run := Enter(s, slot, tool, email, args, env);
    if !s.guard.killSwitch.frozen {
      var m := RunOf(s, run);
      var more := FinishChecks(m, slot, env);
      assert s.guard.checks[0..] == s.guard.checks;
      Concat(s, run, more);
      run := run + more;
      match CheckOrder(s.guard, req, env).1 {
        case Allowed => MovedTwice(s, m, RunOf(s, run), slot, user, entered, passed);
        case Blocked(reason, autoFrozen) =>
          ServedLater(s, m, RunOf(s, run), slot, user, entered, Refused(reason, autoFrozen), []);
      }
    }
  }

  // --- The record ---

  lemma OneInstant(e: Stamp<Order>)
    ensures Instants([e]) == [Stamp(e.at, ())]
  {
    ProjectionsAppend([], e);
    assert [] + [e] == [e];
  }

  /** After the handler: the clock reading and the two lock sections that record the order. */
  lemma BumpAndRecord(s: System, slot: nat, env: Env) returns (run: seq<Event>)
    requires InSlot(s, slot, Bumping) && s.now <= env.now
    ensures CanRun(s, run)
    ensures var f := s.flights[slot];
            && RunOf(s, run).guard == RecordOrder(s.guard, f.req.email, Some(f.req), env)
            && RunOf(s, run).now == env.now
            && Served(s, RunOf(s, run), slot, UserOf(f), OrderPlaced, [Stamp(env.now, OrderOf(Some(f.req)))])
  {
    hide Track, BumpSecond;
    var clock, bump, record := Event(ReadClock(slot), env), Event(Bump(slot), env), Event(Record(slot), env);
    var s1 := Step(s, clock);
    ClockStep(s, clock, slot);
    var s2 := Step(s1, bump);
    var s3 := Step(s2, record);
    EmptyRun(s3);
    Then(s2, record, []);
    Then(s1, bump, [record] + []);
    Then(s, clock, [bump] + ([record] + []));
    run := [clock] + ([bump] + ([record] + []));
    OneInstant(Stamp(env.now, OrderOf(Some(s.flights[slot].req))));
    assert s3.flights == s.flights[slot := Idle];
  }

  lemma HandlerStep(s: System, e: Event, slot: nat, succeeds: bool)
    requires e.action == Handle(slot, succeeds) && Enabled(s, e)
    ensures var f, next := s.flights[slot], Step(s, e);
            && next.guard == s.guard && next.now == e.env.now
            && if succeeds then Moved(s, next, slot, UserOf(f), f.(stage := Bumping))
               else Served(s, next, slot, UserOf(f), HandlerFailed, [])
  {
  }

  /** After the last check: the handler, and the record when it succeeded. */
  lemma HandleAndRecord(s: System, slot: nat, recording: Env, succeeds: bool) returns (run: seq<Event>)
    requires InSlot(s, slot, Checking) && s.flights[slot].done >= |s.flights[slot].chain| && s.now <= recording.now
    ensures CanRun(s, run)
    ensures var f, end := s.flights[slot], RunOf(s, run);
            && end.guard == Recorded(s.guard, Allowed, f.req, succeeds, recording) && end.now == recording.now
            && Served(s, end, slot, UserOf(f), ReplyTo(Allowed, succeeds), Placed(Allowed, f.req, succeeds, recording))
  {
    hide RecordOrder, Step;
    var handle, f := Event(Handle(slot, succeeds), recording), s.flights[slot];
    var m := Step(s, handle);
    HandlerStep(s, handle, slot, succeeds);
    EmptyRun(m);
    run := [];
    if succeeds {
      run := BumpAndRecord(m, slot, recording);
      ServedLater(s, m, RunOf(m, run), slot, UserOf(f), f.(stage := Bumping), OrderPlaced,
                  Placed(Allowed, f.req, true, recording));
    }
    Then(s, handle, run);
    run := [handle] + run;
  }

  /** Any request of an order tool, begun in a free slot and followed to its end without
      interruption, is one call of the middleware: the same check at one instant, the same
      record at another, the same answer. */
  lemma UninterruptedRequestIsOneCall(
    s: System, slot: nat, tool: string, email: string, args: ToolArgs, succeeds: bool, checking: Env, recording: Env)
    returns (run: seq<Event>)
    requires slot < |s.flights| && s.flights[slot].Idle? && s.now <= checking.now <= recording.now
    requires tool in ORDER_TOOLS && email != ""
    ensures CanRun(s, run)
    ensures var req, end := BuildRequest(email, tool, args), RunOf(s, run);
            var (g, r) := CheckOrder(s.guard, req, checking);
            && end.guard == Recorded(g, r, req, succeeds, recording) && end.now <= recording.now
            && end.flights == s.flights
            && Served(s, end, slot, Lower(email), ReplyTo(r, succeeds), Placed(r, req, succeeds, recording))
  {
    hide CheckOrder, RecordOrder;
    var req := BuildRequest(email, tool, args);
    run := BeginAndCheck(s, slot, tool, email, args, checking);
    assert s.flights[slot := Idle] == s.flights;
    if CheckOrder(s.guard, req, checking).1.Allowed? {
      var m, f := RunOf(s, run), Busy(req, Checking, s.guard.checks, |s.guard.checks|);
      var more := HandleAndRecord(m, slot, recording, succeeds);
      Concat(s, run, more);
      run := run + more;
      ServedLater(s, m, RunOf(s, run), slot, Lower(email), f, ReplyTo(Allowed, succeeds),
                  Placed(Allowed, req, succeeds, recording));
    }
  }
}
