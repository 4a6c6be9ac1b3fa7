/** Building interleavings in which requests stop in front of the daily value check: they have
    passed the order count, the minute rate and the duplicate check on one history, and the
    value check reads a later one. */
module Halfway {
  import opened Base
  import opened Calendar
  import opened Chain
  import opened Limits
  import opened Orders
  import opened PerSecond
  import opened Windows
  import opened History
  import opened GuardModel
  import opened Laws
  import opened Protocol
  import opened Coupling
  import opened Decision
  import opened Uninterrupted
  import opened Batch

  // --- The two halves of the chain ---

  /** How many checks come before the daily value check. */
  function Before(chain: seq<Check>): (n: nat)
    ensures n <= |chain|
    ensures forall i :: 0 <= i < n ==> chain[i].order < DAILY_VALUE.order
    ensures n < |chain| ==> chain[n].order >= DAILY_VALUE.order
  {
    if chain == [] || chain[0].order >= DAILY_VALUE.order then 0 else 1 + Before(chain[1..])
  }

  predicate LateRule(rule: Rule) {
    rule.DailyValueCap? || rule.OffHoursBlock? || rule.MarketHours? || rule.External?
  }

  lemma HalfOf(c: Check)
    requires Canonical(c)
    ensures c.order < DAILY_VALUE.order ==> !c.rule.DailyValueCap?
    ensures c.order >= DAILY_VALUE.order ==> LateRule(c.rule)
  {
  }

  lemma Halves(chain: seq<Check>)
    requires WellFormed(chain)
    ensures forall i :: 0 <= i < Before(chain) ==> !chain[i].rule.DailyValueCap?
    ensures forall i :: Before(chain) <= i < |chain| ==> LateRule(chain[i].rule)
  {
    hide Canonical, LateRule;
    var n := Before(chain);
    forall i | 0 <= i < |chain| ensures if i < n then !chain[i].rule.DailyValueCap? else LateRule(chain[i].rule) {
      assert i > n ==> chain[n].order <= chain[i].order;
      HalfOf(chain[i]);
    }
  }

  /** The policy without its daily value limit. */
  function Unlimited(policy: Limits, req: Request): Limits {
    policy.(maxDailyValue := Inr(Max(0, req.Value())))
  }

  /** Whether the value check, the time rules and the externals let the request through. */
  ghost predicate LatePermitted(l: UserLog, policy: Limits, req: Request, env: Env) {
    && (req.price.IsPositive() ==>
          Total(DailyValue, l.orders, ResetBoundary(env.now)) + req.Value() <= policy.maxDailyValue.amount)
    && (policy.allowOffHours || !OffHours(env.now))
    && MarketAllows(env.now, req.variety)
  }

  lemma EarlyRules(g: GuardState, l: UserLog, user: string, policy: Limits, req: Request, env: Env)
    requires GuardOk(g, l, user, policy, env.now) && Lower(req.email) == user && req.InRupees()
    requires req.clientOrderId == "" && !IsFrozen(g, user)
    requires Permitted(l, Unlimited(policy, req), false, req, env)
    ensures forall rule | OwnRule(rule) && !rule.DailyValueCap? :: Judge(g, rule, req, env).Allow?
  {
    hide GuardOk, Total, Since, Holds, Params, Instants, ResetBoundary, MarketAllows, OffHours, Judge, Streak, IsFrozen;
    CountingRules(g, l, user, policy, req, env);
    OtherRules(g, l, user, policy, req, env);
  }

  lemma FirstHalfPasses(g: GuardState, l: UserLog, user: string, policy: Limits, req: Request, env: Env)
    requires GuardOk(g, l, user, policy, env.now) && Lower(req.email) == user && req.InRupees()
    requires req.clientOrderId == "" && OneKeyCheck(g.checks) && !IsFrozen(g, user)
    requires Permitted(l, Unlimited(policy, req), false, req, env) && ExternalsAgree(g.checks, env)
    ensures Walk(g, g.checks[..Before(g.checks)], req, env).1.Allowed?
  {
    hide GuardOk, Permitted, Walk, Judge, IsFrozen, WellFormed, Before, OneKeyCheck, Unlimited;
    var first := g.checks[..Before(g.checks)];
    GovernedChain(g, l, user, policy, env.now);
    Halves(g.checks);
    EarlyRules(g, l, user, policy, req, env);
    ExternalsAnswer(g, req, env);
    forall i | 0 <= i < |first| ensures Judge(g, first[i].rule, req, env).Allow? {
      assert first[i] == g.checks[i];
    }
    FrontAsksOnce(g.checks, Before(g.checks));
    DecisionIsConjunction(g, first, req, env);
  }

  lemma FrontAsksOnce(chain: seq<Check>, n: nat)
    requires OneKeyCheck(chain) && n <= |chain|
    ensures OneKeyCheck(chain[..n])
  {
  }

  lemma GovernedChain(g: GuardState, l: UserLog, user: string, policy: Limits, now: Time)
    requires GuardOk(g, l, user, policy, now)
    ensures WellFormed(g.checks)
  {
  }

  lemma LateRules(g: GuardState, l: UserLog, user: string, policy: Limits, req: Request, env: Env)
    requires GuardOk(g, l, user, policy, env.now) && Lower(req.email) == user && req.InRupees()
    requires req.clientOrderId == "" && LatePermitted(l, policy, req, env)
    ensures forall rule | OwnRule(rule) && LateRule(rule) :: Judge(g, rule, req, env).Allow?
  {
    hide GuardOk, Total, Since, Holds, Params, Instants, ResetBoundary, MarketAllows, OffHours, Judge, Streak, IsFrozen;
    CountingRules(g, l, user, policy, req, env);
    OtherRules(g, l, user, policy, req, env);
  }

  lemma SecondHalfPasses(g: GuardState, l: UserLog, user: string, policy: Limits, req: Request, env: Env)
    requires GuardOk(g, l, user, policy, env.now) && Lower(req.email) == user && req.InRupees()
    requires req.clientOrderId == "" && LatePermitted(l, policy, req, env) && ExternalsAgree(g.checks, env)
    ensures Walk(g, g.checks[Before(g.checks)..], req, env).1.Allowed?
  {
    var n, second := Before(g.checks), g.checks[Before(g.checks)..];
    GovernedChain(g, l, user, policy, env.now);
    hide GuardOk, LatePermitted, Walk, Judge, WellFormed;
    Halves(g.checks);
    LateRules(g, l, user, policy, req, env);
    ExternalsAnswer(g, req, env);
    forall i | 0 <= i < |second| ensures Judge(g, second[i].rule, req, env).Allow? && !second[i].rule.ClientOrderId? {
      assert second[i] == g.checks[n + i];
    }
    DecisionIsConjunction(g, second, req, env);
  }

  // --- One request ---

  /** A request that has passed the first half and waits there. */
  function Held(user: string, args: ToolArgs, chain: seq<Check>): Flight {
    Busy(Req(user, args), Checking, chain, Before(chain))
  }

  /** A stretch of the walk that lets the request through. */
  lemma {:induction false} WalkPart(s: System, slot: nat, n: nat, env: Env) returns (run: seq<Event>)
    requires InSlot(s, slot, Checking) && s.flights[slot].done <= n <= |s.flights[slot].chain| && s.now <= env.now
    requires Walk(s.guard, s.flights[slot].chain[s.flights[slot].done..n], s.flights[slot].req, env).1.Allowed?
    ensures CanRun(s, run)
    ensures var f, end := s.flights[slot], RunOf(s, run);
            && end.guard == Walk(s.guard, f.chain[f.done..n], f.req, env).0 && end.now <= env.now
            && Moved(s, end, slot, UserOf(f), f.(done := n))
    decreases n - s.flights[slot].done
  {
    hide Effect, Judge, CountRejection, Breaker, BreakerTrips, RecordOrder, Step, Enabled;
    var f := s.flights[slot];
    var part := f.chain[f.done..n];
    if f.done == n {
      EmptyRun(s);
      run := [];
    } else {
      run := OneCheck(s, slot, env);
      var m := RunOf(s, run);
      assert part[1..] == f.chain[f.done + 1..n];
      var more := WalkPart(m, slot, n, env);
      Concat(s, run, more);
      run := run + more;
      MovedTwice(s, m, RunOf(s, run), slot, UserOf(f), f.(done := f.done + 1), f.(done := n));
    }
  }

  /** One request enters a free slot and passes the first half. */
  lemma HoldSlot(s: System, user: string, policy: Limits, args: ToolArgs, env: Env, slot: nat) returns (run: seq<Event>)
    requires Open(s, user, policy) && args.clientOrderId == "" && s.now <= env.now
    requires slot < |s.flights| && s.flights[slot].Idle?
    requires Permitted(LogOf(s, user), Unlimited(policy, Req(user, args)), false, Req(user, args), env)
    requires ExternalsAgree(s.guard.checks, env)
    ensures CanRun(s, run)
    ensures var end := RunOf(s, run);
            && Open(end, user, policy) && SameRules(s.guard, end.guard) && SameRecords(LogOf(s, user), LogOf(end, user))
            && end.flights == s.flights[slot := Held(user, args, s.guard.checks)] && end.now <= env.now
  {
    hide Sound, Permitted, ExternalsAgree, OneKeyCheck, GuardOk, BuildRequest, Walk, IsFrozen, CanRun, RunOf, Unlimited,
      Before;
    var req, chain := Req(user, args), s.guard.checks;
    run := Enter(s, slot, TOOL, user, args, env);
    var m := RunOf(s, run);
    SoundLater(s, user, policy, env);
    FirstHalfPasses(s.guard, LogOf(s, user), user, policy, req, env);
    assert chain[0..Before(chain)] == chain[..Before(chain)];
    var more := WalkPart(m, slot, Before(chain), env);
    Concat(s, run, more);
    run := run + more;
    MovedTwice(s, m, RunOf(s, run), slot, user, Busy(req, Checking, chain, 0), Held(user, args, chain));
    AllowedKeepsLimits(s.guard, chain[..Before(chain)], req, env);
    StillOpen(s, run, user, policy);
  }

  /** A held request passes the second half. */
  lemma ResumeSlot(s: System, user: string, policy: Limits, args: ToolArgs, env: Env, slot: nat)
    returns (run: seq<Event>)
    requires Open(s, user, policy) && args.clientOrderId == "" && s.now <= env.now
    requires slot < |s.flights| && s.flights[slot] == Held(user, args, s.guard.checks)
    requires LatePermitted(LogOf(s, user), policy, Req(user, args), env) && ExternalsAgree(s.guard.checks, env)
    ensures CanRun(s, run)
    ensures var end := RunOf(s, run);
            && Open(end, user, policy) && SameRules(s.guard, end.guard) && SameRecords(LogOf(s, user), LogOf(end, user))
            && end.flights == s.flights[slot := Waiting(user, args, s.guard.checks)] && end.now <= env.now
  {
    hide Sound, LatePermitted, ExternalsAgree, OneKeyCheck, GuardOk, BuildRequest, Walk, IsFrozen, CanRun, RunOf,
      Before;
    var req, chain := Req(user, args), s.guard.checks;
    SoundLater(s, user, policy, env);
    SecondHalfPasses(s.guard, LogOf(s, user), user, policy, req, env);
    assert chain[Before(chain)..|chain|] == chain[Before(chain)..];
    run := WalkPart(s, slot, |chain|, env);
    AllowedKeepsLimits(s.guard, chain[Before(chain)..], req, env);
    StillOpen(s, run, user, policy);
  }

  // --- All of them ---

  lemma {:induction false} HoldAll(
    s: System, user: string, policy: Limits, args: ToolArgs, env: Env, n: nat, m: nat, rest: seq<Flight>)
    returns (run: seq<Event>)
    requires Open(s, user, policy) && args.clientOrderId == "" && s.now <= env.now
    requires Lined(s.flights, n, m, Held(user, args, s.guard.checks), Idle, rest)
    requires Permitted(LogOf(s, user), Unlimited(policy, Req(user, args)), false, Req(user, args), env)
    requires ExternalsAgree(s.guard.checks, env)
    ensures CanRun(s, run)
    ensures var end := RunOf(s, run);
            && Open(end, user, policy) && SameRules(s.guard, end.guard) && SameRecords(LogOf(s, user), LogOf(end, user))
            && Lined(end.flights, m, m, Held(user, args, s.guard.checks), Idle, rest) && end.now <= env.now
    decreases m - n
  {
    hide Open, Permitted, ExternalsAgree, BuildRequest, CanRun, RunOf, Before, Unlimited;
    if n == m {
      EmptyRun(s);
      run := [];
    } else {
      run := HoldSlot(s, user, policy, args, env, n);
      var next := RunOf(s, run);
      PermittedReads(LogOf(s, user), LogOf(next, user), Unlimited(policy, Req(user, args)), Req(user, args), env);
      var more := HoldAll(next, user, policy, args, env, n + 1, m, rest);
      Concat(s, run, more);
      run := run + more;
    }
  }

  lemma {:induction false} ResumeAll(
    s: System, user: string, policy: Limits, args: ToolArgs, env: Env, n: nat, m: nat, rest: seq<Flight>)
    returns (run: seq<Event>)
    requires Open(s, user, policy) && args.clientOrderId == "" && s.now <= env.now
    requires Lined(s.flights, n, m, Waiting(user, args, s.guard.checks), Held(user, args, s.guard.checks), rest)
    requires LatePermitted(LogOf(s, user), policy, Req(user, args), env) && ExternalsAgree(s.guard.checks, env)
    ensures CanRun(s, run)
    ensures var end := RunOf(s, run);
            && Open(end, user, policy) && SameRules(s.guard, end.guard) && SameRecords(LogOf(s, user), LogOf(end, user))
            && Lined(end.flights, m, m, Waiting(user, args, s.guard.checks), Idle, rest) && end.now <= env.now
    decreases m - n
  {
    hide Open, ExternalsAgree, BuildRequest, CanRun, RunOf, Before, Total, ResetBoundary, OffHours, MarketAllows;
    if n == m {
      EmptyRun(s);
      run := [];
    } else {
      run := ResumeSlot(s, user, policy, args, env, n);
      var next := RunOf(s, run);
      var more := ResumeAll(next, user, policy, args, env, n + 1, m, rest);
      Concat(s, run, more);
      run := run + more;
    }
  }
}
