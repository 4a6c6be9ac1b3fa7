/** The circuit breaker over whole sequential runs: it trips exactly on three counted
    rejections in five minutes, and a frozen user collects no more of them. */
module AutoFreeze {
  import opened Base
  import opened Chain
  import opened Limits
  import opened Orders
  import opened Windows
  import opened History
  import opened GuardModel
  import opened Tracking
  import opened Runs

  /** No check that feeds the breaker runs before the per-user kill switch. */
  predicate KillSwitchFirst(chain: seq<Check>) {
    chain != [] && !chain[0].counted && (chain[0].rule == KillSwitchRule || KillSwitchFirst(chain[1..]))
  }

  /** The built-in chain has that shape, with any external checks registered from 100 on. */
  lemma BuiltinsKillSwitchFirst(rest: seq<Check>)
    ensures KillSwitchFirst([KILL_SWITCH] + rest) && KillSwitchFirst(BUILTINS)
  {
  }

  // --- Which rejections count ---

  predicate AllCounted(chain: seq<Check>) {
    forall i :: 0 <= i < |chain| ==> chain[i].counted
  }

  lemma {:induction false} WalkOfCounted(g: GuardState, chain: seq<Check>, req: Request, env: Env)
    requires AllCounted(chain)
    ensures WalkCounts(g, chain, req, env) <==> Walk(g, chain, req, env).1.Blocked?
    decreases |chain|
  {
    hide Judge, Effect, CountRejection, Breaker, BreakerTrips;
    if chain != [] {
      WalkOfCounted(Effect(g, chain[0].rule, req, env), chain[1..], req, env);
    }
  }

  /** The first four checks leave the gate as it is. */
  lemma WalkPast(g: GuardState, c: Check, rest: seq<Check>, req: Request, env: Env)
    requires c.rule.KillSwitchRule? || c.rule.ConfirmationRequired? || c.rule.OrderValue? || c.rule.External?
    ensures Judge(g, c.rule, req, env).Allow? ==>
              && Walk(g, [c] + rest, req, env) == Walk(g, rest, req, env)
              && (WalkCounts(g, [c] + rest, req, env) <==> WalkCounts(g, rest, req, env))
    ensures Judge(g, c.rule, req, env).Reject? ==>
              && Walk(g, [c] + rest, req, env).1.Blocked?
              && (WalkCounts(g, [c] + rest, req, env) <==> c.counted)
              && (!c.counted ==>
                    Walk(g, [c] + rest, req, env) == (g, Blocked(Judge(g, c.rule, req, env).reason, false)))
  {
    hide Judge, CountRejection, Breaker, BreakerTrips;
    assert ([c] + rest)[1..] == rest;
  }

  lemma BuiltinsByFlag()
    ensures BUILTINS == [BUILTINS[0]] + ([BUILTINS[1]] + ([BUILTINS[2]] + ([BUILTINS[3]] + BUILTINS[4..])))
    ensures BUILTINS[0].rule == KillSwitchRule && BUILTINS[1].rule == ConfirmationRequired
    ensures BUILTINS[2].rule == OrderValue && BUILTINS[3].rule == External("margin_check")
    ensures !BUILTINS[0].counted && !BUILTINS[1].counted && BUILTINS[2].counted && !BUILTINS[3].counted
    ensures AllCounted(BUILTINS[4..])
  {
  }

  /** A refusal of the built-in chain feeds the breaker exactly when neither the user's freeze,
      nor the missing confirmation, nor the margin check behind the order value is what
      refuses. */
  lemma BuiltinsCountIff(g: GuardState, req: Request, env: Env)
    ensures WalkCounts(g, BUILTINS, req, env) <==>
              && Walk(g, BUILTINS, req, env).1.Blocked?
              && Judge(g, KillSwitchRule, req, env).Allow? && Judge(g, ConfirmationRequired, req, env).Allow?
              && (Judge(g, OrderValue, req, env).Reject? || env.external("margin_check") == Answer(Allow))
  {
    BuiltinsByFlag();
    var all, rest := BUILTINS, BUILTINS[4..];
    var kill, confirmation, value, margin := all[0], all[1], all[2], all[3];
    MarginAnswers(g, req, env);
    hide Judge, Walk, WalkCounts, BUILTINS;
    WalkPast(g, kill, [confirmation] + ([value] + ([margin] + rest)), req, env);
    WalkPast(g, confirmation, [value] + ([margin] + rest), req, env);
    WalkPast(g, value, [margin] + rest, req, env);
    WalkPast(g, margin, rest, req, env);
    WalkOfCounted(g, rest, req, env);
  }

  lemma MarginAnswers(g: GuardState, req: Request, env: Env)
    ensures Judge(g, External("margin_check"), req, env).Allow? <==> env.external("margin_check") == Answer(Allow)
  {
  }

  // --- An order that is not confirmed ---

  /** The chain asks for the freeze and then for the confirmation, as the built-in one does and
      keeps doing when external checks are registered behind the confirmation. */
  predicate ConfirmationSecond(chain: seq<Check>) {
    |chain| >= 2 && chain[0].rule == KillSwitchRule && chain[1].rule == ConfirmationRequired
  }

  /** The user's limits require a confirmation that the request does not carry. */
  predicate Unconfirmed(limits: map<string, Limits>, req: Request) {
    Effective(limits, req.email).requireConfirmAllOrders && !req.confirmed
  }

  lemma UnconfirmedIsRefused(g: GuardState, req: Request, env: Env)
    requires WellFormed(g.checks) && ConfirmationSecond(g.checks) && Unconfirmed(g.limits, req)
    ensures var (g', r) := CheckOrder(g, req, env);
            && g' == g && r.Blocked? && !r.autoFrozen
            && r.reason == (if g.killSwitch.frozen then GlobalFreeze
                            else if IsFrozen(g, Lower(req.email)) then TradingFrozen else ConfirmationMissing)
    ensures !WalkCounts(g, g.checks, req, env)
  {
    hide Judge, Walk, WalkCounts, WellFormed, IsFrozen, Unconfirmed;
    var kill, confirmation, rest := g.checks[0], g.checks[1], g.checks[2..];
    FirstTwo(g.checks);
    UnconfirmedAnswers(g, req, env);
    WalkPast(g, kill, [confirmation] + rest, req, env);
    WalkPast(g, confirmation, rest, req, env);
  }

  lemma FirstTwo(chain: seq<Check>)
    requires WellFormed(chain) && ConfirmationSecond(chain)
    ensures !chain[0].counted && !chain[1].counted && chain == [chain[0]] + ([chain[1]] + chain[2..])
  {
    assert Canonical(chain[0]) && Canonical(chain[1]);
  }

  lemma UnconfirmedAnswers(g: GuardState, req: Request, env: Env)
    requires Unconfirmed(g.limits, req)
    ensures Judge(g, KillSwitchRule, req, env) == if IsFrozen(g, Lower(req.email)) then Reject(TradingFrozen) else Allow
    ensures Judge(g, ConfirmationRequired, req, env) == Reject(ConfirmationMissing)
  {
  }

  /** External checks that are registered behind the confirmation stay behind it. */
  lemma {:induction false} ExtraChecksStayBehind(extra: seq<Check>)
    requires forall i :: 0 <= i < |extra| ==> extra[i].rule.External? && extra[i].order >= 200
    ensures ConfirmationSecond(Registered(BUILTINS + extra)) && Registered(BUILTINS + extra)[1].order == 200
  {
    if extra == [] {
      RegistrationKeepsChainWellFormed([]);
      assert BUILTINS + extra == BUILTINS;
      BuiltinPlaces();
    } else {
      var n := |extra| - 1;
      var regs := BUILTINS + extra;
      assert regs[..|regs| - 1] == BUILTINS + extra[..n];
      ExtraChecksStayBehind(extra[..n]);
    }
  }

  /** Whatever the chain, as long as it asks for the confirmation. */
  lemma {:induction false} WalkAsksForConfirmation(g: GuardState, chain: seq<Check>, i: nat, req: Request, env: Env)
    requires i < |chain| && chain[i].rule == ConfirmationRequired && Unconfirmed(g.limits, req)
    ensures Walk(g, chain, req, env).1.Blocked?
    decreases |chain|
  {
    hide Effective;
    if i > 0 && Judge(g, chain[0].rule, req, env).Allow? {
      WalkAsksForConfirmation(Effect(g, chain[0].rule, req, env), chain[1..], i - 1, req, env);
    }
  }

  lemma UnconfirmedIsBlocked(g: GuardState, req: Request, env: Env)
    requires WellFormed(g.checks) && Unconfirmed(g.limits, req)
    ensures CheckOrder(g, req, env).1.Blocked?
  {
    hide Walk, Unconfirmed;
    var i :| 0 <= i < |g.checks| && g.checks[i] == CONFIRMATION;
    WalkAsksForConfirmation(g, g.checks, i, req, env);
  }

  lemma {:induction false} RunSplits(start: GuardState, a: seq<Event>, b: seq<Event>, user: string)
    ensures Run(start, a + b) == Run(Run(start, a), b)
    ensures RejectionsOf(start, a + b, user) == RejectionsOf(start, a, user) + RejectionsOf(Run(start, a), b, user)
  {
    hide Next, Counts;
    if b == [] {
      assert a + b == a;
    } else {
      var n := |b| - 1;
      assert (a + b)[..|a + b| - 1] == a + b[..n];
      RunSplits(start, a, b[..n], user);
    }
  }

  /** An order without the confirmation that the user's limits at start-up require leaves no
      trace: take it out of any run, and every later state, every user's counted rejections
      and every freeze are the same. */
  lemma UnconfirmedLeavesNoTrace(
    start: GuardState, before: seq<Event>, e: Event, after: seq<Event>, user: string)
    requires WellFormed(start.checks) && ConfirmationSecond(start.checks)
    requires e.op.Submit? && Unconfirmed(start.limits, e.op.req)
    ensures Run(start, before + [e] + after) == Run(start, before + after)
    ensures RejectionsOf(start, before + [e] + after, user) == RejectionsOf(start, before + after, user)
  {
    var g := Run(start, before);
    ChecksStay(start, before);
    RunKeepsPolicies(start, before);
    assert Policy(Effective(g.limits, e.op.req.email)) == Policy(Effective(start.limits, e.op.req.email));
    UnconfirmedIsRefused(g, e.op.req, e.env);
    RunSplits(start, before + [e], after, user);
    RunSplits(start, before, [e], user);
    RunSplits(start, before, after, user);
    hide Run, RejectionsOf, WellFormed, Effective;
    OneEvent(g, e, user);
  }

  lemma OneEvent(g: GuardState, e: Event, user: string)
    ensures Run(g, [e]) == Next(g, e)
    ensures RejectionsOf(g, [e], user) == if Counts(g, user, e) then [Stamp(e.env.now, ())] else []
  {
    assert [e][..0] == [];
    assert Run(g, []) == g;
  }

  // --- The window ---

  /** The rejections of the closed five minutes that end now. */
  function InWindow(rejections: seq<Stamp<()>>, now: Time): nat {
    |Since(rejections, now - 300_000_000_000)|
  }

  predicate BreakerOn(g: GuardState, user: string) {
    Effective(g.limits, user).autoFreezeOnLimitHit
  }

  // --- One call ---

  lemma {:induction false} WalkTrips(
    g: GuardState, user: string, log: seq<Stamp<Order>>, rejections: seq<Stamp<()>>, windowSecs: int,
    earlier: Time, chain: seq<Check>, req: Request, env: Env)
    requires Follows(g, user, log, rejections, windowSecs, earlier) && earlier <= env.now
    requires Lower(req.email) == user && BreakerOn(g, user) && WalkCounts(g, chain, req, env)
    ensures IsFrozen(Walk(g, chain, req, env).0, user) <==>
              IsFrozen(g, user) || InWindow(rejections + [Stamp(env.now, ())], env.now) >= 3
    decreases |chain|
  {
    hide Follows;
    var g' := Effect(g, chain[0].rule, req, env);
    EffectFollows(g, user, log, rejections, windowSecs, earlier, chain[0].rule, req, env);
    if Judge(g, chain[0].rule, req, env).Allow? {
      WalkTrips(g', user, log, rejections, windowSecs, env.now, chain[1..], req, env);
    } else {
      CountFollows(g', user, log, rejections, windowSecs, env.now, user, env.now);
      BreakerFollows(CountRejection(g', user, env.now), user, log, rejections + [Stamp(env.now, ())],
                     windowSecs, env.now, user, env);
    }
  }

  /** A check that is not counted, or is about somebody else, freezes nobody new. */
  lemma {:induction false} WalkLeavesFreeze(g: GuardState, user: string, chain: seq<Check>, req: Request, env: Env)
    ensures IsFrozen(g, user) ==> IsFrozen(Walk(g, chain, req, env).0, user)
    ensures Lower(req.email) != user || !WalkCounts(g, chain, req, env) ==>
              (IsFrozen(Walk(g, chain, req, env).0, user) <==> IsFrozen(g, user))
    decreases |chain|
  {
    hide Effective, Encode;
    if chain != [] && Judge(g, chain[0].rule, req, env).Allow? {
      WalkLeavesFreeze(Effect(g, chain[0].rule, req, env), user, chain[1..], req, env);
    }
  }

  /** Behind the kill switch a frozen user is never counted. */
  lemma {:induction false} FrozenIsNotCounted(g: GuardState, chain: seq<Check>, req: Request, env: Env)
    requires KillSwitchFirst(chain) && IsFrozen(g, Lower(req.email))
    ensures !WalkCounts(g, chain, req, env)
    decreases |chain|
  {
    if chain[0].rule != KillSwitchRule {
      FrozenIsNotCounted(Effect(g, chain[0].rule, req, env), chain[1..], req, env);
    }
  }

  // --- Whole runs ---

  lemma {:induction false} ChecksStay(start: GuardState, run: seq<Event>)
    ensures Run(start, run).checks == start.checks
  {
    if run != [] {
      var g := Run(start, run[..|run| - 1]);
      ChecksStay(start, run[..|run| - 1]);
      match run[|run| - 1].op
      case Submit(req) => WalkKeepsChecks(g, g.checks, req, run[|run| - 1].env);
      case _ =>
    }
  }

  lemma {:induction false} WalkKeepsChecks(g: GuardState, chain: seq<Check>, req: Request, env: Env)
    ensures Walk(g, chain, req, env).0.checks == g.checks
    decreases |chain|
  {
    if chain != [] && Judge(g, chain[0].rule, req, env).Allow? {
      WalkKeepsChecks(Effect(g, chain[0].rule, req, env), chain[1..], req, env);
    }
  }

  lemma BreakerStaysOn(start: GuardState, run: seq<Event>, user: string)
    ensures BreakerOn(Run(start, run), user) == BreakerOn(start, user)
  {
    RunKeepsPolicies(start, run);
    var g := Run(start, run);
    assert Policy(Effective(g.limits, user)).autoFreezeOnLimitHit ==
      Policy(Effective(start.limits, user)).autoFreezeOnLimitHit;
  }

  /** Whatever the run so far, freezes and lifts included: a counted rejection leaves the user
      frozen exactly when at least three of all counted rejections ever recorded lie in the
      closed five minutes ending then. */
  lemma CountedRejectionFreezesIffThree(start: GuardState, run: seq<Event>, user: string, e: Event)
    requires AtStart(start) && KillSwitchFirst(start.checks) && Timely(run, e.env.now)
    requires Lower(user) == user && BreakerOn(start, user) && Counts(Run(start, run), user, e)
    ensures var all := RejectionsOf(start, run, user) + [Stamp(e.env.now, ())];
            IsFrozen(Next(Run(start, run), e), user) <==> InWindow(all, e.env.now) >= 3
  {
    var g := Run(start, run);
    RunFollows(start, run, user, e.env.now);
    ChecksStay(start, run);
    BreakerStaysOn(start, run, user);
    if IsFrozen(g, user) {
      FrozenIsNotCounted(g, g.checks, e.op.req, e.env);
    }
    WalkTrips(g, user, OrdersOf(run, user), RejectionsOf(start, run, user),
              Effective(start.limits, user).duplicateWindowSecs, e.env.now, g.checks, e.op.req, e.env);
  }

  ghost predicate NeverUnfrozen(run: seq<Event>, user: string) {
    forall i :: 0 <= i < |run| && run[i].op.UnfreezeUser? ==> Lower(run[i].op.email) != user
  }

  /** Without a lift a freeze stays. */
  lemma FreezeStays(g: GuardState, user: string, e: Event)
    requires IsFrozen(g, user) && (e.op.UnfreezeUser? ==> Lower(e.op.email) != user)
    ensures IsFrozen(Next(g, e), user)
  {
    if e.op.Submit? {
      WalkLeavesFreeze(g, user, g.checks, e.op.req, e.env);
    }
  }

  /** Any three counted rejections in a row span more than five minutes. */
  ghost predicate Sparse(rejections: seq<Stamp<()>>) {
    forall i :: 0 <= i && i + 2 < |rejections| ==> rejections[i].at < rejections[i + 2].at - 300_000_000_000
  }

  lemma SparseExtends(rejections: seq<Stamp<()>>, now: Time)
    requires Sparse(rejections) && Sorted(rejections) && Until(rejections, now)
    requires InWindow(rejections + [Stamp(now, ())], now) < 3
    ensures Sparse(rejections + [Stamp(now, ())])
  {
    var all, n := rejections + [Stamp(now, ())], |rejections|;
    if n >= 2 && all[n - 2].at >= now - 300_000_000_000 {
      var last := all[n - 2..];
      assert all == all[..n - 2] + last;
      SinceAppend(all[..n - 2], last, now - 300_000_000_000);
      assert last == [all[n - 2], all[n - 1], all[n]];
      SinceAllFresh(last, now - 300_000_000_000);
    }
  }

  /** In a run that never lifts the user's freeze, a user who is not frozen has never had
      three counted rejections within five minutes. */
  lemma {:induction false} UnfrozenMeansSparse(start: GuardState, run: seq<Event>, user: string, now: Time)
    requires AtStart(start) && KillSwitchFirst(start.checks) && Timely(run, now) && NeverUnfrozen(run, user)
    requires Lower(user) == user && BreakerOn(start, user)
    ensures !IsFrozen(Run(start, run), user) ==> Sparse(RejectionsOf(start, run, user))
    decreases |run|
  {
    if run != [] && !IsFrozen(Run(start, run), user) {
      var front, e := run[..|run| - 1], run[|run| - 1];
      TimelyFront(run, now);
      UnfrozenMeansSparse(start, front, user, e.env.now);
      if IsFrozen(Run(start, front), user) {
        FreezeStays(Run(start, front), user, e);
      }
      if Counts(Run(start, front), user, e) {
        CountedRejectionFreezesIffThree(start, front, user, e);
        RejectionsOrdered(start, front, user, e.env.now);
        SparseExtends(RejectionsOf(start, front, user), e.env.now);
      }
    }
  }

  lemma {:induction false} RejectionsOrdered(start: GuardState, run: seq<Event>, user: string, now: Time)
    requires Timely(run, now)
    ensures Sorted(RejectionsOf(start, run, user)) && Until(RejectionsOf(start, run, user), now)
    decreases |run|
  {
    if run != [] {
      hide Counts, Next;
      TimelyFront(run, now);
      RejectionsOrdered(start, run[..|run| - 1], user, run[|run| - 1].env.now);
    }
  }

  /** Once the user is frozen, and until the freeze is lifted, nothing more is counted. */
  lemma {:induction false} FrozenLogStops(start: GuardState, run: seq<Event>, more: seq<Event>, user: string)
    requires KillSwitchFirst(start.checks) && NeverUnfrozen(more, user) && IsFrozen(Run(start, run), user)
    ensures IsFrozen(Run(start, run + more), user)
    ensures RejectionsOf(start, run + more, user) == RejectionsOf(start, run, user)
    decreases |more|
  {
    if more == [] {
      assert run + more == run;
    } else {
      var front, e := more[..|more| - 1], more[|more| - 1];
      assert (run + more)[..|run + more| - 1] == run + front && (run + more)[|run + more| - 1] == e;
      FrozenLogStops(start, run, front, user);
      var g := Run(start, run + front);
      ChecksStay(start, run + front);
      FreezeStays(g, user, e);
      if e.op.Submit? && Lower(e.op.req.email) == user {
        FrozenIsNotCounted(g, g.checks, e.op.req, e.env);
      }
    }
  }
}
