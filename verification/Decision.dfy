/** What an allow means. An order is allowed exactly when none of the rules objects, each rule
    stated in terms of the user's full history instead of the gate's bookkeeping. */
module Decision {
  import opened Base
  import opened Calendar
  import opened Chain
  import opened Dedup
  import opened Limits
  import opened Orders
  import opened PerSecond
  import opened Trackers
  import opened Windows
  import opened History
  import opened GuardModel
  import opened Tracking
  import opened Laws
  import opened Protocol
  import opened Coupling
  import opened Keys
  import opened Bounds

  /** No external check of the chain objects. */
  ghost predicate ExternalsAgree(chain: seq<Check>, env: Env) {
    forall i :: 0 <= i < |chain| && chain[i].rule.External? ==> env.external(chain[i].rule.name) == Answer(Allow)
  }

  /** The rules of the gate, read against everything the user ever did. */
  ghost predicate Permitted(l: UserLog, policy: Limits, frozen: bool, req: Request, env: Env) {
    var now := env.now;
    && !frozen
    && (policy.requireConfirmAllOrders ==> req.confirmed)
    && (req.price.IsPositive() ==> req.Value() <= policy.maxSingleOrder.amount)
    && Total(DailyCount, l.orders, ResetBoundary(now)) < policy.maxOrdersPerDay
    && Streak(l.bumps, Seconds(now)) < MAX_ORDERS_PER_SECOND
    && |Since(Instants(l.orders), now - RATE_WINDOW)| < policy.maxOrdersPerMinute
    && (req.clientOrderId == "" || !Taken(l.keys, req.clientOrderId, now))
    && (policy.duplicateWindowSecs <= 0
       || !Holds(Since(Params(l.orders), now - Span(policy.duplicateWindowSecs)), req.sig))
    && (req.price.IsPositive() ==>
          Total(DailyValue, l.orders, ResetBoundary(now)) + req.Value() <= policy.maxDailyValue.amount)
    && (policy.allowOffHours || !OffHours(now))
    && MarketAllows(now, req.variety)
  }

  /** The eleven rules of the gate itself. */
  predicate OwnRule(rule: Rule) {
    !rule.External?
  }

  ghost predicate OwnRulesPass(g: GuardState, req: Request, env: Env) {
    forall rule | OwnRule(rule) :: Judge(g, rule, req, env).Allow?
  }

  lemma OwnRuleRuns(chain: seq<Check>, rule: Rule)
    requires WellFormed(chain) && OwnRule(rule)
    ensures exists i :: 0 <= i < |chain| && chain[i].rule == rule
  {
    var c :| c in chain && c.rule == rule;
  }

  /** Walking a well-formed chain asks every rule of the gate and every external check. */
  lemma PassingIsAgreement(g: GuardState, chain: seq<Check>, req: Request, env: Env)
    requires WellFormed(chain)
    ensures EachPasses(g, chain, req, env) <==> OwnRulesPass(g, req, env) && ExternalsAgree(chain, env)
  {
    hide WellFormed;
    ExternalsAnswer(g, req, env);
    hide Judge;
    if EachPasses(g, chain, req, env) {
      forall rule | OwnRule(rule) ensures Judge(g, rule, req, env).Allow? {
        OwnRuleRuns(chain, rule);
      }
    }
  }

  lemma ExternalsAnswer(g: GuardState, req: Request, env: Env)
    ensures forall rule: Rule :: rule.External? ==>
              (Judge(g, rule, req, env).Allow? <==> env.external(rule.name) == Answer(Allow))
  {
  }

  // --- Rule by rule ---

  lemma CountingRules(g: GuardState, l: UserLog, user: string, policy: Limits, req: Request, env: Env)
    requires GuardOk(g, l, user, policy, env.now) && Lower(req.email) == user && req.InRupees()
    ensures Judge(g, DailyOrderCount, req, env).Allow? <==>
              Total(DailyCount, l.orders, ResetBoundary(env.now)) < policy.maxOrdersPerDay
    ensures Judge(g, RateLimit, req, env).Allow? <==>
              |Since(Instants(l.orders), env.now - RATE_WINDOW)| < policy.maxOrdersPerMinute
    ensures Judge(g, DuplicateOrder, req, env).Allow? <==>
              policy.duplicateWindowSecs <= 0 ||
              !Holds(Since(Params(l.orders), env.now - Span(policy.duplicateWindowSecs)), req.sig)
    ensures Judge(g, DailyValueCap, req, env).Allow? <==>
              (req.price.IsPositive() ==>
                 Total(DailyValue, l.orders, ResetBoundary(env.now)) + req.Value() <= policy.maxDailyValue.amount)
  {
    hide Follows, Judge, Total, Since, Holds, BucketOk, WellFormed, Params, Instants, ResetBoundary;
    var secs := policy.duplicateWindowSecs;
    assert Policy(Effective(g.limits, user)) == policy;
    ChecksAnswerFromHistory(g, user, l.orders, l.rejections, secs, env.now, DailyCount, req, env);
    ChecksAnswerFromHistory(g, user, l.orders, l.rejections, secs, env.now, MinuteRate, req, env);
    ChecksAnswerFromHistory(g, user, l.orders, l.rejections, secs, env.now, SameOrder(req.sig), req, env);
    ChecksAnswerFromHistory(g, user, l.orders, l.rejections, secs, env.now, DailyValue, req, env);
    RateIsTotal(l.orders, env.now - RATE_WINDOW);
    DuplicateIsTotal(l.orders, req.sig, env.now - Span(secs));
  }

  lemma OtherRules(g: GuardState, l: UserLog, user: string, policy: Limits, req: Request, env: Env)
    requires GuardOk(g, l, user, policy, env.now) && Lower(req.email) == user && req.InRupees()
    requires req.clientOrderId != "" ==>
               KeysOk(g.entries, l.keys, user, env.now) && Earned(g.entries, l.keys, user, env.now)
    ensures Judge(g, KillSwitchRule, req, env).Allow? <==> !IsFrozen(g, user)
    ensures Judge(g, ConfirmationRequired, req, env).Allow? <==> (policy.requireConfirmAllOrders ==> req.confirmed)
    ensures Judge(g, OrderValue, req, env).Allow? <==>
              (req.price.IsPositive() ==> req.Value() <= policy.maxSingleOrder.amount)
    ensures Judge(g, PerSecondRate, req, env).Allow? <==> Streak(l.bumps, Seconds(env.now)) < MAX_ORDERS_PER_SECOND
    ensures Judge(g, ClientOrderId, req, env).Allow? <==>
              req.clientOrderId == "" || !Taken(l.keys, req.clientOrderId, env.now)
    ensures Judge(g, OffHoursBlock, req, env).Allow? <==> policy.allowOffHours || !OffHours(env.now)
    ensures Judge(g, MarketHours, req, env).Allow? <==> MarketAllows(env.now, req.variety)
  {
    hide Follows, BucketOk, WellFormed, KeysOk, Earned, Taken, Seen, HashInput, Streak, MarketAllows, OffHours;
    assert Policy(Effective(g.limits, req.email)) == policy;
    CountIsStreak(Get(g.perUser, user), l.bumps, env.now);
    if req.clientOrderId != "" {
      LiveEntriesAreAcceptances(g.entries, l.keys, user, req.clientOrderId, env.now);
    }
  }

  /** In a state whose bookkeeping is sound, an order is allowed exactly when trading is not
      frozen for everybody or for the user, every rule read against the user's full history
      permits it, and no external check objects. */
  lemma AllowedIffPermitted(g: GuardState, l: UserLog, user: string, policy: Limits, req: Request, env: Env)
    requires GuardOk(g, l, user, policy, env.now) && Lower(req.email) == user && req.InRupees()
    requires req.clientOrderId != "" ==>
               KeysOk(g.entries, l.keys, user, env.now) && Earned(g.entries, l.keys, user, env.now)
    requires OneKeyCheck(g.checks)
    ensures CheckOrder(g, req, env).1.Allowed? <==>
              && Permitted(l, policy, g.killSwitch.frozen || IsFrozen(g, user), req, env)
              && ExternalsAgree(g.checks, env)
  {
    hide Follows, BucketOk, KeysOk, Earned, Taken, Judge, IsFrozen, WellFormed, EachPasses, ExternalsAgree, OneKeyCheck,
      Total, Since, Holds, Params, Instants, ResetBoundary, MarketAllows, OffHours, Walk;
    DecisionIsConjunction(g, g.checks, req, env);
    PassingIsAgreement(g, g.checks, req, env);
    CountingRules(g, l, user, policy, req, env);
    OtherRules(g, l, user, policy, req, env);
  }

  // --- In every reachable state ---

  /** The chain of the built-ins and any external checks asks for the key once. */
  lemma RegisteredAsksOnce(extra: seq<Check>)
    requires forall c :: c in extra ==> c.rule.External?
    ensures OneKeyCheck(Registered(BUILTINS + extra))
  {
    hide Registered;
    var chain := Registered(BUILTINS + extra);
    RegistrationKeepsChainWellFormed(extra);
    RegisteredIsSorted(BUILTINS + extra);
    OneKeyAmong(extra);
    forall i, j | 0 <= i < j < |chain| ensures !(chain[i].rule.ClientOrderId? && chain[j].rule.ClientOrderId?) {
      if chain[i].rule.ClientOrderId? && chain[j].rule.ClientOrderId? {
        assert Canonical(chain[i]) && Canonical(chain[j]);
        TwoAreTwo(chain, i, j, CLIENT_ORDER_ID);
        assert false;
      }
    }
  }

  lemma OneKeyAmong(extra: seq<Check>)
    requires forall c :: c in extra ==> c.rule.External?
    ensures multiset(BUILTINS + extra)[CLIENT_ORDER_ID] == 1
  {
    assert CLIENT_ORDER_ID !in extra;
    NinthIsTheKey();
    OneIsOne(BUILTINS, 9, CLIENT_ORDER_ID);
  }

  lemma NinthIsTheKey()
    ensures |BUILTINS| > 9 && BUILTINS[9] == CLIENT_ORDER_ID
    ensures forall i :: 0 <= i < |BUILTINS| && i != 9 ==> BUILTINS[i] != CLIENT_ORDER_ID
  {
  }

  lemma OneIsOne(chain: seq<Check>, p: nat, c: Check)
    requires p < |chain| && chain[p] == c && forall i :: 0 <= i < |chain| && i != p ==> chain[i] != c
    ensures multiset(chain)[c] == 1
  {
    assert chain == chain[..p] + [c] + chain[p + 1..];
    assert c !in chain[..p] && c !in chain[p + 1..];
  }

  lemma TwoAreTwo(chain: seq<Check>, i: nat, j: nat, c: Check)
    requires i < j < |chain| && chain[i] == c == chain[j]
    ensures multiset(chain)[c] >= 2
  {
    assert chain == chain[..i] + [c] + chain[i + 1..j] + [c] + chain[j + 1..];
  }

  lemma {:induction false} RunKeepsSound(s: System, run: seq<Event>, user: string, policy: Limits)
    requires Sound(s, user, policy) && CanRun(s, run)
    ensures Sound(RunOf(s, run), user, policy) && RunOf(s, run).guard.checks == s.guard.checks
    decreases |run|
  {
    hide Sound, Step, Enabled;
    if run != [] {
      StepKeepsSound(s, run[0], user, policy);
      StepKeepsChain(s, run[0]);
      RunKeepsSound(Step(s, run[0]), run[1..], user, policy);
    }
  }

  lemma RequestKeepsChain(g: GuardState, f: Flight, a: Action, env: Env)
    requires OfRequest(a) && f.Busy? && Ready(f, a)
    ensures GuardAfter(g, f, a, env).checks == g.checks
  {
    hide Effect, Breaker, AddOrder;
  }

  lemma StepKeepsChain(s: System, e: Event)
    requires Enabled(s, e)
    ensures Step(s, e).guard.checks == s.guard.checks
  {
    hide GuardAfter, FlightAfter, LogAfter, Ready, Encode, ResetDay;
    if OfRequest(e.action) {
      RequestKeepsChain(s.guard, s.flights[e.action.slot], e.action, e.env);
    }
  }

  lemma SoundGuard(s: System, user: string, policy: Limits)
    requires Sound(s, user, policy)
    ensures GuardOk(s.guard, LogOf(s, user), user, policy, s.now)
  {
  }

  lemma ReachableBookkeeping(s: System, run: seq<Event>, user: string, now: Time)
    requires Initial(s) && CanRun(s, run) && Lower(user) == user && RunOf(s, run).now <= now
    ensures GuardOk(RunOf(s, run).guard, LogOf(RunOf(s, run), user), user, PolicyOf(s, user), now)
    ensures RunOf(s, run).guard.checks == s.guard.checks
  {
    hide Initial, CanRun, RunOf, Sound, PolicyOf, GuardOk, LogOf;
    var end, policy := RunOf(s, run), PolicyOf(s, user);
    InitialIsSound(s, user);
    RunKeepsSound(s, run, user, policy);
    SoundGuard(end, user, policy);
    GuardWaits(end.guard, LogOf(end, user), user, policy, end.now, now);
  }

  lemma ReachableKeys(s: System, run: seq<Event>, user: string, now: Time)
    requires Initial(s) && CanRun(s, run) && NulFree(user) && NulFreeRun(run) && RunOf(s, run).now <= now
    ensures var end := RunOf(s, run);
            && KeysOk(end.guard.entries, LogOf(end, user).keys, user, now)
            && Earned(end.guard.entries, LogOf(end, user).keys, user, now)
  {
    hide Initial, CanRun, RunOf, NulFree, NulFreeRun, NulFreeFlights, KeysOk, Earned, LogOf;
    var end := RunOf(s, run);
    KeptInitially(s, user);
    RunKeepsKeys(s, run, user);
    KeysWait(end.guard.entries, LogOf(end, user).keys, user, end.now, now);
  }

  /** Whatever happened before and however it was interleaved: an order of the user would be
      allowed now exactly when the user's own history permits it, under the limits the user
      had at start-up. */
  lemma DecisionIsHistory(s: System, run: seq<Event>, user: string, req: Request, env: Env)
    requires Initial(s) && CanRun(s, run) && Lower(user) == user && OneKeyCheck(s.guard.checks)
    requires req.clientOrderId != "" ==> NulFree(user) && NulFreeRun(run)
    requires Lower(req.email) == user && req.InRupees() && RunOf(s, run).now <= env.now
    ensures var end := RunOf(s, run);
            CheckOrder(end.guard, req, env).1.Allowed? <==>
              && Permitted(LogOf(end, user), PolicyOf(s, user),
                           end.guard.killSwitch.frozen || IsFrozen(end.guard, user), req, env)
              && ExternalsAgree(s.guard.checks, env)
  {
    hide Initial, CanRun, RunOf, Sound, PolicyOf, OneKeyCheck, NulFree, NulFreeRun, NulFreeFlights, CheckOrder,
      Permitted, ExternalsAgree, GuardOk, KeysOk, Earned, LogOf, IsFrozen;
    var end, policy := RunOf(s, run), PolicyOf(s, user);
    ReachableBookkeeping(s, run, user, env.now);
    if req.clientOrderId != "" {
      ReachableKeys(s, run, user, env.now);
    }
    AllowedIffPermitted(end.guard, LogOf(end, user), user, policy, req, env);
  }
}
