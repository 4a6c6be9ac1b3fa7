/** The gate itself: the maps that its methods update, the chain, and the middleware that
    checks, runs the handler and records. Every method is proved against GuardModel. */
module Guard {
  import opened Base
  import opened Calendar
  import opened Chain
  import opened Limits
  import opened Orders
  import opened Trackers
  import opened GuardModel
  import A = AutoFreeze
  import H = Holds
  import S = Spellings
  import T = Terms
  import D = Dedup
  import KS = KillSwitch
  import P = PerSecond
  import W = Windows

  class Guard {
    var trackers: map<string, Tracker>
    var limits: map<string, Limits>
    const dedup: D.Dedup
    const perSecond: P.PerSecondCounter
    var killSwitch: KS.KillSwitch
    var checks: seq<Check>
    /** The risk_limits table. */
    var table: map<string, Row>
    /** Whether an event dispatcher is wired, and what it was handed. */
    var dispatcher: bool
    var events: seq<KS.Event>

    predicate Valid() {
      dedup.ttl == D.DEFAULT_TTL
    }

    /** The value of the whole gate. */
    function State(): GuardState
      reads this, dedup, perSecond
    {
      GuardState(trackers, limits, dedup.entries, perSecond.perUser, killSwitch, checks, table)
    }

    constructor ()
      ensures Valid() && State() == FRESH && events == [] && !dispatcher
      ensures fresh(dedup) && fresh(perSecond)
    {
      trackers, limits, table := map[], map[], map[];
      dedup := new D.Dedup(D.DEFAULT_TTL);
      perSecond := new P.PerSecondCounter();
      killSwitch, checks, dispatcher, events := KS.OPEN, [], false, [];
      new;
      hide Registered, Insert, WellFormed;
      NoneRegistered(BUILTINS);
      for i := 0 to |BUILTINS|
        invariant State() == FRESH.(checks := Registered(BUILTINS[..i]))
        invariant fresh(dedup) && fresh(perSecond) && events == [] && !dispatcher
      {
        OneMoreRegistered(BUILTINS, i);
        InsertCheck(BUILTINS[i]);
      }
      assert BUILTINS[..|BUILTINS|] == BUILTINS;
      RegistrationKeepsChainWellFormed([]);
    }

    /** Append and swap backwards past every strictly greater order. */
    method InsertCheck(c: Check)
      modifies this`checks
      ensures checks == Insert(old(checks), c)
    {
      ghost var was := checks;
      checks := checks + [c];
      var i := |checks| - 1;
      while i > 0 && checks[i - 1].order > checks[i].order
        invariant 0 <= i <= |was|
        invariant checks == was[..i] + [c] + was[i..]
        invariant forall j :: i <= j < |was| ==> c.order < was[j].order
      {
        checks := checks[i - 1 := checks[i]][i := checks[i - 1]];
        i := i - 1;
      }
      PositionIs(was, c, i);
    }

    method RegisterCheck(c: Check)
      modifies this`checks
      ensures State() == old(State()).(checks := Insert(old(checks), c))
    {
      InsertCheck(c);
    }

    // --- Records ---

    /** The user's tracker, created on demand. */
    method GetOrCreateTracker(user: string, now: Time) returns (t: Tracker)
      modifies this`trackers
      ensures t == TrackerOf(old(trackers), user, now) && trackers == old(trackers)[user := t]
    {
      if user !in trackers {
        trackers := trackers[user := NewTracker(now)];
      }
      t := trackers[user];
    }

    /** Zeroes the user's day counters when the last reset is before the latest opening. */
    method MaybeResetDay(user: string, now: Time) returns (reset: bool)
      requires user in trackers
      modifies this`trackers
      ensures trackers == old(trackers)[user := ResetDay(old(trackers)[user], now)]
      ensures reset == DayIsStale(old(trackers)[user], now)
    {
      var resetTime := OpeningOf(LocalDay(now));
      if now < resetTime {
        resetTime := resetTime - DAY;
      }
      var t := trackers[user];
      if t.dayResetAt < resetTime {
        t := t.(dailyOrderCount := 0, dailyPlacedValue := ZERO_MONEY, dayResetAt := now);
        trackers := trackers[user := t];
        return true;
      }
      return false;
    }

    /** The user's limits record, created on demand. */
    method GetOrCreateLimits(user: string) returns (l: Limits)
      modifies this`limits
      ensures l == RecordFor(old(limits), user) && limits == old(limits)[user := l]
    {
      if user !in limits {
        limits := limits[user := ON_DEMAND];
      }
      l := limits[user];
    }

    /** The limits in force: a copy with every missing override filled in. */
    method GetEffectiveLimits(email: string) returns (result: Limits)
      ensures result == Effective(limits, email)
      ensures Lower(email) in limits ==> T.Overrides(limits[Lower(email)], result)
      ensures Lower(email) !in limits ==> T.InForce(T.TermsOf(None), result) && !result.allowOffHours
    {
      T.OverridesAreInForce(limits, email);
      T.NewcomersHaveTheDefaults(limits, email);
      if Lower(email) in limits {
        result := limits[Lower(email)];
        var single := if result.maxSingleOrder.IsZero() then SYSTEM_DEFAULTS.maxSingleOrder else result.maxSingleOrder;
        var perDay := if result.maxOrdersPerDay == 0 then SYSTEM_DEFAULTS.maxOrdersPerDay else result.maxOrdersPerDay;
        var perMinute :=
          if result.maxOrdersPerMinute == 0 then SYSTEM_DEFAULTS.maxOrdersPerMinute else result.maxOrdersPerMinute;
        var window :=
          if result.duplicateWindowSecs == 0 then SYSTEM_DEFAULTS.duplicateWindowSecs else result.duplicateWindowSecs;
        var daily := if result.maxDailyValue.IsZero() then SYSTEM_DEFAULTS.maxDailyValue else result.maxDailyValue;
        return result.(maxSingleOrder := single, maxOrdersPerDay := perDay, maxOrdersPerMinute := perMinute,
                       duplicateWindowSecs := window, maxDailyValue := daily);
      }
      return SYSTEM_DEFAULTS;
    }

    method PersistLimits(user: string, stores: bool)
      requires user in limits
      modifies this`table
      ensures table == if stores then old(table)[user := Encode(limits[user])] else old(table)
    {
      if stores {
        table := table[user := Encode(limits[user])];
      }
    }

    /** Rows replace the records of their users, in the sequence the query returned them. A
        query that fails changes nothing, and a row that cannot be read ends the loading with
        the rows in front of it in place. */
    method LoadLimits(answer: Query) returns (ok: bool)
      modifies this`limits
      ensures limits == LoadRows(ReadableRows(answer), old(limits))
      ensures ok <==> answer.NoTable? || (answer.Rows? && forall i :: 0 <= i < |answer.rows| ==> answer.rows[i].Some?)
    {
      match answer {
        case NoTable => return true;
        case QueryFailed => return false;
        case Rows(rows) =>
          var i := 0;
          while i < |rows|
            invariant 0 <= i <= |rows|
            invariant forall j :: 0 <= j < i ==> rows[j].Some?
            invariant limits == LoadRows(Readable(rows[..i]), old(limits))
          {
            ReadableFront(rows, i);
            if rows[i].None? {
              return false;
            }
            var row := rows[i].value;
            limits := limits[Lower(row.0) := Decode(row.1)];
            i := i + 1;
          }
          assert rows[..|rows|] == rows;
          return true;
      }
    }

    // --- Freezing ---

    method FreezeGlobal(who: string, reason: string, now: Time)
      modifies this`killSwitch, this`events
      ensures killSwitch == KS.Apply(old(killSwitch), KS.FreezeGlobal(who, reason, now))
      ensures killSwitch == KS.KillSwitch(true, who, reason, Some(now))
      ensures events == old(events) + if dispatcher && !old(killSwitch.frozen) then [KS.Tripped(who, reason)] else []
      ensures events == old(events) +
                if dispatcher then KS.Announced(old(killSwitch), KS.FreezeGlobal(who, reason, now)) else []
    {
      var wasFrozen := killSwitch.frozen;
      killSwitch := KS.KillSwitch(true, who, reason, Some(now));
      if !wasFrozen && dispatcher {
        events := events + [KS.Tripped(who, reason)];
      }
    }

    method UnfreezeGlobal()
      modifies this`killSwitch, this`events
      ensures killSwitch == KS.Apply(old(killSwitch), KS.UnfreezeGlobal)
      ensures killSwitch == KS.KillSwitch(false, "", "", None)
      ensures events == old(events) + if dispatcher && old(killSwitch.frozen) then [KS.Lifted] else []
      ensures events == old(events) +
                if dispatcher then KS.Announced(old(killSwitch), KS.UnfreezeGlobal) else []
    {
      var wasFrozen := killSwitch.frozen;
      killSwitch := KS.KillSwitch(false, "", "", None);
      if wasFrozen && dispatcher {
        events := events + [KS.Lifted];
      }
    }

    method FreezeRecord(user: string, who: string, reason: string, env: Env)
      modifies this`limits, this`table
      ensures State() == WithLimits(old(State()), user, Frozen(RecordFor(old(limits), user), who, reason, env.now),
                                    env.stores)
    {
      var l := GetOrCreateLimits(user);
      l := l.(tradingFrozen := true, frozenBy := who, frozenReason := reason, frozenAt := Some(env.now));
      limits := limits[user := l];
      PersistLimits(user, env.stores);
    }

    method FreezeUser(email: string, who: string, reason: string, env: Env)
      modifies this`limits, this`table
      ensures State() == Freeze(old(State()), email, who, reason, env)
      ensures forall other :: SameAddress(email, other) ==>
                H.HoldOf(State(), Lower(other)) == Some(H.Hold(who, reason, Some(env.now)))
    {
      FreezeRecord(Lower(email), who, reason, env);
      forall other | SameAddress(email, other)
        ensures H.HoldOf(State(), Lower(other)) == Some(H.Hold(who, reason, Some(env.now)))
      {
        H.FreezeHolds(old(State()), email, who, reason, env, other);
      }
    }

    method UnfreezeUser(email: string, env: Env)
      modifies this`limits, this`table
      ensures State() == Unfreeze(old(State()), email, env)
      ensures forall other :: SameAddress(email, other) ==> H.HoldOf(State(), Lower(other)) == None
    {
      var user := Lower(email);
      var l := GetOrCreateLimits(user);
      l := l.(tradingFrozen := false, frozenBy := "", frozenReason := "", frozenAt := None);
      limits := limits[user := l];
      PersistLimits(user, env.stores);
      forall other | SameAddress(email, other) ensures H.HoldOf(State(), Lower(other)) == None {
        H.LiftReleases(old(State()), email, env, other);
      }
    }

    // --- Checks ---

    method CheckDailyOrderCount(req: Request, env: Env) returns (v: Verdict)
      modifies this`trackers
      ensures State() == Effect(old(State()), DailyOrderCount, req, env)
      ensures v == Judge(old(State()), DailyOrderCount, req, env)
    {
      var l := GetEffectiveLimits(req.email);
      var user := Lower(req.email);
      var t := GetOrCreateTracker(user, env.now);
      var _ := MaybeResetDay(user, env.now);
      v := if trackers[user].dailyOrderCount >= l.maxOrdersPerDay then Reject(DailyOrderLimit) else Allow;
    }

    method CheckRateLimit(req: Request, env: Env) returns (v: Verdict)
      modifies this`trackers
      ensures State() == Effect(old(State()), RateLimit, req, env)
      ensures v == Judge(old(State()), RateLimit, req, env)
    {
      var l := GetEffectiveLimits(req.email);
      var user := Lower(req.email);
      var t := GetOrCreateTracker(user, env.now);
      var kept := W.Prune(t.recentOrders, env.now - RATE_WINDOW);
      trackers := trackers[user := t.(recentOrders := kept)];
      v := if |kept| >= l.maxOrdersPerMinute then Reject(RateLimitHit) else Allow;
    }

    method CheckClientOrderId(req: Request, env: Env) returns (v: Verdict)
      requires Valid()
      modifies dedup
      ensures State() == Effect(old(State()), ClientOrderId, req, env)
      ensures v == Judge(old(State()), ClientOrderId, req, env)
    {
      if req.clientOrderId == "" {
        return Allow;
      }
      var seen := dedup.SeenOrAdd(Lower(req.email), req.clientOrderId, env.now);
      v := if seen then Reject(DuplicateSubmission) else Allow;
    }

    method CheckDuplicateOrder(req: Request, env: Env) returns (v: Verdict)
      modifies this`trackers
      ensures State() == Effect(old(State()), DuplicateOrder, req, env)
      ensures v == Judge(old(State()), DuplicateOrder, req, env)
    {
      var l := GetEffectiveLimits(req.email);
      if l.duplicateWindowSecs <= 0 {
        return Allow;
      }
      var user := Lower(req.email);
      var t := GetOrCreateTracker(user, env.now);
      var kept := W.Prune(t.recentParams, env.now - Span(l.duplicateWindowSecs));
      trackers := trackers[user := t.(recentParams := kept)];
      for i := 0 to |kept|
        invariant forall j :: 0 <= j < i ==> kept[j].item != req.sig
      {
        if kept[i].item == req.sig {
          return Reject(DuplicateSubmission);
        }
      }
      return Allow;
    }

    method CheckDailyValue(req: Request, env: Env) returns (v: Verdict)
      modifies this`trackers
      ensures State() == Effect(old(State()), DailyValueCap, req, env)
      ensures v == Judge(old(State()), DailyValueCap, req, env)
    {
      if !req.price.IsPositive() {
        return Allow;
      }
      var l := GetEffectiveLimits(req.email);
      var orderValue := req.Notional();
      var user := Lower(req.email);
      var t := GetOrCreateTracker(user, env.now);
      var _ := MaybeResetDay(user, env.now);
      var placed := trackers[user].dailyPlacedValue;
      var cumulative := orderValue;
      if !placed.IsZero() {
        var sum := placed.Add(orderValue);
        if sum.None? {
          return Allow;
        }
        cumulative := sum.value;
      }
      v := if cumulative.GreaterThan(l.maxDailyValue) == Some(true) then Reject(DailyValueLimit) else Allow;
    }

    /** Checks that only read. */
    method CheckReadOnly(rule: Rule, req: Request, env: Env) returns (v: Verdict)
      requires rule.KillSwitchRule? || rule.ConfirmationRequired? || rule.OrderValue? || rule.PerSecondRate?
               || rule.OffHoursBlock? || rule.MarketHours? || rule.External?
      ensures v == Judge(State(), rule, req, env)
      ensures State() == Effect(State(), rule, req, env)
    {
      var user := Lower(req.email);
      match rule
      case KillSwitchRule =>
        v := if user in limits && limits[user].tradingFrozen then Reject(TradingFrozen) else Allow;
      case ConfirmationRequired =>
        var l := GetEffectiveLimits(req.email);
        v := if !l.requireConfirmAllOrders || req.confirmed then Allow else Reject(ConfirmationMissing);
      case OrderValue =>
        if !req.price.IsPositive() {
          return Allow;
        }
        var l := GetEffectiveLimits(req.email);
        var value := req.price.Multiply(req.sig.quantity);
        v := if value.GreaterThan(l.maxSingleOrder) == Some(true) then Reject(OrderValueLimit) else Allow;
      case PerSecondRate =>
        var count := perSecond.Count(user, env.now);
        v := if count >= P.MAX_ORDERS_PER_SECOND then Reject(PerSecondRateExceeded) else Allow;
      case OffHoursBlock =>
        var l := GetEffectiveLimits(req.email);
        v := Decide(l.allowOffHours || !OffHours(env.now), OffHoursBlocked);
      case MarketHours =>
        v := Decide(MarketAllows(env.now, req.variety), MarketClosed);
      case External(name) =>
        var outcome := env.external(name);
        v := if outcome.Panic? then Reject(CheckPanic) else outcome.verdict;
    }

    /** One link of the chain, with panics of external checks turned into rejections. */
    method SafeEvaluate(rule: Rule, req: Request, env: Env) returns (v: Verdict)
      requires Valid()
      modifies this`trackers, dedup
      ensures State() == Effect(old(State()), rule, req, env)
      ensures v == Judge(old(State()), rule, req, env)
    {
      match rule
      case DailyOrderCount => v := CheckDailyOrderCount(req, env);
      case RateLimit => v := CheckRateLimit(req, env);
      case ClientOrderId => v := CheckClientOrderId(req, env);
      case DuplicateOrder => v := CheckDuplicateOrder(req, env);
      case DailyValueCap => v := CheckDailyValue(req, env);
      case _ => v := CheckReadOnly(rule, req, env);
    }

    // --- The breaker ---

    method RecordRejection(user: string, now: Time)
      modifies this`trackers
      ensures State() == CountRejection(old(State()), user, now)
    {
      var t := GetOrCreateTracker(user, now);
      trackers := trackers[user := t.(recentRejections := t.recentRejections + [Stamp(now, ())])];
    }

    method TrimRejections(user: string, now: Time) returns (count: nat)
      modifies this`trackers
      ensures trackers == old(trackers)[user := PruneRejections(TrackerOf(old(trackers), user, now), now)]
      ensures count == |trackers[user].recentRejections|
    {
      var t := GetOrCreateTracker(user, now);
      var kept := W.Prune(t.recentRejections, now - AUTO_FREEZE_WINDOW);
      trackers := trackers[user := t.(recentRejections := kept)];
      count := |kept|;
    }

    method CheckAutoFreeze(user: string, env: Env) returns (frozen: bool)
      modifies this`trackers, this`limits, this`table
      ensures State() == Breaker(old(State()), user, env)
      ensures frozen == BreakerTrips(old(State()), user, env.now)
    {
      var effective := GetEffectiveLimits(user);
      if !effective.autoFreezeOnLimitHit {
        return false;
      }
      var recent := TrimRejections(user, env.now);
      if recent >= AUTO_FREEZE_THRESHOLD {
        if user in limits && limits[user].tradingFrozen {
          return false;
        }
        FreezeRecord(user, BREAKER, BREAKER_REASON, env);
        return true;
      }
      return false;
    }

    // --- The gate ---

    method CheckOrder(req: Request, env: Env) returns (r: CheckResult)
      requires Valid()
      modifies this`trackers, this`limits, this`table, dedup
      ensures (State(), r) == GuardModel.CheckOrder(old(State()), req, env)
      ensures WellFormed(checks) && A.ConfirmationSecond(checks) && A.Unconfirmed(old(limits), req) ==>
                State() == old(State()) && r.Blocked? && !r.autoFrozen
    {
      hide WellFormed, A.ConfirmationSecond, A.Unconfirmed;
      if WellFormed(checks) && A.ConfirmationSecond(checks) && A.Unconfirmed(limits, req) {
        A.UnconfirmedIsRefused(State(), req, env);
      }
      if killSwitch.frozen {
        return Blocked(GlobalFreeze, false);
      }
      var user := Lower(req.email);
      var snapshot := checks;
      var i := 0;
      while i < |snapshot|
        invariant 0 <= i <= |snapshot|
        invariant Walk(State(), snapshot[i..], req, env) == Walk(old(State()), snapshot, req, env)
      {
        var v := SafeEvaluate(snapshot[i].rule, req, env);
        if v.Reject? {
          var tripped := false;
          if snapshot[i].counted {
            RecordRejection(user, env.now);
            tripped := CheckAutoFreeze(user, env);
          }
          return Blocked(v.reason, tripped);
        }
        assert snapshot[i..][1..] == snapshot[i + 1..];
        i := i + 1;
      }
      return Allowed;
    }

    /** The bookkeeping of one recorded order, under the lock. */
    method TrackOrder(user: string, req: Option<Request>, now: Time)
      modifies this`trackers
      ensures trackers == old(trackers)[user := AddOrder(TrackerOf(old(trackers), user, now), req, now)]
    {
      var t := GetOrCreateTracker(user, now);
      var _ := MaybeResetDay(user, now);
      t := trackers[user];
      t := t.(dailyOrderCount := t.dailyOrderCount + 1, recentOrders := t.recentOrders + [Stamp(now, ())]);
      if req.Some? {
        var r := req.value;
        t := t.(recentParams := t.recentParams + [Stamp(now, r.sig)]);
        if r.price.IsPositive() {
          var notional := r.Notional();
          if t.dailyPlacedValue.IsZero() {
            t := t.(dailyPlacedValue := notional);
          } else {
            var sum := t.dailyPlacedValue.Add(notional);
            if sum.Some? {
              t := t.(dailyPlacedValue := sum.value);
            }
          }
        }
      }
      trackers := trackers[user := t];
    }

    method RecordOrder(email: string, req: Option<Request>, env: Env)
      modifies this`trackers, perSecond
      ensures State() == GuardModel.RecordOrder(old(State()), email, req, env)
      ensures forall other :: SameAddress(email, other) ==>
                Status(State(), Lower(other), env.now).dailyOrderCount ==
                  Status(old(State()), Lower(other), env.now).dailyOrderCount + 1
    {
      var user := Lower(email);
      perSecond.Increment(user, env.now);
      TrackOrder(user, req, env.now);
      forall other | SameAddress(email, other)
        ensures Status(State(), Lower(other), env.now).dailyOrderCount ==
                  Status(old(State()), Lower(other), env.now).dailyOrderCount + 1
      {
        S.RecordIsSeen(old(State()), email, req, env, other);
      }
    }

    method GetUserStatus(email: string, now: Time) returns (s: UserStatus)
      modifies this`trackers
      ensures State() == Touch(old(State()), Lower(email), now)
      ensures s == Status(old(State()), Lower(email), now)
      ensures s.isFrozen <==> H.HoldOf(State(), Lower(email)).Some?
      ensures s.isFrozen ==>
                H.HoldOf(State(), Lower(email)) == Some(H.Hold(s.frozenBy, s.frozenReason, s.frozenAt))
    {
      var user := Lower(email);
      var t := GetOrCreateTracker(user, now);
      var _ := MaybeResetDay(user, now);
      t := trackers[user];
      s := UserStatus(t.dailyOrderCount, t.dailyPlacedValue, false, "", "", None);
      if user in limits {
        var l := limits[user];
        s := s.(isFrozen := l.tradingFrozen, frozenBy := l.frozenBy, frozenReason := l.frozenReason,
                frozenAt := l.frozenAt);
      }
    }

    /** Check, run the handler, and record the order when the handler succeeded. Tools that
        place no order and calls without a user pass straight through. */
    method Middleware(tool: string, email: string, args: ToolArgs, handlerSucceeds: bool, checking: Env, recording: Env)
      returns (blocked: Option<Reason>)
      requires Valid()
      modifies this`trackers, this`limits, this`table, dedup, perSecond
      ensures tool !in ORDER_TOOLS || email == "" ==> blocked == None && State() == old(State())
      ensures tool in ORDER_TOOLS && email != "" ==>
                var req := BuildRequest(email, tool, args);
                var (after, r) := GuardModel.CheckOrder(old(State()), req, checking);
                && blocked == (if r.Blocked? then Some(r.reason) else None)
                && State() == if r.Allowed? && handlerSucceeds
                              then GuardModel.RecordOrder(after, email, Some(req), recording) else after
      ensures WellFormed(old(checks)) && tool in ORDER_TOOLS && email != "" && !args.confirm
              && Effective(old(limits), email).requireConfirmAllOrders ==>
                && blocked.Some? && perSecond.perUser == old(perSecond.perUser)
                && forall user :: Status(State(), user, checking.now).dailyOrderCount ==
                                    Status(old(State()), user, checking.now).dailyOrderCount
    {
      if tool !in ORDER_TOOLS || email == "" {
        return None;
      }
      var req := BuildRequest(email, tool, args);
      if WellFormed(checks) && A.Unconfirmed(limits, req) {
        A.UnconfirmedIsBlocked(State(), req, checking);
      }
      forall user
        ensures Status(GuardModel.CheckOrder(State(), req, checking).0, user, checking.now).dailyOrderCount ==
                  Status(State(), user, checking.now).dailyOrderCount
      {
        S.CheckCountsNoOrder(State(), req, checking, user);
      }
      var r := CheckOrder(req, checking);
      if r.Blocked? {
        return Some(r.reason);
      }
      if handlerSucceeds {
        RecordOrder(email, Some(req), recording);
      }
      return None;
    }
  }

  lemma {:induction false} PositionIs(cs: seq<Check>, c: Check, p: nat)
    requires p <= |cs|
    requires p > 0 ==> cs[p - 1].order <= c.order
    requires forall i :: p <= i < |cs| ==> c.order < cs[i].order
    ensures Position(cs, c) == p
  {
    if p < |cs| {
      PositionIs(cs[..|cs| - 1], c, p);
    }
  }
}
