/** Addresses are compared without regard to the case of letters: what is recorded under one
    spelling is reported, and counted by the checks, under every other. */
module Spellings {
  import opened Base
  import opened Calendar
  import opened Chain
  import opened Limits
  import opened Orders
  import opened History
  import opened GuardModel
  import opened Tracking
  import opened Laws
  import opened Runs

  /** What the order adds to the day. */
  function ValueOf(req: Option<Request>): int {
    if req.Some? && req.value.price.amount > 0 then req.value.price.amount * req.value.sig.quantity else 0
  }

  // --- One record ---

  /** A report right after the record shows the order under every spelling of the address, and
      nobody else's report changes. */
  lemma RecordIsSeen(g: GuardState, email: string, req: Option<Request>, env: Env, other: string)
    ensures var g' := RecordOrder(g, email, req, env);
            var s, s' := Status(g, Lower(other), env.now), Status(g', Lower(other), env.now);
            && s'.dailyOrderCount == s.dailyOrderCount + (if SameAddress(email, other) then 1 else 0)
            && (!SameAddress(email, other) ==> s' == s)
  {
    SpellingsOfOneAddress(email, other);
  }

  // --- A check records nothing ---

  lemma {:induction false} WalkCountsNoOrder(g: GuardState, chain: seq<Check>, req: Request, env: Env, user: string)
    ensures var s, s' := Status(g, user, env.now), Status(Walk(g, chain, req, env).0, user, env.now);
            s'.dailyOrderCount == s.dailyOrderCount && s'.dailyPlacedValue == s.dailyPlacedValue
    decreases |chain|
  {
    if chain != [] {
      EffectCountsNoOrder(g, chain[0].rule, req, env, user);
      var after := Effect(g, chain[0].rule, req, env);
      hide Judge, Effect;
      if Judge(g, chain[0].rule, req, env).Allow? {
        WalkCountsNoOrder(after, chain[1..], req, env, user);
      } else {
        RefusedCountsNoOrder(after, chain[0], Lower(req.email), env, user);
      }
    }
  }

  lemma EffectCountsNoOrder(g: GuardState, rule: Rule, req: Request, env: Env, user: string)
    ensures var s, s' := Status(g, user, env.now), Status(Effect(g, rule, req, env), user, env.now);
            s'.dailyOrderCount == s.dailyOrderCount && s'.dailyPlacedValue == s.dailyPlacedValue
  {
  }

  lemma RefusedCountsNoOrder(g: GuardState, c: Check, owner: string, env: Env, user: string)
    ensures var s, s' := Status(g, user, env.now), Status(Refused(g, c, owner, env), user, env.now);
            s'.dailyOrderCount == s.dailyOrderCount && s'.dailyPlacedValue == s.dailyPlacedValue
  {
    hide Breaker, CountRejection, Status;
    if c.counted {
      RejectionCountsNoOrder(g, owner, env.now, user);
      BreakerCountsNoOrder(CountRejection(g, owner, env.now), owner, env, user);
    }
  }

  lemma RejectionCountsNoOrder(g: GuardState, owner: string, now: Time, user: string)
    ensures var s, s' := Status(g, user, now), Status(CountRejection(g, owner, now), user, now);
            s'.dailyOrderCount == s.dailyOrderCount && s'.dailyPlacedValue == s.dailyPlacedValue
  {
  }

  lemma BreakerCountsNoOrder(g: GuardState, owner: string, env: Env, user: string)
    ensures var s, s' := Status(g, user, env.now), Status(Breaker(g, owner, env), user, env.now);
            s'.dailyOrderCount == s.dailyOrderCount && s'.dailyPlacedValue == s.dailyPlacedValue
  {
    BreakerKeepsDay(g, owner, env, user);
    hide Breaker, ResetBoundary;
  }

  lemma BreakerKeepsDay(g: GuardState, owner: string, env: Env, user: string)
    ensures TrackerOf(Breaker(g, owner, env).trackers, user, env.now).(recentRejections := []) ==
              TrackerOf(g.trackers, user, env.now).(recentRejections := [])
  {
    hide Encode, BreakerTrips, Effective;
  }

  /** Whatever its answer, a check leaves every user's reported count and value. */
  lemma CheckCountsNoOrder(g: GuardState, req: Request, env: Env, user: string)
    ensures var s, s' := Status(g, user, env.now), Status(CheckOrder(g, req, env).0, user, env.now);
            s'.dailyOrderCount == s.dailyOrderCount && s'.dailyPlacedValue == s.dailyPlacedValue
  {
    hide Walk, Status;
    WalkCountsNoOrder(g, g.checks, req, env, user);
  }

  // --- Whole runs ---

  predicate RecordsFor(e: Event, email: string) {
    e.op.Record? && SameAddress(e.op.email, email)
  }

  /** How many orders the run records for the address, under any spelling and not before the
      cutoff. */
  function RecordedAs(run: seq<Event>, email: string, cutoff: Time): nat {
    if run == [] then 0
    else
      var e := run[|run| - 1];
      RecordedAs(run[..|run| - 1], email, cutoff) + if RecordsFor(e, email) && cutoff <= e.env.now then 1 else 0
  }

  /** What these orders add up to. */
  function PlacedAs(run: seq<Event>, email: string, cutoff: Time): int {
    if run == [] then 0
    else
      var e := run[|run| - 1];
      PlacedAs(run[..|run| - 1], email, cutoff) +
        if RecordsFor(e, email) && cutoff <= e.env.now then ValueOf(e.op.order) else 0
  }

  lemma {:induction false} OrdersInAnySpelling(run: seq<Event>, email: string, cutoff: Time)
    ensures var orders := OrdersOf(run, Lower(email));
            && Total(DailyCount, orders, cutoff) == RecordedAs(run, email, cutoff) == Total(MinuteRate, orders, cutoff)
            && Total(DailyValue, orders, cutoff) == PlacedAs(run, email, cutoff)
  {
    if run != [] {
      var front, e := run[..|run| - 1], run[|run| - 1];
      OrdersInAnySpelling(front, email, cutoff);
      if e.op.Record? {
        SpellingsOfOneAddress(e.op.email, email);
        var o := Stamp(e.env.now, OrderOf(e.op.order));
        TotalAppend(DailyCount, OrdersOf(front, Lower(email)), o, cutoff);
        TotalAppend(MinuteRate, OrdersOf(front, Lower(email)), o, cutoff);
        TotalAppend(DailyValue, OrdersOf(front, Lower(email)), o, cutoff);
      }
    }
  }

  /** A report counts all orders of the trading day, whatever the spellings they were recorded
      under and the one it is asked for. */
  lemma ReportsCountEverySpelling(start: GuardState, run: seq<Event>, email: string, now: Time)
    requires AtStart(start) && Timely(run, now)
    ensures var s := Status(Run(start, run), Lower(email), now);
            && s.dailyOrderCount == RecordedAs(run, email, ResetBoundary(now))
            && s.dailyPlacedValue.amount == PlacedAs(run, email, ResetBoundary(now))
  {
    StatusIsHistory(start, run, email, now);
    OrdersInAnySpelling(run, email, ResetBoundary(now));
  }

  /** So do the checks: the daily count, the daily value and the minute rate admit a request
      exactly when the orders recorded under all spellings of its address leave room. */
  lemma ChecksCountEverySpelling(start: GuardState, run: seq<Event>, req: Request, env: Env)
    requires AtStart(start) && Timely(run, env.now) && req.InRupees()
    requires Effective(start.limits, req.email).maxDailyValue.currency == INR
    ensures var g, l, day := Run(start, run), Effective(start.limits, req.email), ResetBoundary(env.now);
            && (Judge(g, DailyOrderCount, req, env).Allow? <==> RecordedAs(run, req.email, day) < l.maxOrdersPerDay)
            && (Judge(g, RateLimit, req, env).Allow? <==>
                  RecordedAs(run, req.email, env.now - 60_000_000_000) < l.maxOrdersPerMinute)
            && (Judge(g, DailyValueCap, req, env).Allow? <==>
                  req.price.amount <= 0 ||
                  PlacedAs(run, req.email, day) + req.price.amount * req.sig.quantity <= l.maxDailyValue.amount)
  {
    hide Judge, Follows, Total, AtStart, Timely, ResetBoundary, RecordedAs, PlacedAs, Lower;
    var g, user := Run(start, run), Lower(req.email);
    LowerIdempotent(req.email);
    RunFollows(start, run, user, env.now);
    RunKeepsPolicies(start, run);
    SameLimitsInForce(start, g, req.email);
    var secs := Effective(start.limits, user).duplicateWindowSecs;
    var orders, rejections := OrdersOf(run, user), RejectionsOf(start, run, user);
    ChecksAnswerFromHistory(g, user, orders, rejections, secs, env.now, DailyCount, req, env);
    ChecksAnswerFromHistory(g, user, orders, rejections, secs, env.now, MinuteRate, req, env);
    ChecksAnswerFromHistory(g, user, orders, rejections, secs, env.now, DailyValue, req, env);
    OrdersInAnySpelling(run, req.email, ResetBoundary(env.now));
    OrdersInAnySpelling(run, req.email, env.now - 60_000_000_000);
  }

  lemma SameLimitsInForce(g: GuardState, g': GuardState, email: string)
    requires SamePolicies(g, g')
    ensures Policy(Effective(g'.limits, email)) == Policy(Effective(g.limits, email))
    ensures Effective(g'.limits, Lower(email)) == Effective(g'.limits, email)
    ensures Effective(g.limits, Lower(email)) == Effective(g.limits, email)
  {
    LowerIdempotent(email);
  }
}
