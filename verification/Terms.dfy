/** The numbers that a user is bound to, read off the stored row, and the gate's decision in
    these numbers. Amounts are in ten-thousandths of a rupee, instants in nanoseconds. */
module Terms {
  import opened Base
  import opened Calendar
  import opened Dedup
  import opened Limits
  import opened Orders
  import opened PerSecond
  import opened Trackers
  import opened Windows
  import opened History
  import opened GuardModel
  import opened Laws
  import opened Protocol
  import opened Keys
  import opened Bounds
  import opened Decision

  datatype Terms = Terms(
    single: int,
    perDay: int,
    perMinute: int,
    windowSecs: int,
    daily: int,
    breaker: bool,
    confirm: bool)

  /** A stored number, or the system's own when none is stored. */
  function Or(stored: int, standard: int): int {
    if stored == 0 then standard else stored
  }

  /** Rs 50,000 an order, 20 orders a day and 10 a minute, 30 seconds between equal orders and
      Rs 200,000 a day, with the breaker on and every order confirmed, unless the row says
      otherwise. */
  function TermsOf(row: Option<Row>): Terms {
    match row
    case None => Terms(500_000_000, 20, 10, 30, 2_000_000_000, true, true)
    case Some(r) =>
      Terms(Or(r.maxSingleOrder, 500_000_000), Or(r.maxOrdersPerDay, 20), Or(r.maxOrdersPerMinute, 10),
            Or(r.duplicateWindowSecs, 30), Or(r.maxDailyValue, 2_000_000_000), r.autoFreeze != 0, r.requireConfirm != 0)
  }

  /** Limits in force are those of the terms, in rupees. */
  predicate InForce(t: Terms, l: Limits) {
    && l.maxSingleOrder == Money(t.single, "INR") && l.maxDailyValue == Money(t.daily, "INR")
    && l.maxOrdersPerDay == t.perDay && l.maxOrdersPerMinute == t.perMinute && l.duplicateWindowSecs == t.windowSecs
    && l.autoFreezeOnLimitHit == t.breaker && l.requireConfirmAllOrders == t.confirm
  }

  // --- From the record ---

  /** Every override that is not zero is in force, every other limit is the system's, and the
      switches and the freeze are those of the record. */
  predicate Overrides(l: Limits, e: Limits) {
    && e.maxSingleOrder == (if l.maxSingleOrder.amount != 0 then l.maxSingleOrder else Money(500_000_000, "INR"))
    && e.maxDailyValue == (if l.maxDailyValue.amount != 0 then l.maxDailyValue else Money(2_000_000_000, "INR"))
    && e.maxOrdersPerDay == Or(l.maxOrdersPerDay, 20) && e.maxOrdersPerMinute == Or(l.maxOrdersPerMinute, 10)
    && e.duplicateWindowSecs == Or(l.duplicateWindowSecs, 30)
    && e.autoFreezeOnLimitHit == l.autoFreezeOnLimitHit
    && e.requireConfirmAllOrders == l.requireConfirmAllOrders && e.allowOffHours == l.allowOffHours
    && e.tradingFrozen == l.tradingFrozen && e.frozenBy == l.frozenBy
    && e.frozenReason == l.frozenReason && e.frozenAt == l.frozenAt
  }

  lemma OverridesAreInForce(limits: map<string, Limits>, email: string)
    ensures Lower(email) in limits ==> Overrides(limits[Lower(email)], Effective(limits, email))
  {
  }

  /** A user without a record has the system's terms, trades in no off-hours, and is not
      frozen. */
  lemma NewcomersHaveTheDefaults(limits: map<string, Limits>, email: string)
    ensures Lower(email) !in limits ==>
              var e := Effective(limits, email);
              InForce(TermsOf(None), e) && !e.allowOffHours && !e.tradingFrozen
  {
  }

  // --- From the row ---

  /** The last row of the user, under whatever spelling. */
  function RowOf(rows: seq<(string, Row)>, email: string): Option<Row> {
    if rows == [] then None
    else if SameAddress(rows[|rows| - 1].0, email) then Some(rows[|rows| - 1].1)
    else RowOf(rows[..|rows| - 1], email)
  }

  lemma {:induction false} RowsInAnySpelling(rows: seq<(string, Row)>, email: string)
    ensures RowOf(rows, email) ==
              match LastRow(rows, Lower(email)) case None => None case Some(row) => Some(row.1)
  {
    if rows != [] {
      RowsInAnySpelling(rows[..|rows| - 1], email);
      SpellingsOfOneAddress(rows[|rows| - 1].0, email);
    }
  }

  /** After loading, the terms of the user's last row are in force, off-hours trading is not
      allowed, and the user is frozen exactly when the row says so. */
  lemma LoadedTermsAreInForce(rows: seq<(string, Row)>, email: string)
    ensures var row, e := RowOf(rows, email), Effective(LoadRows(rows, map[]), email);
            && InForce(TermsOf(row), e) && !e.allowOffHours
            && e.tradingFrozen == (row.Some? && row.value.frozen != 0)
            && (row.Some? ==> e.frozenBy == row.value.frozenBy && e.frozenReason == row.value.frozenReason)
  {
    var limits := LoadRows(rows, map[]);
    RowsInAnySpelling(rows, email);
    LoadedIsLastRow(rows, Lower(email));
    hide LoadRows, LastRow, Lower;
    assert Lower(email) in limits <==> Get(limits, Lower(email)).Some?;
  }

  // --- The decision in numbers ---

  /** What the user ever did leaves room for the request under the terms. */
  ghost predicate Obeys(t: Terms, l: UserLog, req: Request, now: Time) {
    var price, value := req.price.amount, req.price.amount * req.sig.quantity;
    && (t.confirm ==> req.confirmed)
    && (price > 0 ==> value <= t.single && Total(DailyValue, l.orders, ResetBoundary(now)) + value <= t.daily)
    && Total(DailyCount, l.orders, ResetBoundary(now)) < t.perDay
    && Total(MinuteRate, l.orders, now - 60_000_000_000) < t.perMinute
    && Streak(l.bumps, now / 1_000_000_000) < 9
    && !KeyTaken(l.keys, req.clientOrderId, now)
    && !Repeats(t, l.orders, req.sig, now)
    && !OffHours(now) && MarketAllows(now, req.variety)
  }

  /** The key was accepted within the last fifteen minutes. */
  ghost predicate KeyTaken(keys: seq<Stamp<string>>, key: string, now: Time) {
    key != "" && exists i :: 0 <= i < |keys| && keys[i].item == key && now - keys[i].at < 900_000_000_000
  }

  /** An order with the same signature lies in the window. */
  ghost predicate Repeats(t: Terms, orders: seq<Stamp<Order>>, sig: Signature, now: Time) {
    && t.windowSecs > 0
    && exists i :: 0 <= i < |orders| &&
         orders[i].item.sig == Some(sig) && now - orders[i].at <= t.windowSecs * 1_000_000_000
  }

  lemma {:induction false} SomeSameOrder(log: seq<Stamp<Order>>, sig: Signature, cutoff: Time)
    ensures Total(SameOrder(sig), log, cutoff) > 0 <==>
              exists i :: 0 <= i < |log| && log[i].item.sig == Some(sig) && cutoff <= log[i].at
    ensures Total(SameOrder(sig), log, cutoff) >= 0
  {
    if log != [] {
      var n := |log| - 1;
      SomeSameOrder(log[..n], sig, cutoff);
      assert forall i :: 0 <= i < n ==> log[..n][i] == log[i];
    }
  }

  lemma ObeyingIsPermitted(t: Terms, p: Limits, l: UserLog, req: Request, env: Env)
    requires InForce(t, p) && !p.allowOffHours
    ensures Permitted(l, p, false, req, env) <==> Obeys(t, l, req, env.now)
  {
    hide OffHours, MarketAllows, ResetBoundary, Total, Since, Params, Instants, Streak;
    RateIsTotal(l.orders, env.now - RATE_WINDOW);
    var cutoff := env.now - Span(p.duplicateWindowSecs);
    DuplicateIsTotal(l.orders, req.sig, cutoff);
    SomeSameOrder(l.orders, req.sig, cutoff);
  }

  /** The last row that was loaded for a user, under whatever spelling, decides the user's
      orders from then on: whatever happened since and however it was interleaved, an order is
      allowed exactly when nothing is frozen, the terms of the row leave room for it in the
      user's history, and no external check objects. */
  lemma LoadedTermsGovern(
    rows: seq<(string, Row)>, s: System, run: seq<Event>, email: string, req: Request, env: Env)
    requires Initial(s) && s.guard.limits == LoadRows(rows, map[]) && CanRun(s, run) && OneKeyCheck(s.guard.checks)
    requires SameAddress(req.email, email) && req.InRupees() && RunOf(s, run).now <= env.now
    requires req.clientOrderId != "" ==> NulFree(Lower(email)) && NulFreeRun(run)
    ensures var end := RunOf(s, run);
            CheckOrder(end.guard, req, env).1.Allowed? <==>
              && !end.guard.killSwitch.frozen && !IsFrozen(end.guard, Lower(email))
              && Obeys(TermsOf(RowOf(rows, email)), LogOf(end, Lower(email)), req, env.now)
              && ExternalsAgree(s.guard.checks, env)
  {
    hide Initial, CanRun, RunOf, OneKeyCheck, NulFree, NulFreeRun, CheckOrder, Permitted, ExternalsAgree, LogOf,
      IsFrozen, Obeys, LoadRows, Lower, TermsOf, RowOf;
    var end, user := RunOf(s, run), Lower(email);
    SpellingsOfOneAddress(req.email, email);
    LowerIdempotent(email);
    LoadedTermsAreInForce(rows, email);
    SamePolicyInForce(TermsOf(RowOf(rows, email)), s.guard.limits, email);
    DecisionIsHistory(s, run, user, req, env);
    ObeyingIsPermitted(TermsOf(RowOf(rows, email)), PolicyOf(s, user), LogOf(end, user), req, env);
    FrozenIsNotPermitted(LogOf(end, user), PolicyOf(s, user), req, env);
  }

  lemma SamePolicyInForce(t: Terms, limits: map<string, Limits>, email: string)
    requires InForce(t, Effective(limits, email)) && !Effective(limits, email).allowOffHours
    ensures var p := Policy(Effective(limits, Lower(email))); InForce(t, p) && !p.allowOffHours
  {
    LowerIdempotent(email);
  }

  lemma FrozenIsNotPermitted(l: UserLog, p: Limits, req: Request, env: Env)
    ensures !Permitted(l, p, true, req, env)
  {
  }
}
