/** The daily value limit and orders of negative quantity. Value given back before the opening
    admits orders that the history then no longer pays for, because the 09:15 reset between
    their check and their record takes the credit away. */
module Credit {
  import opened Base
  import opened Calendar
  import opened Limits
  import opened Orders
  import opened Trackers
  import opened Windows
  import opened History
  import opened Laws
  import opened Protocol
  import opened Overshoot
  import opened Bounds
  import opened Decision
  import opened Uninterrupted
  import opened Batch
  import opened Halfway
  import opened OneADay

  /** The first opening after an instant, and two instants shortly before it. */
  function NextOpening(now: Time): Time {
    OpeningOf(LocalDay(now) + 1)
  }

  function Nine(now: Time): Time {
    NextOpening(now) - 15 * MINUTE
  }

  function FivePastNine(now: Time): Time {
    NextOpening(now) - 10 * MINUTE
  }

  lemma BeforeTheOpening(now: Time)
    ensures now <= Nine(now) < FivePastNine(now) - RATE_WINDOW
    ensures FivePastNine(now) < NextOpening(now) == ResetBoundary(NextOpening(now))
    ensures ResetBoundary(Nine(now)) == ResetBoundary(FivePastNine(now)) <= Nine(now)
    ensures !OffHours(Nine(now)) && !OffHours(FivePastNine(now))
    ensures Seconds(Nine(now)) != Seconds(FivePastNine(now))
  {
    var d := LocalDay(now) + 1;
    assert LocalDay(Nine(now)) == d && TimeOfDay(Nine(now)) == 9 * HOUR;
    assert LocalDay(FivePastNine(now)) == d && TimeOfDay(FivePastNine(now)) == 9 * HOUR + 5 * MINUTE;
    assert LocalDay(NextOpening(now)) == d;
  }

  function AmoArgs(quantity: int, price: int): ToolArgs {
    ToolArgs(Signature("NSE", "INFY", "BUY", quantity), price, 0, "LIMIT", true, "", "amo")
  }

  /** Gives back enough value for one order of the per-order cap. */
  function CreditArgs(p: Limits): ToolArgs {
    AmoArgs(-(p.maxSingleOrder.amount + Max(0, -p.maxDailyValue.amount)), 1)
  }

  /** An order of exactly the per-order cap. */
  function LargeArgs(p: Limits): ToolArgs {
    AmoArgs(1, p.maxSingleOrder.amount)
  }

  lemma AmoRequests(user: string, quantity: int, price: int)
    requires price > 0
    ensures var req := Req(user, AmoArgs(quantity, price));
            && req.Value() == price * quantity && req.price == Inr(price) && req.confirmed && req.clientOrderId == ""
            && req.sig.quantity == quantity && req.email == user
            && forall now :: MarketAllows(now, req.variety)
  {
    assert Lower("amo") == "amo";
    assert TrimLeft("amo") == "amo" && TrimRight("amo") == "amo";
  }

  /** The policies for which the credit works. */
  predicate Exposed(p: Limits) {
    p.maxSingleOrder.amount > Max(0, p.maxDailyValue.amount)
  }

  function CreditOrder(p: Limits, user: string, now: Time): Stamp<Order> {
    Stamp(Nine(now), OrderOf(Some(Req(user, CreditArgs(p)))))
  }

  function LargeOrder(p: Limits, user: string, now: Time): Stamp<Order> {
    Stamp(NextOpening(now), OrderOf(Some(Req(user, LargeArgs(p)))))
  }

  // --- What is permitted ---

  lemma CreditIsPermitted(l: UserLog, p: Limits, user: string, now: Time)
    requires l.orders == [] && l.bumps == [] && Exposed(p) && p.maxOrdersPerDay >= 1 && p.maxOrdersPerMinute >= 1
    ensures Permitted(l, p, false, Req(user, CreditArgs(p)), World(Nine(now)))
  {
    BeforeTheOpening(now);
    AmoRequests(user, CreditArgs(p).sig.quantity, 1);
    hide OffHours, MarketAllows, ResetBoundary, NextOpening, Req, AmoArgs;
  }

  /** An order of the cap on an empty history, but for the daily value. */
  lemma LargeIsHeld(l: UserLog, p: Limits, user: string, now: Time)
    requires l.orders == [] && l.bumps == [] && Exposed(p) && p.maxOrdersPerDay >= 1 && p.maxOrdersPerMinute >= 1
    ensures Permitted(l, Unlimited(p, Req(user, LargeArgs(p))), false, Req(user, LargeArgs(p)), World(Nine(now)))
  {
    BeforeTheOpening(now);
    AmoRequests(user, 1, p.maxSingleOrder.amount);
    hide OffHours, MarketAllows, ResetBoundary, NextOpening, Req, AmoArgs;
  }

  /** After the credit order: an order of the cap passes the value check. */
  lemma LargeIsCovered(l: UserLog, p: Limits, user: string, now: Time)
    requires l.orders == [CreditOrder(p, user, now)] && Exposed(p)
    ensures LatePermitted(l, p, Req(user, LargeArgs(p)), World(FivePastNine(now)))
  {
    var at, large := FivePastNine(now), Req(user, LargeArgs(p));
    BeforeTheOpening(now);
    AmoRequests(user, CreditArgs(p).sig.quantity, 1);
    AmoRequests(user, 1, p.maxSingleOrder.amount);
    OneOrderLog(l.orders[0], ResetBoundary(at), at - RATE_WINDOW, at, large.sig);
    hide OffHours, MarketAllows, ResetBoundary, NextOpening, Nine, FivePastNine, Req, AmoArgs, Total;
  }

  lemma LargeIsPermitted(l: UserLog, p: Limits, user: string, now: Time)
    requires l.orders == [CreditOrder(p, user, now)] && l.bumps == [Stamp(Nine(now), ())]
    requires Exposed(p) && p.maxOrdersPerDay >= 2 && p.maxOrdersPerMinute >= 1
    ensures Permitted(l, p, false, Req(user, LargeArgs(p)), World(FivePastNine(now)))
  {
    var at := FivePastNine(now);
    var credit, large := Req(user, CreditArgs(p)), Req(user, LargeArgs(p));
    BeforeTheOpening(now);
    AmoRequests(user, CreditArgs(p).sig.quantity, 1);
    AmoRequests(user, 1, p.maxSingleOrder.amount);
    assert credit.sig.quantity != large.sig.quantity;
    OneOrderLog(l.orders[0], ResetBoundary(at), at - RATE_WINDOW, at - Span(p.duplicateWindowSecs), large.sig);
    hide OffHours, MarketAllows, ResetBoundary, NextOpening, Nine, FivePastNine, Req, AmoArgs, Total, Since, Instants,
      Params, Holds;
  }

  lemma OneOrderLog(e: Stamp<Order>, boundary: Time, minute: Time, window: Time, sig: Signature)
    requires boundary <= e.at < minute && e.item.sig.Some? && e.item.sig.value != sig
    ensures Total(DailyCount, [e], boundary) == 1 && Total(DailyValue, [e], boundary) == e.item.value
    ensures Since(Instants([e]), minute) == []
    ensures !Holds(Since(Params([e]), window), sig)
  {
    assert [e][..0] == [];
    OneInstant(e);
    ProjectionsAppend([], e);
    assert [] + [e] == [e];
    var param := Stamp(e.at, e.item.sig.value);
    assert Params([e]) == [param];
    assert Since([param], window) == if param.at < window then [] else [param];
  }

  // --- The runs ---

  /** A user of a gate that has just started. */
  ghost predicate MayTrade(s: System, user: string) {
    Initial(s) && OneKeyCheck(s.guard.checks) && Lower(user) == user && user != ""
  }

  /** The credit order alone, at nine. */
  lemma GiveBack(s: System, user: string, p: Limits, now: Time, slot: nat) returns (run: seq<Event>)
    requires Open(s, user, p) && s.now <= Nine(now) && slot < |s.flights| && s.flights[slot].Idle?
    requires LogOf(s, user).orders == [] && LogOf(s, user).bumps == []
    requires Exposed(p) && p.maxOrdersPerDay >= 1 && p.maxOrdersPerMinute >= 1
    ensures CanRun(s, run)
    ensures var end := RunOf(s, run);
            && Open(end, user, p) && SameRules(s.guard, end.guard) && end.now == Nine(now) && end.flights == s.flights
            && LogOf(end, user).orders == [CreditOrder(p, user, now)]
            && LogOf(end, user).bumps == [Stamp(Nine(now), ())]
  {
    hide Open, Permitted, ExternalsAgree, BuildRequest, CanRun, RunOf, OrderOf, Nine, Exposed, CreditArgs;
    OpenUser(s, user, p);
    CreditIsPermitted(LogOf(s, user), p, user, now);
    EverybodyAgrees(s.guard.checks, Nine(now));
    CreditHasNoKey(p, user);
    run := PassSlot(s, user, p, CreditArgs(p), World(Nine(now)), slot);
    var m := RunOf(s, run);
    var more := RecordSlot(m, user, p, World(Nine(now)), slot);
    Concat(s, run, more);
    run := run + more;
  }

  lemma CreditHasNoKey(p: Limits, user: string)
    ensures CreditArgs(p).clientOrderId == "" == LargeArgs(p).clientOrderId
    ensures Req(user, CreditArgs(p)).email == user == Req(user, LargeArgs(p)).email
  {
  }

  lemma IdleSlots(s: System)
    requires Initial(s)
    ensures forall i :: 0 <= i < |s.flights| ==> s.flights[i].Idle?
  {
  }

  /** One order that gives back value, then as many orders of the per-order cap as there are
      slots, checked before the opening and recorded at it. What they place on the new day is
      the most that any run can place. */
  lemma CreditRun(s: System, user: string) returns (run: seq<Event>)
    requires MayTrade(s, user) && Exposed(PolicyOf(s, user)) && |s.flights| >= 1
    requires PolicyOf(s, user).maxOrdersPerDay >= 2 && PolicyOf(s, user).maxOrdersPerMinute >= 1
    ensures CanRun(s, run)
    ensures var orders, p, opening := LogOf(RunOf(s, run), user).orders, PolicyOf(s, user), NextOpening(s.now);
            && orders == [CreditOrder(p, user, s.now)] + Copies(|s.flights|, LargeOrder(p, user, s.now))
            && Until(orders, opening)
            && Total(DailyValue, orders, ResetBoundary(opening)) == ValueBound(p, |s.flights|, false)
  {
    hide Initial, CanRun, RunOf, PolicyOf, Permitted, OneKeyCheck, OrderOf, Req, ExternalsAgree, Nine, FivePastNine,
      NextOpening, Exposed, Open, CreditArgs, LargeArgs, Until, Total, ResetBoundary;
    var k, p := |s.flights|, PolicyOf(s, user);
    BeforeTheOpening(s.now);
    IdleSlots(s);
    CreditHasNoKey(p, user);
    run := OpenUp(s, user);
    var lifted := RunOf(s, run);
    var credit := GiveBack(lifted, user, p, s.now, 0);
    Concat(s, run, credit);
    run := run + credit;
    var m := RunOf(s, run);
    LargeIsPermitted(LogOf(m, user), p, user, s.now);
    EverybodyAgrees(m.guard.checks, FivePastNine(s.now));
    var more := PassThenRecord(m, user, p, LargeArgs(p), World(FivePastNine(s.now)), World(NextOpening(s.now)), k, []);
    Concat(s, run, more);
    run := run + more;
    CreditTotals(p, user, s.now, k);
    AboveBound(p, k);
  }

  /** With one order a day: all but one request get past the order count first, then the last
      one gives back value, and then the others pass the value check. */
  lemma HeldRun(s: System, user: string) returns (run: seq<Event>)
    requires MayTrade(s, user) && Exposed(PolicyOf(s, user)) && |s.flights| >= 2
    requires PolicyOf(s, user).maxOrdersPerDay >= 1 && PolicyOf(s, user).maxOrdersPerMinute >= 1
    ensures CanRun(s, run)
    ensures var orders, p, opening := LogOf(RunOf(s, run), user).orders, PolicyOf(s, user), NextOpening(s.now);
            && orders == [CreditOrder(p, user, s.now)] + Copies(|s.flights| - 1, LargeOrder(p, user, s.now))
            && Until(orders, opening)
            && Total(DailyValue, orders, ResetBoundary(opening)) == (|s.flights| - 1) * p.maxSingleOrder.amount
  {
    hide Initial, CanRun, RunOf, PolicyOf, Permitted, OneKeyCheck, OrderOf, Req, ExternalsAgree, Nine, FivePastNine,
      NextOpening, Exposed, Open, CreditArgs, LargeArgs, Until, Total, ResetBoundary, LatePermitted, Unlimited, Before,
      Copies, Ticks;
    var m, p := |s.flights| - 1, PolicyOf(s, user);
    BeforeTheOpening(s.now);
    IdleSlots(s);
    CreditHasNoKey(p, user);
    run := OpenUp(s, user);
    var s1 := RunOf(s, run);
    LargeIsHeld(LogOf(s1, user), p, user, s.now);
    EverybodyAgrees(s1.guard.checks, Nine(s.now));
    var held := HoldAll(s1, user, p, LargeArgs(p), World(Nine(s.now)), 0, m, [Idle]);
    Concat(s, run, held);
    run := run + held;
    var s2 := RunOf(s, run);
    var credit := GiveBack(s2, user, p, s.now, m);
    Concat(s, run, credit);
    run := run + credit;
    var s3 := RunOf(s, run);
    var more := ResumeAndRecord(s3, user, p, s.now, m);
    Concat(s, run, more);
    run := run + more;
    CreditTotals(p, user, s.now, m);
  }

  /** The held requests pass the value check and are recorded at the opening. */
  lemma ResumeAndRecord(s: System, user: string, p: Limits, now: Time, m: nat) returns (run: seq<Event>)
    requires Open(s, user, p) && s.now <= FivePastNine(now) && Exposed(p)
    requires Lined(s.flights, m, m, Held(user, LargeArgs(p), s.guard.checks), Idle, [Idle])
    requires LogOf(s, user).orders == [CreditOrder(p, user, now)]
    ensures CanRun(s, run)
    ensures LogOf(RunOf(s, run), user).orders == [CreditOrder(p, user, now)] + Copies(m, LargeOrder(p, user, now))
  {
    hide CanRun, RunOf, OrderOf, Req, ExternalsAgree, Nine, FivePastNine, NextOpening, Exposed, Open, CreditArgs,
      LargeArgs, LatePermitted, Before, Copies, Ticks, CreditOrder;
    BeforeTheOpening(now);
    CreditHasNoKey(p, user);
    OpenUser(s, user, p);
    LargeIsCovered(LogOf(s, user), p, user, now);
    EverybodyAgrees(s.guard.checks, FivePastNine(now));
    run := ResumeAll(s, user, p, LargeArgs(p), World(FivePastNine(now)), 0, m, [Idle]);
    var middle, f := RunOf(s, run), Waiting(user, LargeArgs(p), s.guard.checks);
    var more := RecordAll(middle, user, p, f, World(NextOpening(now)), 0, m, [Idle]);
    Concat(s, run, more);
    run := run + more;
  }

  lemma CreditTotals(p: Limits, user: string, now: Time, n: nat)
    requires Exposed(p)
    ensures var orders := [CreditOrder(p, user, now)] + Copies(n, LargeOrder(p, user, now));
            && Until(orders, NextOpening(now))
            && Total(DailyValue, orders, ResetBoundary(NextOpening(now))) == n * p.maxSingleOrder.amount
  {
    BeforeTheOpening(now);
    var first, e := CreditOrder(p, user, now), LargeOrder(p, user, now);
    AmoRequests(user, 1, p.maxSingleOrder.amount);
    CopiesAreCopies(n, e);
    CopiesAddUp(DailyValue, [first], n, e, e.at);
    TotalOfStale(DailyValue, [first], e.at);
    assert e.item.value == p.maxSingleOrder.amount;
    hide Total, ResetBoundary, NextOpening, Req, Copies, Nine;
  }

  // --- The bound ---

  lemma AboveBound(p: Limits, k: nat)
    requires Exposed(p) && k >= 1
    ensures ValueBound(p, k, false) == k * p.maxSingleOrder.amount > ValueBound(p, k, true)
  {
    var cap := p.maxSingleOrder.amount;
    assert k * cap == (k - 1) * cap + cap;
    MulMonotone(1, k, cap);
  }

  lemma HeldAboveBound(p: Limits, k: nat)
    requires Exposed(p) && k >= 2 && p.maxDailyValue.amount < 0
    ensures (k - 1) * p.maxSingleOrder.amount > ValueBound(p, k, true)
  {
    MulMonotone(1, k - 1, p.maxSingleOrder.amount);
  }

  /** The policies for which giving back value gains something, with so many in flight. */
  predicate Gains(p: Limits, k: nat) {
    && Exposed(p) && p.maxOrdersPerMinute >= 1
    && ((p.maxOrdersPerDay >= 2 && k >= 1) || (p.maxOrdersPerDay == 1 && p.maxDailyValue.amount < 0 && k >= 2))
  }

  /** Some interleaving puts more on one trading day than orders of natural quantity can. */
  ghost predicate CanExceed(s: System, user: string) {
    exists run, n: nat, t :: CanRun(s, run) && Exceeds(s, run, user, n, t)
  }

  ghost predicate Exceeds(s: System, run: seq<Event>, user: string, n: nat, t: Time)
    requires CanRun(s, run)
  {
    var orders := LogOf(RunOf(s, run), user).orders;
    && n <= |orders| && Until(orders[..n], t)
    && Total(DailyValue, orders[..n], ResetBoundary(t)) > ValueBound(PolicyOf(s, user), |s.flights|, true)
  }

  lemma GainsNothing(p: Limits, k: nat)
    requires !Gains(p, k)
    ensures || p.maxSingleOrder.amount <= Max(0, p.maxDailyValue.amount)
            || p.maxOrdersPerMinute <= 0 || p.maxOrdersPerDay <= 0 || k == 0
            || (p.maxOrdersPerDay == 1 && Max(0, p.maxDailyValue.amount) + (k - 1) * Max(0, p.maxSingleOrder.amount)
                                            <= ValueBound(p, k, true))
  {
  }

  lemma NothingExceeds(s: System, run: seq<Event>, user: string, n: nat, t: Time)
    requires MayTrade(s, user) && !Gains(PolicyOf(s, user), |s.flights|) && CanRun(s, run)
    ensures !Exceeds(s, run, user, n, t)
  {
    hide Initial, CanRun, RunOf, PolicyOf, OneKeyCheck, Total, ResetBoundary, Until, Gains, LogOf;
    var orders, k, p := LogOf(RunOf(s, run), user).orders, |s.flights|, PolicyOf(s, user);
    AtMostTheSlots(s, run, user);
    GainsNothing(p, k);
    if n <= |orders| && Until(orders[..n], t) {
      BoundedOvershoot(s, run, user, k, n, t);
      if p.maxOrdersPerMinute <= 0 || p.maxOrdersPerDay <= 0 {
        ShutMeansNone(s, run, user);
        TotalOfStale(DailyValue, [], ResetBoundary(t));
      } else if p.maxOrdersPerDay == 1 && k >= 1 {
        OneADayIsBounded(s, run, user, k, n, t);
      }
    }
  }

  /** For every start, every user and every number of slots: some interleaving exceeds the
      bound on value that natural quantities obey exactly when the per-order cap is above the
      daily limit, counted as zero when it is negative, some order can pass at all, and either
      two orders a day are allowed, or one is, the daily limit is negative, and there are two
      slots. */
  lemma ValueBoundFailsIff(s: System, user: string)
    requires MayTrade(s, user)
    ensures CanExceed(s, user) <==> Gains(PolicyOf(s, user), |s.flights|)
  {
    var k, p := |s.flights|, PolicyOf(s, user);
    hide MayTrade, CanRun, RunOf, PolicyOf, Total, ResetBoundary, NextOpening, Until, ValueBound, Exposed;
    if Gains(p, k) {
      var run: seq<Event>;
      if p.maxOrdersPerDay >= 2 {
        run := CreditRun(s, user);
        AboveBound(p, k);
      } else {
        run := HeldRun(s, user);
        HeldAboveBound(p, k);
      }
      var orders := LogOf(RunOf(s, run), user).orders;
      assert orders[..|orders|] == orders;
      assert Exceeds(s, run, user, |orders|, NextOpening(s.now));
    } else {
      forall run, n: nat, t | CanRun(s, run) ensures !Exceeds(s, run, user, n, t) {
        NothingExceeds(s, run, user, n, t);
      }
    }
  }
}
