/** The overshoot bounds cannot be improved: for every number of requests in flight there is
    an interleaving that reaches all of them at once. */
module Attained {
  import opened Base
  import opened Calendar
  import opened Limits
  import opened Orders
  import opened Trackers
  import opened Windows
  import opened History
  import opened Protocol
  import opened Bounds
  import opened Decision
  import opened Uninterrupted
  import opened Batch

  /** One order a day, one order a minute, one rupee per order and per day. */
  const TIGHT := SYSTEM_DEFAULTS.(
    maxOrdersPerDay := 1, maxOrdersPerMinute := 1, maxSingleOrder := Inr(RUPEE), maxDailyValue := Inr(RUPEE))

  const ARGS := ToolArgs(Signature("NSE", "INFY", "BUY", 1), RUPEE, 0, "LIMIT", true, "", "regular")

  /** A regular order on an open market that stays within the limits is permitted to a user
      who has placed none. */
  lemma FirstOrderIsPermitted(l: UserLog)
    requires l.orders == [] && l.bumps == []
    ensures Permitted(l, TIGHT, false, Req(USER, ARGS), World(NOW)) && Req(USER, ARGS).Value() == RUPEE
  {
    MarketIsOpen();
    hide OffHours, MarketAllows;
    assert Req(USER, ARGS).Notional() == Inr(RUPEE);
  }

  /** For every k there is a run with at most k requests of one user in flight after which
      the day holds the daily limit plus k - 1 orders, so does the minute, and the placed
      value exceeds its limit by k - 1 times the per-order cap. */
  lemma OvershootIsAttained(k: nat) returns (s: System, run: seq<Event>)
    requires k >= 1
    ensures Initial(s) && CanRun(s, run) && AtMost(s, run, USER, k)
    ensures var orders, p := LogOf(RunOf(s, run), USER).orders, PolicyOf(s, USER);
            && Until(orders, NOW)
            && Total(DailyCount, orders, ResetBoundary(NOW)) == p.maxOrdersPerDay + k - 1
            && Total(MinuteRate, orders, NOW - RATE_WINDOW) == p.maxOrdersPerMinute + k - 1
            && Total(DailyValue, orders, ResetBoundary(NOW)) ==
                 p.maxDailyValue.amount + (k - 1) * p.maxSingleOrder.amount
  {
    hide Initial, CanRun, RunOf, AtMost, Total, ResetBoundary, PolicyOf, Permitted, Open, Req, Start;
    s := Start(TIGHT, k);
    StartIsInitial(TIGHT, k);
    run := OpenUp(s, USER);
    var lifted := RunOf(s, run);
    FirstOrderIsPermitted(LogOf(lifted, USER));
    EverybodyAgrees(lifted.guard.checks, NOW);
    var more := PassThenRecord(lifted, USER, TIGHT, ARGS, World(NOW), World(NOW), k, []);
    Concat(s, run, more);
    run := run + more;
    AtMostTheSlots(s, run, USER);
    var e := Stamp(NOW, OrderOf(Some(Req(USER, ARGS))));
    assert LogOf(RunOf(s, run), USER).orders == [] + Copies(k, e);
    TightTotals(k, e);
  }

  lemma TightTotals(k: nat, e: Stamp<Order>)
    requires e.at == NOW && e.item.value == RUPEE
    ensures var orders := [] + Copies(k, e);
            && Until(orders, NOW)
            && Total(DailyCount, orders, ResetBoundary(NOW)) == k == Total(MinuteRate, orders, NOW - RATE_WINDOW)
            && Total(DailyValue, orders, ResetBoundary(NOW)) == k * RUPEE
  {
    BoundaryMonotone(NOW, NOW);
    CopiesAreCopies(k, e);
    CopiesAddUp(DailyCount, [], k, e, ResetBoundary(NOW));
    CopiesAddUp(MinuteRate, [], k, e, NOW - RATE_WINDOW);
    CopiesAddUp(DailyValue, [], k, e, ResetBoundary(NOW));
    hide ResetBoundary;
  }
}
