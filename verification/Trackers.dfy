/** Per-user bookkeeping: lazily reset day counters and pruned windows. */
module Trackers {
  import opened Base
  import opened Calendar
  import opened Orders
  import opened Windows

  const RATE_WINDOW: Time := 60 * SECOND
  const AUTO_FREEZE_WINDOW: Time := 5 * MINUTE
  const AUTO_FREEZE_THRESHOLD := 3

  /** The value of a user's tracker. */
  datatype Tracker = Tracker(
    dailyOrderCount: int,
    dayResetAt: Time,
    recentOrders: seq<Stamp<()>>,
    recentParams: seq<Stamp<Signature>>,
    dailyPlacedValue: Money,
    recentRejections: seq<Stamp<()>>)

  function NewTracker(now: Time): Tracker {
    Tracker(0, now, [], [], ZERO_MONEY, [])
  }

  predicate DayIsStale(t: Tracker, now: Time) {
    t.dayResetAt < ResetBoundary(now)
  }

  function ResetDay(t: Tracker, now: Time): Tracker {
    if DayIsStale(t, now) then t.(dailyOrderCount := 0, dailyPlacedValue := ZERO_MONEY, dayResetAt := now) else t
  }

  function PruneOrders(t: Tracker, now: Time): Tracker {
    t.(recentOrders := DropStale(t.recentOrders, now - RATE_WINDOW))
  }

  function PruneParams(t: Tracker, windowSecs: int, now: Time): Tracker {
    t.(recentParams := DropStale(t.recentParams, now - Span(windowSecs)))
  }

  function PruneRejections(t: Tracker, now: Time): Tracker {
    t.(recentRejections := DropStale(t.recentRejections, now - AUTO_FREEZE_WINDOW))
  }

  function AddRejection(t: Tracker, now: Time): Tracker {
    t.(recentRejections := t.recentRejections + [Stamp(now, ())])
  }

  /** The running total after one more order; a total in another currency is left alone. */
  function AddValue(placed: Money, notional: Money): Money {
    if placed.IsZero() then notional
    else if placed.Add(notional).Some? then placed.Add(notional).value
    else placed
  }

  function AddOrder(t: Tracker, req: Option<Request>, now: Time): Tracker {
    var t := ResetDay(t, now);
    var t := t.(dailyOrderCount := t.dailyOrderCount + 1, recentOrders := t.recentOrders + [Stamp(now, ())]);
    match req
    case None => t
    case Some(r) =>
      t.(recentParams := t.recentParams + [Stamp(now, r.sig)],
         dailyPlacedValue :=
           if r.price.IsPositive() then AddValue(t.dailyPlacedValue, r.Notional()) else t.dailyPlacedValue)
  }
}
