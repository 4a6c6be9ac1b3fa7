/** The simple form of the bookkeeping: the full log of what a user ever did, and what
    each rule asks of it. A tracker represents such a log. */
module History {
  import opened Base
  import opened Calendar
  import opened Orders
  import opened Trackers
  import opened Windows

  /** A recorded order: its signature, when the caller supplied the request, and what it
      adds to the placed value. */
  datatype Order = Order(sig: Option<Signature>, value: int)

  function OrderOf(req: Option<Request>): Order {
    match req
    case None => Order(None, 0)
    case Some(r) => Order(Some(r.sig), r.Value())
  }

  /** The limits that bound a sum over a log of orders. */
  datatype Gate =
    | DailyCount
    | MinuteRate
    | SameOrder(sig: Signature)
    | DailyValue

  function Measure(g: Gate, o: Order): int {
    match g
    case DailyCount => 1
    case MinuteRate => 1
    case SameOrder(sig) => if o.sig == Some(sig) then 1 else 0
    case DailyValue => o.value
  }

  /** What the orders not before the cutoff add up to. */
  function Total(g: Gate, log: seq<Stamp<Order>>, cutoff: Time): int {
    if log == [] then 0
    else Total(g, log[..|log| - 1], cutoff)
         + if log[|log| - 1].at < cutoff then 0 else Measure(g, log[|log| - 1].item)
  }

  /** The start of the period that a gate looks at. */
  function Cutoff(g: Gate, windowSecs: int, now: Time): Time {
    match g
    case MinuteRate => now - RATE_WINDOW
    case SameOrder(_) => now - Span(windowSecs)
    case _ => ResetBoundary(now)
  }

  lemma {:induction false} TotalOfStale(g: Gate, log: seq<Stamp<Order>>, cutoff: Time)
    requires forall i :: 0 <= i < |log| ==> log[i].at < cutoff
    ensures Total(g, log, cutoff) == 0
  {
    if log != [] {
      TotalOfStale(g, log[..|log| - 1], cutoff);
    }
  }

  lemma {:induction false} TotalShrinks(g: Gate, log: seq<Stamp<Order>>, early: Time, late: Time)
    requires early <= late && !g.DailyValue?
    ensures 0 <= Total(g, log, late) <= Total(g, log, early)
  {
    if log != [] {
      TotalShrinks(g, log[..|log| - 1], early, late);
    }
  }

  lemma TotalAppend(g: Gate, log: seq<Stamp<Order>>, e: Stamp<Order>, cutoff: Time)
    ensures Total(g, log + [e], cutoff) == Total(g, log, cutoff) + if e.at < cutoff then 0 else Measure(g, e.item)
  {
    assert (log + [e])[..|log|] == log;
  }

  // --- What the windows hold ---

  function Instants(log: seq<Stamp<Order>>): seq<Stamp<()>> {
    if log == [] then [] else Instants(log[..|log| - 1]) + [Stamp(log[|log| - 1].at, ())]
  }

  function Params(log: seq<Stamp<Order>>): seq<Stamp<Signature>> {
    if log == [] then []
    else
      var last := log[|log| - 1];
      Params(log[..|log| - 1]) + if last.item.sig.Some? then [Stamp(last.at, last.item.sig.value)] else []
  }

  lemma ProjectionsAppend(log: seq<Stamp<Order>>, e: Stamp<Order>)
    ensures Instants(log + [e]) == Instants(log) + [Stamp(e.at, ())]
    ensures Params(log + [e]) ==
              if e.item.sig.Some? then Params(log) + [Stamp(e.at, e.item.sig.value)] else Params(log)
  {
    assert (log + [e])[..|log|] == log;
  }

  lemma {:induction false} ProjectionsSorted(log: seq<Stamp<Order>>, now: Time)
    requires Sorted(log) && Until(log, now)
    ensures Sorted(Instants(log)) && Until(Instants(log), now)
    ensures Sorted(Params(log)) && Until(Params(log), now)
  {
    if log != [] {
      ProjectionsSorted(log[..|log| - 1], log[|log| - 1].at);
    }
  }

  lemma {:induction false} RateIsTotal(log: seq<Stamp<Order>>, cutoff: Time)
    ensures |Since(Instants(log), cutoff)| == Total(MinuteRate, log, cutoff)
  {
    if log != [] {
      var front, last := log[..|log| - 1], Stamp(log[|log| - 1].at, ());
      RateIsTotal(front, cutoff);
      SinceAppend(Instants(front), [last], cutoff);
    }
  }

  ghost predicate Holds(window: seq<Stamp<Signature>>, sig: Signature) {
    exists i :: 0 <= i < |window| && window[i].item == sig
  }

  lemma {:induction false} DuplicateIsTotal(log: seq<Stamp<Order>>, sig: Signature, cutoff: Time)
    ensures Holds(Since(Params(log), cutoff), sig) <==> Total(SameOrder(sig), log, cutoff) > 0
    ensures Total(SameOrder(sig), log, cutoff) >= 0
  {
    if log != [] {
      var front, last := log[..|log| - 1], log[|log| - 1];
      DuplicateIsTotal(front, sig, cutoff);
      var a := Since(Params(front), cutoff);
      if last.item.sig.Some? {
        var e := Stamp(last.at, last.item.sig.value);
        SinceAppend(Params(front), [e], cutoff);
        var b := Since([e], cutoff);
        assert b == if e.at < cutoff then [] else [e];
        assert forall i :: 0 <= i < |a| ==> (a + b)[i] == a[i];
        assert b != [] ==> (a + b)[|a|] == e;
      } else {
        assert Params(log) == Params(front);
      }
    }
  }

  // --- Representation ---

  ghost predicate Ordered<T>(log: seq<Stamp<T>>, now: Time) {
    Sorted(log) && Until(log, now)
  }

  /** The day counters hold the totals since the opening before the last reset, and no
      order that is older than the next opening is still to be counted. */
  ghost predicate CountersOk(t: Tracker, log: seq<Stamp<Order>>, now: Time) {
    && t.dayResetAt <= now
    && (forall i :: 0 <= i < |log| ==> ResetBoundary(log[i].at) <= t.dayResetAt)
    && t.dailyOrderCount == Total(DailyCount, log, ResetBoundary(t.dayResetAt))
    && t.dailyPlacedValue.amount == Total(DailyValue, log, ResetBoundary(t.dayResetAt))
    && (t.dailyPlacedValue.IsZero() || t.dailyPlacedValue.currency == INR)
  }

  ghost predicate OrdersOk(t: Tracker, log: seq<Stamp<Order>>, now: Time) {
    Tail(t.recentOrders, Instants(log), now - RATE_WINDOW)
  }

  ghost predicate ParamsOk(t: Tracker, log: seq<Stamp<Order>>, windowSecs: int, now: Time) {
    Tail(t.recentParams, Params(log), now - Span(windowSecs))
  }

  ghost predicate RejectionsOk(t: Tracker, rejections: seq<Stamp<()>>, now: Time) {
    Ordered(rejections, now) && Tail(t.recentRejections, rejections, now - AUTO_FREEZE_WINDOW)
  }

  /** The tracker is what lazy resets and prefix pruning have left of these full logs. */
  ghost predicate Represents(
    t: Tracker, log: seq<Stamp<Order>>, rejections: seq<Stamp<()>>, windowSecs: int, now: Time)
  {
    && Ordered(log, now)
    && CountersOk(t, log, now)
    && OrdersOk(t, log, now)
    && ParamsOk(t, log, windowSecs, now)
    && RejectionsOk(t, rejections, now)
  }

  lemma NewTrackerRepresents(windowSecs: int, now: Time)
    ensures Represents(NewTracker(now), [], [], windowSecs, now)
  {
  }

  lemma TimePasses(
    t: Tracker, log: seq<Stamp<Order>>, rejections: seq<Stamp<()>>, windowSecs: int, earlier: Time, now: Time)
    requires Represents(t, log, rejections, windowSecs, earlier) && earlier <= now
    ensures Represents(t, log, rejections, windowSecs, now)
  {
  }

  /** After the lazy reset the counters are the totals since the latest 09:15 IST, whichever
      earlier operations did or did not trigger a reset. */
  lemma ResetRefines(
    t: Tracker, log: seq<Stamp<Order>>, rejections: seq<Stamp<()>>, windowSecs: int, earlier: Time, now: Time)
    requires Represents(t, log, rejections, windowSecs, earlier) && earlier <= now
    ensures Represents(ResetDay(t, now), log, rejections, windowSecs, now)
    ensures ResetDay(t, now).dailyOrderCount == Total(DailyCount, log, ResetBoundary(now))
    ensures ResetDay(t, now).dailyPlacedValue.amount == Total(DailyValue, log, ResetBoundary(now))
    ensures ResetBoundary(ResetDay(t, now).dayResetAt) == ResetBoundary(now) <= ResetDay(t, now).dayResetAt
    ensures var placed := ResetDay(t, now).dailyPlacedValue; placed.IsZero() || placed.currency == INR
  {
    TimePasses(t, log, rejections, windowSecs, earlier, now);
    BoundaryMonotone(t.dayResetAt, now);
    BoundaryMonotone(now, now);
    if DayIsStale(t, now) {
      forall i | 0 <= i < |log| ensures log[i].at < ResetBoundary(now) && ResetBoundary(log[i].at) <= now {
        BoundaryMonotone(log[i].at, now);
      }
      TotalOfStale(DailyCount, log, ResetBoundary(now));
      TotalOfStale(DailyValue, log, ResetBoundary(now));
    }
  }

  /** The pruned order window holds exactly the orders of the closed last minute. */
  lemma RateRefines(
    t: Tracker, log: seq<Stamp<Order>>, rejections: seq<Stamp<()>>, windowSecs: int, earlier: Time, now: Time)
    requires Represents(t, log, rejections, windowSecs, earlier) && earlier <= now
    ensures Represents(PruneOrders(t, now), log, rejections, windowSecs, now)
    ensures PruneOrders(t, now).recentOrders == Since(Instants(log), now - RATE_WINDOW)
    ensures |PruneOrders(t, now).recentOrders| == Total(MinuteRate, log, Cutoff(MinuteRate, windowSecs, now))
  {
    hide Tail, Sorted, Until;
    TimePasses(t, log, rejections, windowSecs, earlier, now);
    ProjectionsSorted(log, now);
    PruneAnswersForLog(t.recentOrders, Instants(log), now - RATE_WINDOW, now - RATE_WINDOW);
    RateIsTotal(log, now - RATE_WINDOW);
  }

  /** The pruned signature window holds exactly the signatures of the closed duplicate window. */
  lemma DuplicateRefines(
    t: Tracker, log: seq<Stamp<Order>>, rejections: seq<Stamp<()>>, windowSecs: int, earlier: Time, now: Time,
    sig: Signature)
    requires Represents(t, log, rejections, windowSecs, earlier) && earlier <= now
    ensures Represents(PruneParams(t, windowSecs, now), log, rejections, windowSecs, now)
    ensures PruneParams(t, windowSecs, now).recentParams == Since(Params(log), now - Span(windowSecs))
    ensures Holds(PruneParams(t, windowSecs, now).recentParams, sig) <==>
              Total(SameOrder(sig), log, Cutoff(SameOrder(sig), windowSecs, now)) > 0
  {
    hide Tail, Sorted, Until, Holds, Total, Since, Params, DropStale;
    TimePasses(t, log, rejections, windowSecs, earlier, now);
    ProjectionsSorted(log, now);
    PruneAnswersForLog(t.recentParams, Params(log), now - Span(windowSecs), now - Span(windowSecs));
    DuplicateIsTotal(log, sig, now - Span(windowSecs));
  }

  /** The pruned rejection window holds exactly the counted rejections of the closed last
      five minutes. */
  lemma RejectionsRefine(
    t: Tracker, log: seq<Stamp<Order>>, rejections: seq<Stamp<()>>, windowSecs: int, earlier: Time, now: Time)
    requires Represents(t, log, rejections, windowSecs, earlier) && earlier <= now
    ensures Represents(PruneRejections(t, now), log, rejections, windowSecs, now)
    ensures PruneRejections(t, now).recentRejections == Since(rejections, now - AUTO_FREEZE_WINDOW)
  {
    hide Tail, Sorted, Until;
    TimePasses(t, log, rejections, windowSecs, earlier, now);
    PruneAnswersForLog(t.recentRejections, rejections, now - AUTO_FREEZE_WINDOW, now - AUTO_FREEZE_WINDOW);
  }

  lemma RejectionIsLogged(
    t: Tracker, log: seq<Stamp<Order>>, rejections: seq<Stamp<()>>, windowSecs: int, earlier: Time, now: Time)
    requires Represents(t, log, rejections, windowSecs, earlier) && earlier <= now
    ensures Represents(AddRejection(t, now), log, rejections + [Stamp(now, ())], windowSecs, now)
  {
    hide Tail, Sorted, Until;
    TimePasses(t, log, rejections, windowSecs, earlier, now);
    OrderedAppend(rejections, now, Stamp(now, ()));
    TailAppend(t.recentRejections, rejections, now - AUTO_FREEZE_WINDOW, Stamp(now, ()));
  }

  lemma OrderIsCounted(t: Tracker, log: seq<Stamp<Order>>, now: Time, req: Option<Request>)
    requires CountersOk(t, log, now) && !DayIsStale(t, now)
    requires req.Some? ==> req.value.InRupees()
    ensures CountersOk(AddOrder(t, req, now), log + [Stamp(now, OrderOf(req))], now)
  {
    var e := Stamp(now, OrderOf(req));
    BoundaryMonotone(t.dayResetAt, now);
    TotalAppend(DailyCount, log, e, ResetBoundary(t.dayResetAt));
    TotalAppend(DailyValue, log, e, ResetBoundary(t.dayResetAt));
    hide Total;
    var next := AddOrder(t, req, now);
    assert next.dayResetAt == t.dayResetAt;
  }

  lemma OrderIsWindowed(
    t: Tracker, log: seq<Stamp<Order>>, windowSecs: int, now: Time, req: Option<Request>)
    requires OrdersOk(t, log, now) && ParamsOk(t, log, windowSecs, now) && !DayIsStale(t, now)
    ensures OrdersOk(AddOrder(t, req, now), log + [Stamp(now, OrderOf(req))], now)
    ensures ParamsOk(AddOrder(t, req, now), log + [Stamp(now, OrderOf(req))], windowSecs, now)
  {
    hide Tail;
    ProjectionsAppend(log, Stamp(now, OrderOf(req)));
    TailAppend(t.recentOrders, Instants(log), now - RATE_WINDOW, Stamp(now, ()));
    if req.Some? {
      TailAppend(t.recentParams, Params(log), now - Span(windowSecs), Stamp(now, req.value.sig));
    }
  }

  /** Recording an order appends it to the log that the tracker represents. */
  lemma OrderIsLogged(
    t: Tracker, log: seq<Stamp<Order>>, rejections: seq<Stamp<()>>, windowSecs: int, earlier: Time, now: Time,
    req: Option<Request>)
    requires Represents(t, log, rejections, windowSecs, earlier) && earlier <= now
    requires req.Some? ==> req.value.InRupees()
    ensures Represents(AddOrder(t, req, now), log + [Stamp(now, OrderOf(req))], rejections, windowSecs, now)
  {
    hide Tail, Sorted, Until, CountersOk, OrdersOk, ParamsOk;
    ResetRefines(t, log, rejections, windowSecs, earlier, now);
    var r := ResetDay(t, now);
    assert ResetDay(r, now) == r;
    OrderedAppend(log, now, Stamp(now, OrderOf(req)));
    OrderIsCounted(r, log, now, req);
    OrderIsWindowed(r, log, windowSecs, now, req);
  }
}
