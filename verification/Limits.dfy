/** Per-user limits: defaults, effective values, and the row they are stored as. */
module Limits {
  import opened Base
  import opened Orders

  datatype Limits = Limits(
    maxSingleOrder: Money,
    maxOrdersPerDay: int,
    maxOrdersPerMinute: int,
    duplicateWindowSecs: int,
    maxDailyValue: Money,
    autoFreezeOnLimitHit: bool,
    requireConfirmAllOrders: bool,
    allowOffHours: bool,
    tradingFrozen: bool,
    frozenBy: string,
    frozenReason: string,
    frozenAt: Option<Time>)

  const SYSTEM_DEFAULTS := Limits(
    Inr(50_000 * RUPEE), 20, 10, 30, Inr(200_000 * RUPEE), true, true, false, false, "", "", None)

  /** The record created on demand: every limit "no override", the two switches copied
      from the defaults. */
  const ON_DEMAND := Limits(
    ZERO_MONEY, 0, 0, 0, ZERO_MONEY,
    SYSTEM_DEFAULTS.autoFreezeOnLimitHit, SYSTEM_DEFAULTS.requireConfirmAllOrders,
    false, false, "", "", None)

  /** A stored record with every "no override" field replaced by its default. */
  function Fill(l: Limits): Limits {
    l.(maxSingleOrder := if l.maxSingleOrder.IsZero() then SYSTEM_DEFAULTS.maxSingleOrder else l.maxSingleOrder,
       maxOrdersPerDay := if l.maxOrdersPerDay == 0 then SYSTEM_DEFAULTS.maxOrdersPerDay else l.maxOrdersPerDay,
       maxOrdersPerMinute :=
         if l.maxOrdersPerMinute == 0 then SYSTEM_DEFAULTS.maxOrdersPerMinute else l.maxOrdersPerMinute,
       duplicateWindowSecs :=
         if l.duplicateWindowSecs == 0 then SYSTEM_DEFAULTS.duplicateWindowSecs else l.duplicateWindowSecs,
       maxDailyValue := if l.maxDailyValue.IsZero() then SYSTEM_DEFAULTS.maxDailyValue else l.maxDailyValue)
  }

  function Effective(limits: map<string, Limits>, email: string): Limits {
    if Lower(email) in limits then Fill(limits[Lower(email)]) else SYSTEM_DEFAULTS
  }

  /** Everything but the freeze. */
  function Policy(l: Limits): Limits {
    l.(tradingFrozen := false, frozenBy := "", frozenReason := "", frozenAt := None)
  }

  function Frozen(l: Limits, who: string, reason: string, at: Time): Limits {
    l.(tradingFrozen := true, frozenBy := who, frozenReason := reason, frozenAt := Some(at))
  }

  function Thawed(l: Limits): Limits {
    l.(tradingFrozen := false, frozenBy := "", frozenReason := "", frozenAt := None)
  }

  function RecordFor(limits: map<string, Limits>, email: string): Limits {
    if email in limits then limits[email] else ON_DEMAND
  }

  /** Creating a record on demand, freezing it and thawing it all leave the effective
      policy of every user as it was. */
  lemma FreezingKeepsPolicies(limits: map<string, Limits>, owner: string, l: Limits, email: string)
    requires Policy(l) == Policy(RecordFor(limits, owner))
    ensures Policy(Effective(limits[owner := l], email)) == Policy(Effective(limits, email))
    ensures Lower(email) == owner ==> Effective(limits[owner := l], email).tradingFrozen == l.tradingFrozen
  {
    assert Policy(Fill(ON_DEMAND)) == Policy(SYSTEM_DEFAULTS);
    assert Policy(Fill(l)) == Fill(Policy(l));
  }

  // --- The stored row ---

  /** One row of the risk_limits table. Amounts lose their currency, switches become 0 or
      1, the freeze instant is written in whole seconds, and there is no off-hours column. */
  datatype Row = Row(
    maxSingleOrder: int,
    maxOrdersPerDay: int,
    maxOrdersPerMinute: int,
    duplicateWindowSecs: int,
    maxDailyValue: int,
    autoFreeze: int,
    requireConfirm: int,
    frozen: int,
    frozenAt: Option<int>,
    frozenBy: string,
    frozenReason: string)

  function Bit(b: bool): int {
    if b then 1 else 0
  }

  function Encode(l: Limits): Row {
    Row(l.maxSingleOrder.amount, l.maxOrdersPerDay, l.maxOrdersPerMinute, l.duplicateWindowSecs,
        l.maxDailyValue.amount, Bit(l.autoFreezeOnLimitHit), Bit(l.requireConfirmAllOrders), Bit(l.tradingFrozen),
        if l.frozenAt.Some? then Some(Seconds(l.frozenAt.value)) else None, l.frozenBy, l.frozenReason)
  }

  function Decode(r: Row): Limits {
    Limits(Inr(r.maxSingleOrder), r.maxOrdersPerDay, r.maxOrdersPerMinute, r.duplicateWindowSecs,
           Inr(r.maxDailyValue), r.autoFreeze != 0, r.requireConfirm != 0, false, r.frozen != 0,
           r.frozenBy, r.frozenReason,
           if r.frozenAt.Some? then Some(Span(r.frozenAt.value)) else None)
  }

  /** What a restart cannot preserve: sub-second freeze instants, the off-hours switch and
      currencies other than the rupee. */
  predicate Storable(l: Limits) {
    && !l.allowOffHours
    && (l.frozenAt.Some? ==> l.frozenAt.value % SECOND == 0)
    && l.maxSingleOrder.currency == INR
    && l.maxDailyValue.currency == INR
  }

  /** Two records that a user cannot tell apart, except for the second in which a freeze
      began and for the off-hours switch. */
  predicate AgreeAfterRestart(live: Limits, loaded: Limits) {
    && Policy(live).(allowOffHours := false) == Policy(loaded)
    && live.tradingFrozen == loaded.tradingFrozen
    && live.frozenBy == loaded.frozenBy
    && live.frozenReason == loaded.frozenReason
    && live.frozenAt.Some? == loaded.frozenAt.Some?
    && (live.frozenAt.Some? ==> loaded.frozenAt.value <= live.frozenAt.value < loaded.frozenAt.value + SECOND)
  }

  /** Amounts other than zero are in rupees, as every loader and default makes them. */
  predicate RupeeLimits(l: Limits) {
    && (l.maxSingleOrder.IsZero() || l.maxSingleOrder.currency == INR)
    && (l.maxDailyValue.IsZero() || l.maxDailyValue.currency == INR)
  }

  /** The row is a faithful copy exactly for storable records, and decoding always gives one. */
  lemma RowRoundTrip(l: Limits)
    ensures Decode(Encode(l)) == l <==> Storable(l)
    ensures Storable(Decode(Encode(l))) && RupeeLimits(Decode(Encode(l)))
    ensures RupeeLimits(l) ==> AgreeAfterRestart(Fill(l), Fill(Decode(Encode(l))))
  {
    var d := Decode(Encode(l));
    if l.frozenAt.Some? {
      var at := l.frozenAt.value;
      assert at == Span(Seconds(at)) + at % SECOND;
      assert d.frozenAt.value % SECOND == 0;
    }
    if Storable(l) {
      assert l.maxSingleOrder == Inr(l.maxSingleOrder.amount) && l.maxDailyValue == Inr(l.maxDailyValue.amount);
    }
  }

  /** Rows that were loaded once are stable: writing them back and loading again changes nothing. */
  lemma LoadedRowsAreStable(r: Row)
    ensures Decode(Encode(Decode(r))) == Decode(r)
  {
    RowRoundTrip(Decode(r));
    if r.frozenAt.Some? {
      assert (Span(r.frozenAt.value)) % SECOND == 0;
    }
  }
}
