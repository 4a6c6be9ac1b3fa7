/** The gate as a value: what each operation does to the state and what it answers. The
    imperative Guard is proved to compute exactly these functions. */
module GuardModel {
  import opened Base
  import opened Calendar
  import opened Chain
  import opened Dedup
  import opened Limits
  import opened Orders
  import opened PerSecond
  import opened Trackers
  import KS = KillSwitch

  datatype Reason =
    | GlobalFreeze
    | TradingFrozen
    | ConfirmationMissing
    | OrderValueLimit
    | DailyOrderLimit
    | PerSecondRateExceeded
    | RateLimitHit
    | DuplicateSubmission
    | DailyValueLimit
    | OffHoursBlocked
    | MarketClosed
    | CheckPanic
    | Custom(text: string)

  datatype Verdict = Allow | Reject(reason: Reason)

  /** What an external check does when it is called: a panic is recovered by the gate. */
  datatype Outcome = Answer(verdict: Verdict) | Panic

  /** What the world supplies to one operation: the instant, the answers of external checks,
      and whether a database is wired and its write succeeds. */
  datatype Env = Env(now: Time, external: string -> Outcome, stores: bool)

  datatype CheckResult = Allowed | Blocked(reason: Reason, autoFrozen: bool)

  datatype GuardState = GuardState(
    trackers: map<string, Tracker>,
    limits: map<string, Limits>,
    entries: map<string, Time>,
    perUser: map<string, Bucket>,
    killSwitch: KS.KillSwitch,
    checks: seq<Check>,
    table: map<string, Row>)

  const BREAKER := "riskguard:circuit-breaker"
  const BREAKER_REASON := "Automatic safety freeze: repeated limit violations"

  function TrackerOf(trackers: map<string, Tracker>, user: string, now: Time): Tracker {
    if user in trackers then trackers[user] else NewTracker(now)
  }

  function WithTracker(g: GuardState, user: string, t: Tracker): GuardState {
    g.(trackers := g.trackers[user := t])
  }

  predicate IsFrozen(g: GuardState, user: string) {
    user in g.limits && g.limits[user].tradingFrozen
  }

  /** Limits are written through: the record and its row change together. */
  function WithLimits(g: GuardState, user: string, l: Limits, stores: bool): GuardState {
    g.(limits := g.limits[user := l], table := if stores then g.table[user := Encode(l)] else g.table)
  }

  function Freeze(g: GuardState, email: string, who: string, reason: string, env: Env): GuardState {
    WithLimits(g, Lower(email), Frozen(RecordFor(g.limits, Lower(email)), who, reason, env.now), env.stores)
  }

  function Unfreeze(g: GuardState, email: string, env: Env): GuardState {
    WithLimits(g, Lower(email), Thawed(RecordFor(g.limits, Lower(email))), env.stores)
  }

  // --- Checks ---

  predicate ExceedsDailyValue(placed: Money, notional: Money, cap: Money) {
    var cumulative := if placed.IsZero() then Some(notional) else placed.Add(notional);
    cumulative.Some? && cumulative.value.GreaterThan(cap) == Some(true)
  }

  function Decide(pass: bool, reason: Reason): Verdict {
    if pass then Allow else Reject(reason)
  }

  /** The state that a check leaves behind, whatever it answers. */
  function Effect(g: GuardState, rule: Rule, req: Request, env: Env): (r: GuardState)
    ensures r == g.(trackers := r.trackers, entries := r.entries)
    ensures forall user :: user != Lower(req.email) ==> Get(r.trackers, user) == Get(g.trackers, user)
  {
    var user := Lower(req.email);
    var t := TrackerOf(g.trackers, user, env.now);
    var limits := Effective(g.limits, req.email);
    match rule
    case DailyOrderCount => WithTracker(g, user, ResetDay(t, env.now))
    case RateLimit => WithTracker(g, user, PruneOrders(t, env.now))
    case ClientOrderId =>
      if req.clientOrderId == "" then g
      else g.(entries := Added(g.entries, DEFAULT_TTL, HashInput(user, req.clientOrderId), env.now))
    case DuplicateOrder =>
      if limits.duplicateWindowSecs <= 0 then g
      else WithTracker(g, user, PruneParams(t, limits.duplicateWindowSecs, env.now))
    case DailyValueCap =>
      if !req.price.IsPositive() then g else WithTracker(g, user, ResetDay(t, env.now))
    case _ => g
  }

  /** What a check answers. */
  function Judge(g: GuardState, rule: Rule, req: Request, env: Env): Verdict {
    var user := Lower(req.email);
    var t := TrackerOf(g.trackers, user, env.now);
    var limits := Effective(g.limits, req.email);
    match rule
    case KillSwitchRule => Decide(!IsFrozen(g, user), TradingFrozen)
    case ConfirmationRequired => Decide(!limits.requireConfirmAllOrders || req.confirmed, ConfirmationMissing)
    case OrderValue =>
      Decide(!req.price.IsPositive() || req.Notional().GreaterThan(limits.maxSingleOrder) != Some(true),
             OrderValueLimit)
    case DailyOrderCount =>
      Decide(ResetDay(t, env.now).dailyOrderCount < limits.maxOrdersPerDay, DailyOrderLimit)
    case PerSecondRate =>
      Decide(CurrentCount(Get(g.perUser, user), env.now) < MAX_ORDERS_PER_SECOND, PerSecondRateExceeded)
    case RateLimit =>
      Decide(|PruneOrders(t, env.now).recentOrders| < limits.maxOrdersPerMinute, RateLimitHit)
    case ClientOrderId =>
      Decide(req.clientOrderId == "" || !Seen(g.entries, DEFAULT_TTL, HashInput(user, req.clientOrderId), env.now),
            DuplicateSubmission)
    case DuplicateOrder =>
      Decide(limits.duplicateWindowSecs <= 0 ||
            forall i :: 0 <= i < |PruneParams(t, limits.duplicateWindowSecs, env.now).recentParams| ==>
              PruneParams(t, limits.duplicateWindowSecs, env.now).recentParams[i].item != req.sig,
            DuplicateSubmission)
    case DailyValueCap =>
      Decide(!req.price.IsPositive() ||
            !ExceedsDailyValue(ResetDay(t, env.now).dailyPlacedValue, req.Notional(), limits.maxDailyValue),
            DailyValueLimit)
    case OffHoursBlock => Decide(limits.allowOffHours || !OffHours(env.now), OffHoursBlocked)
    case MarketHours => Decide(MarketAllows(env.now, req.variety), MarketClosed)
    case External(name) =>
      match env.external(name)
      case Answer(v) => v
      case Panic => Reject(CheckPanic)
  }

  function CountRejection(g: GuardState, user: string, now: Time): GuardState {
    WithTracker(g, user, AddRejection(TrackerOf(g.trackers, user, now), now))
  }

  /** Whether the breaker, run now, would freeze a user who is not frozen yet. */
  predicate BreakerTrips(g: GuardState, user: string, now: Time) {
    && Effective(g.limits, user).autoFreezeOnLimitHit
    && |PruneRejections(TrackerOf(g.trackers, user, now), now).recentRejections| >= AUTO_FREEZE_THRESHOLD
    && !IsFrozen(g, user)
  }

  function Breaker(g: GuardState, user: string, env: Env): (r: GuardState)
    ensures r == g.(trackers := r.trackers, limits := r.limits, table := r.table)
  {
    if !Effective(g.limits, user).autoFreezeOnLimitHit then g
    else
      var g' := WithTracker(g, user, PruneRejections(TrackerOf(g.trackers, user, env.now), env.now));
      if BreakerTrips(g, user, env.now) then
        WithLimits(g', user, Frozen(RecordFor(g.limits, user), BREAKER, BREAKER_REASON, env.now), env.stores)
      else g'
  }

  /** What a rejection by this check leads to: counted ones feed the breaker. */
  function Refused(g: GuardState, c: Check, user: string, env: Env): GuardState {
    if c.counted then Breaker(CountRejection(g, user, env.now), user, env) else g
  }

  function Refusal(g: GuardState, c: Check, reason: Reason, user: string, env: Env): CheckResult {
    Blocked(reason, c.counted && BreakerTrips(CountRejection(g, user, env.now), user, env.now))
  }

  /** The walk along the chain: the first rejection wins and later checks do not run. */
  function Walk(g: GuardState, chain: seq<Check>, req: Request, env: Env): (GuardState, CheckResult)
    decreases |chain|
  {
    if chain == [] then (g, Allowed)
    else
      var g' := Effect(g, chain[0].rule, req, env);
      match Judge(g, chain[0].rule, req, env)
      case Allow => Walk(g', chain[1..], req, env)
      case Reject(reason) =>
        (Refused(g', chain[0], Lower(req.email), env), Refusal(g', chain[0], reason, Lower(req.email), env))
  }

  function CheckOrder(g: GuardState, req: Request, env: Env): (GuardState, CheckResult) {
    if g.killSwitch.frozen then (g, Blocked(GlobalFreeze, false)) else Walk(g, g.checks, req, env)
  }

  // --- Recording and reporting ---

  function BumpSecond(g: GuardState, user: string, now: Time): GuardState {
    g.(perUser := g.perUser[user := Bumped(Get(g.perUser, user), now)])
  }

  function Track(g: GuardState, user: string, req: Option<Request>, now: Time): GuardState {
    WithTracker(g, user, AddOrder(TrackerOf(g.trackers, user, now), req, now))
  }

  function RecordOrder(g: GuardState, email: string, req: Option<Request>, env: Env): GuardState {
    Track(BumpSecond(g, Lower(email), env.now), Lower(email), req, env.now)
  }

  datatype UserStatus = UserStatus(
    dailyOrderCount: int,
    dailyPlacedValue: Money,
    isFrozen: bool,
    frozenBy: string,
    frozenReason: string,
    frozenAt: Option<Time>)

  function Touch(g: GuardState, user: string, now: Time): GuardState {
    WithTracker(g, user, ResetDay(TrackerOf(g.trackers, user, now), now))
  }

  function Status(g: GuardState, user: string, now: Time): UserStatus {
    var t := ResetDay(TrackerOf(g.trackers, user, now), now);
    if user in g.limits then
      var l := g.limits[user];
      UserStatus(t.dailyOrderCount, t.dailyPlacedValue, l.tradingFrozen, l.frozenBy, l.frozenReason, l.frozenAt)
    else UserStatus(t.dailyOrderCount, t.dailyPlacedValue, false, "", "", None)
  }

  function Clean(g: GuardState, now: Time): GuardState {
    g.(entries := Swept(g.entries, DEFAULT_TTL, now))
  }

  // --- Start-up ---

  const FRESH := GuardState(map[], map[], map[], map[], KS.OPEN, BUILTINS, map[])

  /** Reading the table back, row by row; the key is normalised again. */
  function LoadRows(rows: seq<(string, Row)>, limits: map<string, Limits>): map<string, Limits> {
    if rows == [] then limits
    else LoadRows(rows[..|rows| - 1], limits)[Lower(rows[|rows| - 1].0) := Decode(rows[|rows| - 1].1)]
  }

  /** What the query for the limits gives: no table is wired, an error, or rows of which each
      is read or fails to be. */
  datatype Query = NoTable | QueryFailed | Rows(rows: seq<Option<(string, Row)>>)

  /** The rows in front of the first one that cannot be read. */
  function Readable(rows: seq<Option<(string, Row)>>): seq<(string, Row)> {
    if rows == [] || rows[0].None? then [] else [rows[0].value] + Readable(rows[1..])
  }

  function ReadableRows(answer: Query): seq<(string, Row)> {
    if answer.Rows? then Readable(answer.rows) else []
  }

  lemma {:induction false} ReadableFront(rows: seq<Option<(string, Row)>>, i: nat)
    requires i < |rows| && forall j :: 0 <= j < i ==> rows[j].Some?
    ensures rows[i].None? ==> Readable(rows) == Readable(rows[..i])
    ensures rows[i].Some? ==> Readable(rows[..i + 1]) == Readable(rows[..i]) + [rows[i].value]
  {
    if i > 0 {
      ReadableFront(rows[1..], i - 1);
      assert rows[..i][1..] == rows[1..][..i - 1] && rows[..i + 1][1..] == rows[1..][..i];
    }
  }
}
