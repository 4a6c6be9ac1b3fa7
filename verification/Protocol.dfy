/** The gate under concurrency: requests in flight advance by atomic steps, one lock section
    at a time, interleaved in any way with each other and with the operators' calls. */
module Protocol {
  import opened Base
  import opened Chain
  import opened Limits
  import opened Orders
  import opened History
  import opened GuardModel
  import KS = KillSwitch

  /** What a user is told. */
  datatype Reply =
    | Refused(reason: Reason, autoFrozen: bool)
    | HandlerFailed
    | OrderPlaced
    | StatusReport(status: UserStatus)

  /** Everything that ever happened to one user. */
  datatype UserLog = UserLog(
    orders: seq<Stamp<Order>>,
    bumps: seq<Stamp<()>>,
    rejections: seq<Stamp<()>>,
    keys: seq<Stamp<string>>,
    replies: seq<Reply>)

  const NO_LOG := UserLog([], [], [], [], [])

  /** Between two steps a request is entering, walking its snapshot of the chain (and, at its
      end, running the handler), or in one of the lock sections that follow. The second counter
      is the one part of the gate whose clock is read before its lock is taken: a request that
      asks it, or that bumps it, waits for the lock with its reading. */
  datatype Stage =
    | Entering
    | Checking
    | Asking(at: Time)
    | Counting(reason: Reason)
    | Tripping(reason: Reason)
    | Bumping
    | Incrementing(at: Time)
    | Recording

  datatype Flight = Idle | Busy(req: Request, stage: Stage, chain: seq<Check>, done: nat)

  datatype System = System(guard: GuardState, logs: map<string, UserLog>, flights: seq<Flight>, now: Time)

  datatype Action =
    | Begin(slot: nat, tool: string, email: string, args: ToolArgs)
    | Admit(slot: nat)
    | ReadClock(slot: nat)
    | Evaluate(slot: nat)
    | Count(slot: nat)
    | Trip(slot: nat)
    | Handle(slot: nat, succeeds: bool)
    | Bump(slot: nat)
    | Record(slot: nat)
    | FreezeUser(email: string, who: string, reason: string)
    | UnfreezeUser(email: string)
    | FreezeAll(who: string, reason: string)
    | UnfreezeAll
    | Report(email: string)
    | Sweep

  datatype Event = Event(action: Action, env: Env)

  function LogOf(s: System, user: string): UserLog {
    if user in s.logs then s.logs[user] else NO_LOG
  }

  function UserOf(f: Flight): string
    requires f.Busy?
  {
    Lower(f.req.email)
  }

  predicate OfRequest(a: Action) {
    a.Admit? || a.ReadClock? || a.Evaluate? || a.Count? || a.Trip? || a.Handle? || a.Bump? || a.Record?
  }

  /** The next check is the one that asks the second counter. */
  predicate AsksSecond(f: Flight)
    requires f.Busy?
  {
    f.done < |f.chain| && f.chain[f.done].rule.PerSecondRate?
  }

  /** The stage in which a request can take the given step. */
  predicate Ready(f: Flight, a: Action)
    requires OfRequest(a) && f.Busy?
  {
    match a
    case Admit(_) => f.stage.Entering?
    case ReadClock(_) => f.stage.Bumping? || (f.stage.Checking? && AsksSecond(f))
    case Evaluate(_) =>
      if f.stage.Asking? then AsksSecond(f) else f.stage.Checking? && f.done < |f.chain| && !AsksSecond(f)
    case Handle(_, _) => f.stage.Checking? && f.done >= |f.chain|
    case Count(_) => f.stage.Counting?
    case Trip(_) => f.stage.Tripping?
    case Bump(_) => f.stage.Incrementing?
    case Record(_) => f.stage.Recording?
  }

  predicate Enabled(s: System, e: Event) {
    && s.now <= e.env.now
    && (e.action.Begin? ==>
          && e.action.slot < |s.flights| && s.flights[e.action.slot].Idle?
          && e.action.tool in ORDER_TOOLS && e.action.email != "")
    && (OfRequest(e.action) ==>
          && e.action.slot < |s.flights| && s.flights[e.action.slot].Busy?
          && Ready(s.flights[e.action.slot], e.action))
  }

  /** What the next check of a request answers, on the clock reading it has. */
  function Answered(g: GuardState, f: Flight, env: Env): Verdict
    requires f.Busy? && f.done < |f.chain|
  {
    Judge(g, f.chain[f.done].rule, f.req, if f.stage.Asking? then env.(now := f.stage.at) else env)
  }

  /** What a request step does to the gate. */
  function GuardAfter(g: GuardState, f: Flight, a: Action, env: Env): GuardState
    requires OfRequest(a) && f.Busy? && Ready(f, a)
  {
    match a
    case Evaluate(_) => Effect(g, f.chain[f.done].rule, f.req, env)
    case Count(_) => CountRejection(g, UserOf(f), env.now)
    case Trip(_) => Breaker(g, UserOf(f), env)
    case Bump(_) => BumpSecond(g, UserOf(f), f.stage.at)
    case Record(_) => Track(g, UserOf(f), Some(f.req), env.now)
    case _ => g
  }

  /** Where a request step takes the request. */
  function FlightAfter(g: GuardState, f: Flight, a: Action, env: Env): Flight
    requires OfRequest(a) && f.Busy? && Ready(f, a)
  {
    match a
    case Admit(_) => if g.killSwitch.frozen then Idle else Busy(f.req, Checking, g.checks, 0)
    case ReadClock(_) => f.(stage := if f.stage.Bumping? then Incrementing(env.now) else Asking(env.now))
    case Evaluate(_) =>
      (match Answered(g, f, env)
       case Allow => f.(stage := Checking, done := f.done + 1)
       case Reject(reason) => if f.chain[f.done].counted then f.(stage := Counting(reason)) else Idle)
    case Count(_) => f.(stage := Tripping(f.stage.reason))
    case Handle(_, succeeds) => if succeeds then f.(stage := Bumping) else Idle
    case Bump(_) => f.(stage := Recording)
    case _ => Idle
  }

  /** What a request step adds to the log of its user. */
  function LogAfter(g: GuardState, l: UserLog, f: Flight, a: Action, env: Env): UserLog
    requires OfRequest(a) && f.Busy? && Ready(f, a)
  {
    match a
    case Admit(_) =>
      if g.killSwitch.frozen then l.(replies := l.replies + [Refused(GlobalFreeze, false)]) else l
    case ReadClock(_) => l
    case Evaluate(_) =>
      (match Answered(g, f, env)
       case Allow =>
         if f.chain[f.done].rule == ClientOrderId && f.req.clientOrderId != ""
         then l.(keys := l.keys + [Stamp(env.now, f.req.clientOrderId)]) else l
       case Reject(reason) =>
         if f.chain[f.done].counted then l else l.(replies := l.replies + [Refused(reason, false)]))
    case Count(_) => l.(rejections := l.rejections + [Stamp(env.now, ())])
    case Trip(_) => l.(replies := l.replies + [Refused(f.stage.reason, BreakerTrips(g, UserOf(f), env.now))])
    case Handle(_, succeeds) => if succeeds then l else l.(replies := l.replies + [HandlerFailed])
    case Bump(_) => l.(bumps := l.bumps + [Stamp(f.stage.at, ())])
    case Record(_) =>
      l.(orders := l.orders + [Stamp(env.now, OrderOf(Some(f.req)))], replies := l.replies + [OrderPlaced])
  }

  /** What an operator's or a reader's call does to the gate. */
  function GuardAfterCall(g: GuardState, a: Action, env: Env): GuardState {
    match a
    case FreezeUser(email, who, reason) => Freeze(g, email, who, reason, env)
    case UnfreezeUser(email) => Unfreeze(g, email, env)
    case FreezeAll(who, reason) => g.(killSwitch := KS.Apply(g.killSwitch, KS.FreezeGlobal(who, reason, env.now)))
    case UnfreezeAll => g.(killSwitch := KS.Apply(g.killSwitch, KS.UnfreezeGlobal))
    case Report(email) => Touch(g, Lower(email), env.now)
    case Sweep => Clean(g, env.now)
    case _ => g
  }

  function Step(s: System, e: Event): System
    requires Enabled(s, e)
  {
    if e.action.Begin? then
      var req := BuildRequest(e.action.email, e.action.tool, e.action.args);
      s.(flights := s.flights[e.action.slot := Busy(req, Entering, [], 0)], now := e.env.now)
    else if OfRequest(e.action) then
      var f := s.flights[e.action.slot];
      System(GuardAfter(s.guard, f, e.action, e.env),
             s.logs[UserOf(f) := LogAfter(s.guard, LogOf(s, UserOf(f)), f, e.action, e.env)],
             s.flights[e.action.slot := FlightAfter(s.guard, f, e.action, e.env)],
             e.env.now)
    else if e.action.Report? then
      var user := Lower(e.action.email);
      var l := LogOf(s, user);
      System(GuardAfterCall(s.guard, e.action, e.env),
             s.logs[user := l.(replies := l.replies + [StatusReport(Status(s.guard, user, e.env.now))])],
             s.flights, e.env.now)
    else
      s.(guard := GuardAfterCall(s.guard, e.action, e.env), now := e.env.now)
  }

  /** A guard that has loaded its limits, with a number of idle workers. */
  ghost predicate Initial(s: System) {
    && s.guard.trackers == map[] && s.guard.entries == map[] && s.guard.perUser == map[]
    && WellFormed(s.guard.checks)
    && (forall user :: user in s.guard.limits ==> RupeeLimits(s.guard.limits[user]))
    && s.logs == map[]
    && forall i :: 0 <= i < |s.flights| ==> s.flights[i].Idle?
  }

  predicate CanRun(s: System, run: seq<Event>)
    decreases |run|
  {
    run == [] || (Enabled(s, run[0]) && CanRun(Step(s, run[0]), run[1..]))
  }

  function RunOf(s: System, run: seq<Event>): System
    requires CanRun(s, run)
    decreases |run|
  {
    if run == [] then s else RunOf(Step(s, run[0]), run[1..])
  }

  /** The request can still be recorded. */
  predicate Bound(f: Flight) {
    f.Busy? && (f.stage.Checking? || f.stage.Asking? || f.stage.Bumping? || f.stage.Incrementing? || f.stage.Recording?)
  }

  /** A sum over the slots. */
  function Sum(w: Flight -> nat, flights: seq<Flight>): nat {
    if flights == [] then 0 else Sum(w, flights[..|flights| - 1]) + w(flights[|flights| - 1])
  }

  lemma {:induction false} SumUpdate(w: Flight -> nat, flights: seq<Flight>, i: nat, f: Flight)
    requires i < |flights|
    ensures Sum(w, flights[i := f]) == Sum(w, flights) - w(flights[i]) + w(f)
  {
    var n := |flights| - 1;
    if i < n {
      assert flights[i := f][..n] == flights[..n][i := f];
      SumUpdate(w, flights[..n], i, f);
    } else {
      assert flights[i := f][..n] == flights[..n];
    }
  }

  function Counted(f: Flight, user: string): nat {
    if f.Busy? && UserOf(f) == user then 1 else 0
  }

  function Counter(user: string): Flight -> nat {
    f => Counted(f, user)
  }

  /** How many requests of the user are in flight. */
  function InFlight(flights: seq<Flight>, user: string): nat {
    Sum(Counter(user), flights)
  }

  /** The user never has more than so many requests in flight. */
  predicate AtMost(s: System, run: seq<Event>, user: string, k: nat)
    requires CanRun(s, run)
    decreases |run|
  {
    InFlight(s.flights, user) <= k && (run == [] || AtMost(Step(s, run[0]), run[1..], user, k))
  }
}
