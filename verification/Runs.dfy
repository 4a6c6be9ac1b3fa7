/** Whole runs of one caller after another: any sequence of operations on a guard, with the
    full logs of every user read off the run. */
module Runs {
  import opened Base
  import opened Calendar
  import opened Chain
  import opened Dedup
  import opened Limits
  import opened Orders
  import opened Trackers
  import opened History
  import opened GuardModel
  import opened Tracking
  import opened Laws
  import opened PerSecond
  import KS = KillSwitch

  datatype Op =
    | Submit(req: Request)
    | Record(email: string, order: Option<Request>)
    | FreezeUser(email: string, who: string, reason: string)
    | UnfreezeUser(email: string)
    | FreezeAll(who: string, reason: string)
    | UnfreezeAll
    | Report(email: string)
    | Sweep

  datatype Event = Event(op: Op, env: Env)

  function Next(g: GuardState, e: Event): GuardState {
    match e.op
    case Submit(req) => CheckOrder(g, req, e.env).0
    case Record(email, req) => RecordOrder(g, email, req, e.env)
    case FreezeUser(email, who, reason) => Freeze(g, email, who, reason, e.env)
    case UnfreezeUser(email) => Unfreeze(g, email, e.env)
    case FreezeAll(who, reason) => g.(killSwitch := KS.Apply(g.killSwitch, KS.FreezeGlobal(who, reason, e.env.now)))
    case UnfreezeAll => g.(killSwitch := KS.Apply(g.killSwitch, KS.UnfreezeGlobal))
    case Report(email) => Touch(g, Lower(email), e.env.now)
    case Sweep => Clean(g, e.env.now)
  }

  function Run(start: GuardState, run: seq<Event>): GuardState {
    if run == [] then start else Next(Run(start, run[..|run| - 1]), run[|run| - 1])
  }

  /** The walk ends in a rejection that feeds the breaker. */
  predicate WalkCounts(g: GuardState, chain: seq<Check>, req: Request, env: Env)
    decreases |chain|
  {
    && chain != []
    && if Judge(g, chain[0].rule, req, env).Allow?
       then WalkCounts(Effect(g, chain[0].rule, req, env), chain[1..], req, env)
       else chain[0].counted
  }

  predicate Counts(g: GuardState, user: string, e: Event) {
    e.op.Submit? && Lower(e.op.req.email) == user && !g.killSwitch.frozen && WalkCounts(g, g.checks, e.op.req, e.env)
  }

  /** Every order recorded for the user. */
  function OrdersOf(run: seq<Event>, user: string): seq<Stamp<Order>> {
    if run == [] then []
    else
      var e := run[|run| - 1];
      var before := OrdersOf(run[..|run| - 1], user);
      if e.op.Record? && Lower(e.op.email) == user then before + [Stamp(e.env.now, OrderOf(e.op.order))] else before
  }

  /** Every rejection of the user that was counted towards the breaker. */
  function RejectionsOf(start: GuardState, run: seq<Event>, user: string): seq<Stamp<()>> {
    if run == [] then []
    else
      var e := run[|run| - 1];
      var before := RejectionsOf(start, run[..|run| - 1], user);
      if Counts(Run(start, run[..|run| - 1]), user, e) then before + [Stamp(e.env.now, ())] else before
  }

  /** The clock never runs backwards and ends at or before now; requests are priced in rupees. */
  ghost predicate Timely(run: seq<Event>, now: Time) {
    && (forall i, j :: 0 <= i < j < |run| ==> run[i].env.now <= run[j].env.now)
    && (forall i :: 0 <= i < |run| ==> run[i].env.now <= now)
    && (forall i :: 0 <= i < |run| && run[i].op.Record? && run[i].op.order.Some? ==> run[i].op.order.value.InRupees())
  }

  /** A guard at start-up: limits loaded, nothing tracked yet. */
  ghost predicate AtStart(g: GuardState) {
    g.trackers == map[] && g.entries == map[] && g.perUser == map[] && WellFormed(g.checks)
  }

  // --- The logs are represented ---

  lemma {:induction false} WalkFollows(
    g: GuardState, user: string, log: seq<Stamp<Order>>, rejections: seq<Stamp<()>>, windowSecs: int,
    earlier: Time, chain: seq<Check>, req: Request, env: Env)
    requires Follows(g, user, log, rejections, windowSecs, earlier) && earlier <= env.now
    ensures Follows(Walk(g, chain, req, env).0, user, log,
                    if Lower(req.email) == user && WalkCounts(g, chain, req, env)
                    then rejections + [Stamp(env.now, ())] else rejections,
                    windowSecs, env.now)
    decreases |chain|
  {
    hide Follows;
    if chain == [] {
      CurrentTracker(g, user, log, rejections, windowSecs, earlier, env.now);
    } else {
      var g', who := Effect(g, chain[0].rule, req, env), Lower(req.email);
      EffectFollows(g, user, log, rejections, windowSecs, earlier, chain[0].rule, req, env);
      if Judge(g, chain[0].rule, req, env).Allow? {
        WalkFollows(g', user, log, rejections, windowSecs, env.now, chain[1..], req, env);
      } else if chain[0].counted {
        var more := if who == user then rejections + [Stamp(env.now, ())] else rejections;
        CountFollows(g', user, log, rejections, windowSecs, env.now, who, env.now);
        BreakerFollows(CountRejection(g', who, env.now), user, log, more, windowSecs, env.now, who, env);
      }
    }
  }

  lemma NextFollows(
    g: GuardState, user: string, log: seq<Stamp<Order>>, rejections: seq<Stamp<()>>, windowSecs: int,
    earlier: Time, e: Event)
    requires Follows(g, user, log, rejections, windowSecs, earlier) && earlier <= e.env.now
    requires e.op.Record? && e.op.order.Some? ==> e.op.order.value.InRupees()
    ensures Follows(Next(g, e), user,
                    if e.op.Record? && Lower(e.op.email) == user
                    then log + [Stamp(e.env.now, OrderOf(e.op.order))] else log,
                    if Counts(g, user, e) then rejections + [Stamp(e.env.now, ())] else rejections,
                    windowSecs, e.env.now)
  {
    hide Represents, Walk, Encode, Fill, Bumped, ResetDay, AddOrder, Swept;
    CurrentTracker(g, user, log, rejections, windowSecs, earlier, e.env.now);
    match e.op
    case Submit(req) => WalkFollows(g, user, log, rejections, windowSecs, earlier, g.checks, req, e.env);
    case Record(email, req) =>
      TrackFollows(BumpSecond(g, Lower(email), e.env.now), user, log, rejections, windowSecs, e.env.now, Lower(email),
                   req, e.env.now);
    case FreezeUser(email, who, reason) =>
      FreezeFollows(g, user, log, rejections, windowSecs, e.env.now, Lower(email),
                    Frozen(RecordFor(g.limits, Lower(email)), who, reason, e.env.now), e.env.stores);
    case UnfreezeUser(email) =>
      FreezeFollows(g, user, log, rejections, windowSecs, e.env.now, Lower(email),
                    Thawed(RecordFor(g.limits, Lower(email))), e.env.stores);
    case Report(email) =>
      if Lower(email) == user {
        TouchFollows(g, user, log, rejections, windowSecs, e.env.now, e.env.now);
      }
    case _ =>
  }

  lemma TimelyFront(run: seq<Event>, now: Time)
    requires Timely(run, now) && run != []
    ensures var e := run[|run| - 1];
            && Timely(run[..|run| - 1], e.env.now) && e.env.now <= now
            && (e.op.Record? && e.op.order.Some? ==> e.op.order.value.InRupees())
  {
  }

  lemma StartFollows(start: GuardState, user: string, now: Time)
    requires AtStart(start) && Lower(user) == user
    ensures Follows(start, user, [], [], Effective(start.limits, user).duplicateWindowSecs, now)
  {
  }

  /** In every reachable state the gate holds the fast form of the full logs. */
  lemma {:induction false} RunFollows(start: GuardState, run: seq<Event>, user: string, now: Time)
    requires AtStart(start) && Timely(run, now) && Lower(user) == user
    ensures Follows(Run(start, run), user, OrdersOf(run, user), RejectionsOf(start, run, user),
                    Effective(start.limits, user).duplicateWindowSecs, now)
    decreases |run|
  {
    hide Follows, Next, Timely, Counts, Lower;
    var windowSecs := Effective(start.limits, user).duplicateWindowSecs;
    if run == [] {
      StartFollows(start, user, now);
    } else {
      var front, e := run[..|run| - 1], run[|run| - 1];
      TimelyFront(run, now);
      RunFollows(start, front, user, e.env.now);
      NextFollows(Run(start, front), user, OrdersOf(front, user), RejectionsOf(start, front, user),
                  windowSecs, e.env.now, e);
      CurrentTracker(Run(start, run), user, OrdersOf(run, user), RejectionsOf(start, run, user),
                     windowSecs, e.env.now, now);
    }
  }

  /** Lazy resets are invisible: whenever a status is asked for, the count is the number of
      recorded orders since the latest 09:15 IST, and the value is what they add up to,
      whichever operations came before. */
  lemma StatusIsHistory(start: GuardState, run: seq<Event>, email: string, now: Time)
    requires AtStart(start) && Timely(run, now)
    ensures var user := Lower(email);
            var s := Status(Run(start, run), user, now);
            && s.dailyOrderCount == Total(DailyCount, OrdersOf(run, user), ResetBoundary(now))
            && s.dailyPlacedValue.amount == Total(DailyValue, OrdersOf(run, user), ResetBoundary(now))
  {
    LowerIdempotent(email);
    var user := Lower(email);
    RunFollows(start, run, user, now);
    TouchFollows(Run(start, run), user, OrdersOf(run, user), RejectionsOf(start, run, user),
                 Effective(start.limits, user).duplicateWindowSecs, now, now);
  }

  // --- Limits and the table over whole runs ---

  lemma NextKeepsPolicies(g: GuardState, e: Event)
    ensures SamePolicies(g, Next(g, e))
  {
    hide Walk, SamePolicies, Effective, Encode;
    match e.op
    case Submit(req) =>
      SameLimitsSamePolicies(g, g);
      WalkKeepsPolicies(g, g.checks, req, e.env);
    case FreezeUser(email, who, reason) =>
      FreezeKeepsPolicies(g, Lower(email), Frozen(RecordFor(g.limits, Lower(email)), who, reason, e.env.now),
                          e.env.stores);
    case UnfreezeUser(email) =>
      FreezeKeepsPolicies(g, Lower(email), Thawed(RecordFor(g.limits, Lower(email))), e.env.stores);
    case _ => SameLimitsSamePolicies(g, Next(g, e));
  }

  /** Any sequence of checks, records, freezes, lifts and automatic freezes leaves every
      non-freeze limit of every user as it was at start-up. */
  lemma {:induction false} RunKeepsPolicies(start: GuardState, run: seq<Event>)
    ensures SamePolicies(start, Run(start, run))
  {
    if run != [] {
      var front := run[..|run| - 1];
      RunKeepsPolicies(start, front);
      NextKeepsPolicies(Run(start, front), run[|run| - 1]);
    }
  }

  lemma NextMirrors(g: GuardState, e: Event, user: string)
    requires Mirrored(g, user) && e.env.stores
    ensures Mirrored(Next(g, e), user)
  {
    hide Walk, Encode, Decode, Mirrored, AddOrder, ResetDay, Swept;
    match e.op
    case Submit(req) =>
      TrackersAreNotStored(g, g, user);
      WalkMirrors(g, g.checks, req, e.env, user);
    case FreezeUser(email, who, reason) =>
      WriteThroughMirrors(g, Lower(email), Frozen(RecordFor(g.limits, Lower(email)), who, reason, e.env.now), user);
    case UnfreezeUser(email) => WriteThroughMirrors(g, Lower(email), Thawed(RecordFor(g.limits, Lower(email))), user);
    case _ => TrackersAreNotStored(g, Next(g, e), user);
  }

  /** When writes succeed, table and memory agree at every moment of a run. */
  lemma {:induction false} RunMirrors(start: GuardState, run: seq<Event>, user: string)
    requires Mirrored(start, user) && forall i :: 0 <= i < |run| ==> run[i].env.stores
    ensures Mirrored(Run(start, run), user)
  {
    if run != [] {
      var front := run[..|run| - 1];
      RunMirrors(start, front, user);
      NextMirrors(Run(start, front), run[|run| - 1], user);
    }
  }

  /** A guard loads its table, runs, and is restarted at any moment: the new guard, loading the
      table as it then is, treats the user as the running one does. */
  lemma RestartAfterAnyRun(
    before: seq<(string, Row)>, table: map<string, Row>, run: seq<Event>, rows: seq<(string, Row)>, email: string)
    requires Enumerates(before, table) && OwnRowDecides(before, Lower(email))
    requires forall i :: 0 <= i < |run| ==> run[i].env.stores
    requires var start := FRESH.(limits := LoadRows(before, map[]), table := table);
             Enumerates(rows, Run(start, run).table) && OwnRowDecides(rows, Lower(email))
    ensures var g := Run(FRESH.(limits := LoadRows(before, map[]), table := table), run);
            && AgreeAfterRestart(Effective(g.limits, email), Effective(LoadRows(rows, map[]), email))
            && (IsFrozen(g, Lower(email)) <==> IsFrozen(FRESH.(limits := LoadRows(rows, map[])), Lower(email)))
  {
    hide Run, Mirrored, Enumerates, Effective, IsFrozen, LoadRows, OwnRowDecides, Lower;
    var start := FRESH.(limits := LoadRows(before, map[]), table := table);
    LowerIdempotent(email);
    LoadingMirrors(before, table, Lower(email));
    RunMirrors(start, run, Lower(email));
    RestartAgrees(Run(start, run), rows, email);
  }
}
