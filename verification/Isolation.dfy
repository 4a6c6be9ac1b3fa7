/** Non-interference: a user's answers never depend on what other users do. Deleting every
    action of everybody else from an interleaved run leaves all that the user is told, and
    all that the gate keeps about the user, as it was. */
module Isolation {
  import opened Base
  import opened Chain
  import opened Dedup
  import opened Limits
  import opened Orders
  import opened PerSecond
  import opened Trackers
  import opened GuardModel
  import opened Protocol
  import opened Keys

  /** Two gates that are alike as far as one user can tell. */
  ghost predicate Alike(g: GuardState, h: GuardState, user: string) {
    && Get(g.trackers, user) == Get(h.trackers, user)
    && Get(g.limits, user) == Get(h.limits, user)
    && Get(g.perUser, user) == Get(h.perUser, user)
    && Get(g.table, user) == Get(h.table, user)
    && g.killSwitch == h.killSwitch && g.checks == h.checks
    && SameKeys(g.entries, h.entries, user)
  }

  ghost predicate SameKeys(a: map<string, Time>, b: map<string, Time>, user: string) {
    forall k {:trigger HashInput(user, k)} :: Get(a, HashInput(user, k)) == Get(b, HashInput(user, k))
  }

  lemma SameLookups(g: GuardState, h: GuardState, email: string, user: string, now: Time)
    requires Alike(g, h, user) && Lower(email) == user
    ensures Effective(g.limits, email) == Effective(h.limits, email)
    ensures RecordFor(g.limits, user) == RecordFor(h.limits, user)
    ensures IsFrozen(g, user) <==> IsFrozen(h, user)
    ensures TrackerOf(g.trackers, user, now) == TrackerOf(h.trackers, user, now)
    ensures Get(g.perUser, user) == Get(h.perUser, user)
  {
    assert Get(g.limits, user) == Get(h.limits, user);
    assert Get(g.trackers, user) == Get(h.trackers, user);
  }

  // --- The user's own steps ---

  lemma JudgeAlike(g: GuardState, h: GuardState, user: string, rule: Rule, req: Request, env: Env)
    requires Alike(g, h, user) && Lower(req.email) == user
    ensures Judge(g, rule, req, env) == Judge(h, rule, req, env)
  {
    SameLookups(g, h, req.email, user, env.now);
    assert Get(g.entries, HashInput(user, req.clientOrderId)) == Get(h.entries, HashInput(user, req.clientOrderId));
  }

  lemma EffectAlike(g: GuardState, h: GuardState, user: string, rule: Rule, req: Request, env: Env)
    requires Alike(g, h, user) && Lower(req.email) == user
    ensures Alike(Effect(g, rule, req, env), Effect(h, rule, req, env), user)
  {
    SameLookups(g, h, req.email, user, env.now);
    hide ResetDay, PruneOrders, PruneParams, Fill;
    if rule.ClientOrderId? {
      AddedAlike(g.entries, h.entries, user, req.clientOrderId, env.now);
    }
  }

  lemma AddedAlike(a: map<string, Time>, b: map<string, Time>, user: string, k: string, now: Time)
    requires SameKeys(a, b, user)
    ensures SameKeys(Added(a, DEFAULT_TTL, HashInput(user, k), now), Added(b, DEFAULT_TTL, HashInput(user, k), now),
                     user)
  {
    assert Get(a, HashInput(user, k)) == Get(b, HashInput(user, k));
  }

  lemma WritesAlike(g: GuardState, h: GuardState, user: string, t: Tracker, l: Limits, stores: bool)
    requires Alike(g, h, user)
    ensures Alike(WithTracker(g, user, t), WithTracker(h, user, t), user)
    ensures Alike(WithLimits(g, user, l, stores), WithLimits(h, user, l, stores), user)
  {
    hide Encode, SameKeys;
  }

  lemma BreakerAlike(g: GuardState, h: GuardState, user: string, env: Env)
    requires Alike(g, h, user) && Lower(user) == user
    ensures Alike(Breaker(g, user, env), Breaker(h, user, env), user)
    ensures BreakerTrips(g, user, env.now) <==> BreakerTrips(h, user, env.now)
  {
    hide PruneRejections, WithLimits, TrackerOf, Frozen, Alike;
    SameLookups(g, h, user, user, env.now);
    var t := PruneRejections(TrackerOf(g.trackers, user, env.now), env.now);
    var l := Frozen(RecordFor(g.limits, user), BREAKER, BREAKER_REASON, env.now);
    hide Effective, RecordFor, IsFrozen;
    WritesAlike(g, h, user, t, l, env.stores);
    WritesAlike(WithTracker(g, user, t), WithTracker(h, user, t), user, t, l, env.stores);
  }

  lemma CountAlike(g: GuardState, h: GuardState, user: string, now: Time)
    requires Alike(g, h, user)
    ensures Alike(CountRejection(g, user, now), CountRejection(h, user, now), user)
  {
    assert TrackerOf(g.trackers, user, now) == TrackerOf(h.trackers, user, now) by {
      assert Get(g.trackers, user) == Get(h.trackers, user);
    }
  }

  lemma RecordAlike(g: GuardState, h: GuardState, user: string, req: Option<Request>, now: Time)
    requires Alike(g, h, user)
    ensures Alike(BumpSecond(g, user, now), BumpSecond(h, user, now), user)
    ensures Alike(Track(g, user, req, now), Track(h, user, req, now), user)
  {
    assert TrackerOf(g.trackers, user, now) == TrackerOf(h.trackers, user, now) by {
      assert Get(g.trackers, user) == Get(h.trackers, user);
    }
  }

  lemma GuardAfterAlike(g: GuardState, h: GuardState, user: string, f: Flight, a: Action, env: Env)
    requires Alike(g, h, user) && OfRequest(a) && f.Busy? && Ready(f, a) && UserOf(f) == user
    ensures Alike(GuardAfter(g, f, a, env), GuardAfter(h, f, a, env), user)
    ensures FlightAfter(g, f, a, env) == FlightAfter(h, f, a, env)
    ensures forall l :: LogAfter(g, l, f, a, env) == LogAfter(h, l, f, a, env)
  {
    hide Effect, Judge, Breaker, BreakerTrips, Track, BumpSecond, CountRejection, SameKeys;
    LowerIdempotent(f.req.email);
    match a
    case Evaluate(_) =>
      JudgeAlike(g, h, user, f.chain[f.done].rule, f.req, if f.stage.Asking? then env.(now := f.stage.at) else env);
      EffectAlike(g, h, user, f.chain[f.done].rule, f.req, env);
    case Count(_) => CountAlike(g, h, user, env.now);
    case Trip(_) => BreakerAlike(g, h, user, env);
    case Bump(_) => RecordAlike(g, h, user, None, f.stage.at);
    case Record(_) => RecordAlike(g, h, user, Some(f.req), env.now);
    case _ =>
  }

  /** Calls about the user, and calls about everybody. */
  lemma GuardAfterCallAlike(g: GuardState, h: GuardState, user: string, a: Action, env: Env)
    requires Alike(g, h, user) && !OfRequest(a) && Concerns(a, user)
    ensures Alike(GuardAfterCall(g, a, env), GuardAfterCall(h, a, env), user)
    ensures a.Report? ==> Status(g, user, env.now) == Status(h, user, env.now)
  {
    match a
    case FreezeUser(email, _, _) => SameLookups(g, h, email, user, env.now);
    case UnfreezeUser(email) => SameLookups(g, h, email, user, env.now);
    case Report(email) => SameLookups(g, h, email, user, env.now);
    case _ =>
  }

  /** Actions that name the user, and actions that name nobody. */
  predicate Concerns(a: Action, user: string) {
    match a
    case Begin(_, _, email, _) => Lower(email) == user
    case FreezeUser(email, _, _) => Lower(email) == user
    case UnfreezeUser(email) => Lower(email) == user
    case Report(email) => Lower(email) == user
    case _ => true
  }

  // --- Everybody else's steps ---

  lemma ForeignBreakerAlike(g: GuardState, user: string, other: string, env: Env)
    requires other != user
    ensures Alike(g, Breaker(g, other, env), user)
  {
    hide Encode, Fill, PruneRejections, Frozen, SameKeys;
    assert SameKeys(g.entries, Breaker(g, other, env).entries, user) by {
      SameKeysReflexive(g.entries, user);
    }
  }

  lemma SameKeysReflexive(a: map<string, Time>, user: string)
    ensures SameKeys(a, a, user)
  {
  }

  lemma ForeignKeyAlike(a: map<string, Time>, user: string, other: string, k: string, now: Time)
    requires other != user && NulFree(user) && NulFree(other)
    ensures SameKeys(a, Added(a, DEFAULT_TTL, HashInput(other, k), now), user)
  {
    hide NulFree, HashInput;
    forall k' {:trigger HashInput(user, k')} ensures HashInput(user, k') != HashInput(other, k) {
      HashInputInjective(user, k', other, k);
    }
  }

  lemma ForeignStepAlike(g: GuardState, user: string, f: Flight, a: Action, env: Env)
    requires OfRequest(a) && f.Busy? && Ready(f, a) && UserOf(f) != user && NulFree(user) && NulFree(UserOf(f))
    ensures Alike(g, GuardAfter(g, f, a, env), user)
  {
    hide NulFree, HashInput, Breaker, SameKeys, AddOrder, ResetDay, PruneOrders, PruneParams, Added, Bumped;
    SameKeysReflexive(g.entries, user);
    ForeignKeyAlike(g.entries, user, UserOf(f), f.req.clientOrderId, env.now);
    if a.Trip? {
      ForeignBreakerAlike(g, user, UserOf(f), env);
    }
  }

  lemma ForeignCallAlike(g: GuardState, user: string, a: Action, env: Env)
    requires !OfRequest(a) && !Concerns(a, user)
    ensures Alike(g, GuardAfterCall(g, a, env), user)
  {
    hide Encode, ResetDay;
  }

  // --- Whole runs ---

  function Own(f: Flight, user: string): Flight {
    if f.Busy? && UserOf(f) == user then f else Idle
  }

  ghost predicate OwnFlights(all: seq<Flight>, own: seq<Flight>, user: string) {
    |all| == |own| && forall i :: 0 <= i < |all| ==> own[i] == Own(all[i], user)
  }

  /** The second system is the first one with everybody else's requests taken out. */
  ghost predicate Mirror(s: System, t: System, user: string) {
    && Alike(s.guard, t.guard, user)
    && LogOf(s, user) == LogOf(t, user)
    && OwnFlights(s.flights, t.flights, user)
    && t.now <= s.now
  }

  predicate Keeps(s: System, e: Event, user: string)
    requires Enabled(s, e)
  {
    if OfRequest(e.action) then UserOf(s.flights[e.action.slot]) == user else Concerns(e.action, user)
  }

  /** The run without the actions of other users; global freezes and sweeps stay. */
  function WithoutOthers(s: System, run: seq<Event>, user: string): seq<Event>
    requires CanRun(s, run)
    decreases |run|
  {
    if run == [] then []
    else
      var rest := WithoutOthers(Step(s, run[0]), run[1..], user);
      if Keeps(s, run[0], user) then [run[0]] + rest else rest
  }

  lemma KeepEnabled(s: System, t: System, e: Event, user: string)
    requires Mirror(s, t, user) && Enabled(s, e) && Keeps(s, e, user)
    ensures Enabled(t, e)
    ensures OfRequest(e.action) ==> t.flights[e.action.slot] == s.flights[e.action.slot]
  {
    hide Alike, Lower;
  }

  lemma KeepRequestStep(s: System, t: System, e: Event, user: string)
    requires Mirror(s, t, user) && Enabled(s, e) && Keeps(s, e, user) && OfRequest(e.action) && Enabled(t, e)
    requires t.flights[e.action.slot] == s.flights[e.action.slot]
    ensures Mirror(Step(s, e), Step(t, e), user)
  {
    hide Alike, GuardAfter, LogAfter, FlightAfter, Ready, Lower;
    var f := s.flights[e.action.slot];
    GuardAfterAlike(s.guard, t.guard, user, f, e.action, e.env);
    SameEmail(s.guard, f, e.action, e.env);
    var f' := FlightAfter(s.guard, f, e.action, e.env);
    assert Own(f', user) == f';
    assert LogAfter(s.guard, LogOf(s, user), f, e.action, e.env) ==
      LogAfter(t.guard, LogOf(s, user), f, e.action, e.env);
  }

  lemma SameEmail(g: GuardState, f: Flight, a: Action, env: Env)
    requires OfRequest(a) && f.Busy? && Ready(f, a)
    ensures FlightAfter(g, f, a, env).Busy? ==> FlightAfter(g, f, a, env).req == f.req
  {
    hide Judge;
  }

  lemma KeepStep(s: System, t: System, e: Event, user: string)
    requires Mirror(s, t, user) && Enabled(s, e) && Keeps(s, e, user)
    ensures Enabled(t, e) && Mirror(Step(s, e), Step(t, e), user)
  {
    hide Alike, GuardAfter, GuardAfterCall, LogAfter, FlightAfter, Ready, Status, Lower;
    KeepEnabled(s, t, e, user);
    if OfRequest(e.action) {
      KeepRequestStep(s, t, e, user);
    } else {
      GuardAfterCallAlike(s.guard, t.guard, user, e.action, e.env);
      if e.action.Begin? {
        BeginChangesNoGuard(s.guard, e.action, e.env);
        BeginChangesNoGuard(t.guard, e.action, e.env);
      }
    }
  }

  lemma BeginChangesNoGuard(g: GuardState, a: Action, env: Env)
    requires a.Begin?
    ensures GuardAfterCall(g, a, env) == g
  {
  }

  lemma DropStep(s: System, t: System, e: Event, user: string)
    requires Mirror(s, t, user) && Enabled(s, e) && !Keeps(s, e, user)
    requires NulFree(user) && NulFreeFlights(s)
    ensures Mirror(Step(s, e), t, user)
  {
    hide Alike, GuardAfter, GuardAfterCall, LogAfter, FlightAfter, Ready, Status, Lower, NulFree;
    var g' := Step(s, e).guard;
    if OfRequest(e.action) {
      ForeignStepAlike(s.guard, user, s.flights[e.action.slot], e.action, e.env);
      SameEmail(s.guard, s.flights[e.action.slot], e.action, e.env);
    } else {
      ForeignCallAlike(s.guard, user, e.action, e.env);
      if e.action.Begin? {
        BeginChangesNoGuard(s.guard, e.action, e.env);
      }
    }
    AlikeShift(s.guard, g', t.guard, user);
  }

  lemma AlikeShift(g: GuardState, g': GuardState, h: GuardState, user: string)
    requires Alike(g, h, user) && Alike(g, g', user)
    ensures Alike(g', h, user)
  {
    forall k {:trigger HashInput(user, k)}
      ensures Get(g'.entries, HashInput(user, k)) == Get(h.entries, HashInput(user, k))
    {
      assert Get(g.entries, HashInput(user, k)) == Get(h.entries, HashInput(user, k));
      assert Get(g.entries, HashInput(user, k)) == Get(g'.entries, HashInput(user, k));
    }
  }

  lemma {:induction false} RunsMirror(s: System, t: System, run: seq<Event>, user: string)
    requires Mirror(s, t, user) && CanRun(s, run) && NulFree(user) && NulFreeFlights(s) && NulFreeRun(run)
    ensures CanRun(t, WithoutOthers(s, run, user))
    ensures Mirror(RunOf(s, run), RunOf(t, WithoutOthers(s, run, user)), user)
    decreases |run|
  {
    hide Mirror, Enabled, Step, Keeps, NulFree, NulFreeFlights, Lower;
    if run != [] {
      var e, s' := run[0], Step(s, run[0]);
      FlightsStayNulFree(s, e);
      assert NulFreeRun(run[1..]);
      var rest := WithoutOthers(s', run[1..], user);
      if Keeps(s, e, user) {
        KeepStep(s, t, e, user);
        RunsMirror(s', Step(t, e), run[1..], user);
        assert ([e] + rest)[1..] == rest;
      } else {
        DropStep(s, t, e, user);
        RunsMirror(s', t, run[1..], user);
      }
    }
  }

  /** Whatever the others do, at whatever interleaving: the user gets the same replies and
      status reports, the same orders and rejections are logged, and the gate keeps the same
      tracker, limits, second bucket and keys for the user. */
  lemma OthersNeverMatter(s: System, run: seq<Event>, user: string)
    requires Initial(s) && CanRun(s, run) && NulFree(user) && NulFreeRun(run)
    ensures CanRun(s, WithoutOthers(s, run, user))
    ensures LogOf(RunOf(s, run), user) == LogOf(RunOf(s, WithoutOthers(s, run, user)), user)
    ensures Alike(RunOf(s, run).guard, RunOf(s, WithoutOthers(s, run, user)).guard, user)
  {
    hide Alike, Step, Enabled, CanRun, RunOf, WithoutOthers, NulFree;
    assert Mirror(s, s, user) by {
      AlikeItself(s.guard, user);
    }
    RunsMirror(s, s, run, user);
  }

  lemma AlikeItself(g: GuardState, user: string)
    ensures Alike(g, g, user)
  {
  }
}
