/** Write-through under interleaving: table and memory agree at every moment, so a guard may be
    restarted in the middle of anything. */
module Restart {
  import opened Base
  import opened Limits
  import opened GuardModel
  import opened Laws
  import opened Protocol

  ghost predicate AllStored(run: seq<Event>) {
    forall i :: 0 <= i < |run| ==> run[i].env.stores
  }

  lemma RequestMirrors(g: GuardState, f: Flight, a: Action, env: Env, user: string)
    requires OfRequest(a) && f.Busy? && Ready(f, a) && Mirrored(g, user) && env.stores
    ensures Mirrored(GuardAfter(g, f, a, env), user)
  {
    hide Mirrored, Breaker, Effect;
    if a.Trip? {
      BreakerMirrors(g, UserOf(f), env, user);
    } else {
      TrackersAreNotStored(g, GuardAfter(g, f, a, env), user);
    }
  }

  lemma CallMirrors(g: GuardState, a: Action, env: Env, user: string)
    requires Mirrored(g, user) && env.stores
    ensures Mirrored(GuardAfterCall(g, a, env), user)
  {
    hide Mirrored, Encode;
    match a
    case FreezeUser(email, who, reason) =>
      WriteThroughMirrors(g, Lower(email), Frozen(RecordFor(g.limits, Lower(email)), who, reason, env.now), user);
    case UnfreezeUser(email) => WriteThroughMirrors(g, Lower(email), Thawed(RecordFor(g.limits, Lower(email))), user);
    case _ => TrackersAreNotStored(g, GuardAfterCall(g, a, env), user);
  }

  lemma StepMirrors(s: System, e: Event, user: string)
    requires Enabled(s, e) && Mirrored(s.guard, user) && e.env.stores
    ensures Mirrored(Step(s, e).guard, user)
  {
    hide Mirrored, GuardAfter, GuardAfterCall, FlightAfter, LogAfter, Ready;
    if OfRequest(e.action) {
      RequestMirrors(s.guard, s.flights[e.action.slot], e.action, e.env, user);
    } else {
      CallMirrors(s.guard, e.action, e.env, user);
    }
  }

  /** Every step of every interleaving keeps a user's row and record in agreement. */
  lemma {:induction false} InterleavedRunMirrors(s: System, run: seq<Event>, user: string)
    requires CanRun(s, run) && AllStored(run) && Mirrored(s.guard, user)
    ensures Mirrored(RunOf(s, run).guard, user)
    decreases |run|
  {
    hide Mirrored, Enabled, Step;
    if run != [] {
      StepMirrors(s, run[0], user);
      InterleavedRunMirrors(Step(s, run[0]), run[1..], user);
    }
  }

  /** A guard loads its table, serves any interleaving of requests and calls, and is restarted
      at any moment: the new guard, loading the table as it then is, treats the user as the
      running one does. */
  lemma RestartAtAnyMoment(
    before: seq<(string, Row)>, s: System, run: seq<Event>, rows: seq<(string, Row)>, email: string)
    requires s.guard == FRESH.(limits := LoadRows(before, map[]), table := s.guard.table)
    requires Enumerates(before, s.guard.table) && OwnRowDecides(before, Lower(email))
    requires CanRun(s, run) && AllStored(run)
    requires Enumerates(rows, RunOf(s, run).guard.table) && OwnRowDecides(rows, Lower(email))
    ensures var g := RunOf(s, run).guard;
            && AgreeAfterRestart(Effective(g.limits, email), Effective(LoadRows(rows, map[]), email))
            && (IsFrozen(g, Lower(email)) <==> IsFrozen(FRESH.(limits := LoadRows(rows, map[])), Lower(email)))
  {
    hide CanRun, RunOf, Mirrored, Enumerates, Effective, IsFrozen, LoadRows, OwnRowDecides, Lower, AllStored;
    LowerIdempotent(email);
    LoadingMirrors(before, s.guard.table, Lower(email));
    InterleavedRunMirrors(s, run, Lower(email));
    RestartAgrees(RunOf(s, run).guard, rows, email);
  }
}
