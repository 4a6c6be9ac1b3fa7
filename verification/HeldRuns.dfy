/** Who holds a user's trading while requests are in flight: under every interleaving it is
    whoever set the last freeze, unless it was lifted since. */
module HeldRuns {
  import opened Base
  import opened GuardModel
  import opened Holds
  import opened Protocol

  /** The step ends a request with the answer that the breaker has frozen the account. */
  predicate TellsOfTrip(s: System, e: Event)
    requires Enabled(s, e)
  {
    && e.action.Trip?
    && var replies := LogOf(Step(s, e), UserOf(s.flights[e.action.slot])).replies;
       replies != [] && replies[|replies| - 1].Refused? && replies[|replies| - 1].autoFrozen
  }

  /** What a step does to a hold, as seen from outside. */
  function HoldAfter(s: System, e: Event, email: string, hold: Option<Hold>): Option<Hold>
    requires Enabled(s, e)
  {
    match e.action
    case FreezeUser(other, who, reason) =>
      if SameAddress(other, email) then Some(Hold(who, reason, Some(e.env.now))) else hold
    case UnfreezeUser(other) => if SameAddress(other, email) then None else hold
    case Trip(slot) =>
      if SameAddress(s.flights[slot].req.email, email) && TellsOfTrip(s, e) then Some(ByBreaker(e.env.now)) else hold
    case _ => hold
  }

  /** The hold that the last freeze, trip or lift of the run left behind. */
  function HoldAtEnd(s: System, run: seq<Event>, email: string, hold: Option<Hold>): Option<Hold>
    requires CanRun(s, run)
    decreases |run|
  {
    if run == [] then hold else HoldAtEnd(Step(s, run[0]), run[1..], email, HoldAfter(s, run[0], email, hold))
  }

  lemma TripTells(s: System, e: Event)
    requires Enabled(s, e) && e.action.Trip?
    ensures TellsOfTrip(s, e) <==> BreakerTrips(s.guard, UserOf(s.flights[e.action.slot]), e.env.now)
    ensures Step(s, e).guard == Breaker(s.guard, UserOf(s.flights[e.action.slot]), e.env)
  {
    hide Breaker, BreakerTrips;
  }

  lemma RequestHolds(g: GuardState, f: Flight, a: Action, env: Env, user: string)
    requires OfRequest(a) && f.Busy? && Ready(f, a) && !a.Trip?
    ensures HoldOf(GuardAfter(g, f, a, env), user) == HoldOf(g, user)
  {
  }

  lemma CallHolds(g: GuardState, a: Action, env: Env, email: string)
    requires !OfRequest(a)
    ensures HoldOf(GuardAfterCall(g, a, env), Lower(email)) ==
              match a
              case FreezeUser(other, who, reason) =>
                (if SameAddress(other, email) then Some(Hold(who, reason, Some(env.now))) else HoldOf(g, Lower(email)))
              case UnfreezeUser(other) => (if SameAddress(other, email) then None else HoldOf(g, Lower(email)))
              case _ => HoldOf(g, Lower(email))
  {
    hide Freeze, Unfreeze, Lower;
    match a
    case FreezeUser(other, who, reason) => FreezeHolds(g, other, who, reason, env, email);
    case UnfreezeUser(other) => LiftReleases(g, other, env, email);
    case _ =>
  }

  lemma StepHolds(s: System, e: Event, email: string)
    requires Enabled(s, e)
    ensures HoldOf(Step(s, e).guard, Lower(email)) == HoldAfter(s, e, email, HoldOf(s.guard, Lower(email)))
  {
    hide HoldOf, Breaker, BreakerTrips, TellsOfTrip, GuardAfterCall, SameAddress;
    if e.action.Trip? {
      var user := UserOf(s.flights[e.action.slot]);
      TripTells(s, e);
      BreakerHolds(s.guard, user, e.env, Lower(email));
      SpellingsOfOneAddress(s.flights[e.action.slot].req.email, email);
    } else if OfRequest(e.action) {
      RequestHolds(s.guard, s.flights[e.action.slot], e.action, e.env, Lower(email));
    } else {
      CallHolds(s.guard, e.action, e.env, email);
    }
  }

  /** In every interleaving a user is frozen exactly when the last of the user's freezes, trips
      and lifts is not a lift, or there is none and the user was frozen at the start; the holder
      is whoever froze last, and a trip is what some request of the user was told of. */
  lemma {:induction false} HeldByTheLastStep(s: System, run: seq<Event>, email: string)
    requires CanRun(s, run)
    ensures HoldOf(RunOf(s, run).guard, Lower(email)) == HoldAtEnd(s, run, email, HoldOf(s.guard, Lower(email)))
    decreases |run|
  {
    hide HoldOf, HoldAfter, Enabled, Step, Lower;
    if run != [] {
      StepHolds(s, run[0], email);
      HeldByTheLastStep(Step(s, run[0]), run[1..], email);
    }
  }
}
