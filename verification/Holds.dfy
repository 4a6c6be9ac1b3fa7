/** Who holds a user's trading, and since when: what a freeze, a lift and a trip of the breaker
    do to a user under every spelling of the address, over any sequence of calls. */
module Holds {
  import opened Base
  import opened Chain
  import opened Limits
  import opened Orders
  import opened Trackers
  import opened GuardModel
  import opened Runs

  /** A freeze in force: who set it, why, and when. */
  datatype Hold = Hold(holder: string, reason: string, at: Option<Time>)

  function HoldOf(g: GuardState, user: string): Option<Hold> {
    if user in g.limits && g.limits[user].tradingFrozen
    then Some(Hold(g.limits[user].frozenBy, g.limits[user].frozenReason, g.limits[user].frozenAt))
    else None
  }

  // --- What a hold does ---

  /** The first check refuses exactly the users that are held, and says so. */
  lemma HoldRefuses(g: GuardState, req: Request, env: Env)
    ensures Judge(g, KillSwitchRule, req, env) ==
              if HoldOf(g, Lower(req.email)).Some? then Reject(TradingFrozen) else Allow
  {
  }

  lemma {:induction false} HeldWalkEnds(g: GuardState, chain: seq<Check>, i: nat, req: Request, env: Env)
    requires i < |chain| && chain[i].rule == KillSwitchRule && HoldOf(g, Lower(req.email)).Some?
    ensures Walk(g, chain, req, env).1.Blocked?
    ensures i == 0 ==> Walk(g, chain, req, env) == (Refused(g, chain[0], Lower(req.email), env),
                                                    Refusal(g, chain[0], TradingFrozen, Lower(req.email), env))
    decreases |chain|
  {
    hide Effective;
    if i > 0 && Judge(g, chain[0].rule, req, env).Allow? {
      HeldWalkEnds(Effect(g, chain[0].rule, req, env), chain[1..], i - 1, req, env);
    }
  }

  /** A held user's order is refused by every well-formed chain. Where the user's freeze is
      asked for first, as in the built-in chain, the refusal names it and leaves no trace. */
  lemma HeldIsRefused(g: GuardState, req: Request, env: Env)
    requires WellFormed(g.checks) && HoldOf(g, Lower(req.email)).Some?
    ensures CheckOrder(g, req, env).1.Blocked?
    ensures g.checks[0].rule == KillSwitchRule && !g.killSwitch.frozen ==>
              CheckOrder(g, req, env) == (g, Blocked(TradingFrozen, false))
  {
    hide HoldOf, Walk;
    var i :| 0 <= i < |g.checks| && g.checks[i] == KILL_SWITCH;
    HeldWalkEnds(g, g.checks, i, req, env);
    if g.checks[0].rule == KillSwitchRule {
      assert Canonical(g.checks[0]);
      HeldWalkEnds(g, g.checks, 0, req, env);
    }
  }

  /** A report says frozen exactly when the check would refuse, whatever the spelling, and
      gives the holder's name, reason and instant. */
  lemma StatusTellsHold(g: GuardState, email: string, req: Request, env: Env, now: Time)
    requires SameAddress(email, req.email)
    ensures var s := Status(g, Lower(email), now);
            && (s.isFrozen <==> Judge(g, KillSwitchRule, req, env) == Reject(TradingFrozen))
            && (s.isFrozen ==> HoldOf(g, Lower(req.email)) == Some(Hold(s.frozenBy, s.frozenReason, s.frozenAt)))
  {
    SpellingsOfOneAddress(email, req.email);
    HoldRefuses(g, req, env);
  }

  // --- What sets and ends it ---

  /** A freeze holds the user under every spelling, in the given name, and nobody else. */
  lemma FreezeHolds(g: GuardState, email: string, who: string, reason: string, env: Env, other: string)
    ensures HoldOf(Freeze(g, email, who, reason, env), Lower(other)) ==
              if SameAddress(email, other) then Some(Hold(who, reason, Some(env.now))) else HoldOf(g, Lower(other))
  {
    hide Encode;
    SpellingsOfOneAddress(email, other);
  }

  /** After a freeze, an order of the user is refused whatever the spelling; the built-in chain
      says why. */
  lemma FreezeStopsOrders(g: GuardState, email: string, who: string, reason: string, env: Env, req: Request, later: Env)
    requires WellFormed(g.checks) && SameAddress(email, req.email)
    ensures var g' := Freeze(g, email, who, reason, env);
            && CheckOrder(g', req, later).1.Blocked?
            && (g.checks[0].rule == KillSwitchRule && !g.killSwitch.frozen ==>
                  CheckOrder(g', req, later) == (g', Blocked(TradingFrozen, false)))
  {
    hide HoldOf, CheckOrder, WellFormed, SameAddress, Encode;
    FreezeHolds(g, email, who, reason, env, req.email);
    HeldIsRefused(Freeze(g, email, who, reason, env), req, later);
  }

  /** A lift releases the user under every spelling, forgets the holder, and releases nobody
      else. */
  lemma LiftReleases(g: GuardState, email: string, env: Env, other: string)
    ensures HoldOf(Unfreeze(g, email, env), Lower(other)) ==
              if SameAddress(email, other) then None else HoldOf(g, Lower(other))
    ensures SameAddress(email, other) ==>
              var s := Status(Unfreeze(g, email, env), Lower(other), env.now);
              s.frozenBy == "" && s.frozenReason == "" && s.frozenAt == None
  {
    hide Encode;
    SpellingsOfOneAddress(email, other);
  }

  /** The user is told that the breaker froze the account. */
  predicate Tripped(r: CheckResult) {
    r.Blocked? && r.autoFrozen
  }

  function ByBreaker(now: Time): Hold {
    Hold("riskguard:circuit-breaker", "Automatic safety freeze: repeated limit violations", Some(now))
  }

  lemma BreakerHolds(g: GuardState, user: string, env: Env, other: string)
    ensures HoldOf(Breaker(g, user, env), other) ==
              if user == other && BreakerTrips(g, user, env.now) then Some(ByBreaker(env.now)) else HoldOf(g, other)
    ensures BreakerTrips(g, user, env.now) ==> HoldOf(g, user) == None
  {
    hide Encode, PruneRejections;
  }

  lemma {:induction false} WalkHolds(g: GuardState, chain: seq<Check>, req: Request, env: Env, other: string)
    ensures var (g', r) := Walk(g, chain, req, env);
            && HoldOf(g', other) ==
                 (if Lower(req.email) == other && Tripped(r) then Some(ByBreaker(env.now)) else HoldOf(g, other))
            && (Tripped(r) ==> HoldOf(g, Lower(req.email)) == None)
    decreases |chain|
  {
    hide Judge, Breaker, BreakerTrips;
    if chain != [] {
      var user, after := Lower(req.email), Effect(g, chain[0].rule, req, env);
      if Judge(g, chain[0].rule, req, env).Allow? {
        WalkHolds(after, chain[1..], req, env, other);
      } else {
        BreakerHolds(CountRejection(after, user, env.now), user, env, other);
      }
    }
  }

  /** A check sets a hold exactly when the answer says so, in the breaker's name, on a user who
      was not held, and it ends none. */
  lemma CheckHolds(g: GuardState, req: Request, env: Env, other: string)
    ensures var (g', r) := CheckOrder(g, req, env);
            && HoldOf(g', Lower(other)) ==
                 (if SameAddress(req.email, other) && Tripped(r) then Some(ByBreaker(env.now))
                  else HoldOf(g, Lower(other)))
            && (Tripped(r) ==> HoldOf(g, Lower(req.email)) == None)
  {
    hide Walk, HoldOf;
    SpellingsOfOneAddress(req.email, other);
    WalkHolds(g, g.checks, req, env, Lower(other));
  }

  // --- Whole runs ---

  /** The hold that the last freeze, trip or lift of the user left behind; the one at the start
      when there was none. */
  function LastHold(start: GuardState, run: seq<Event>, email: string): Option<Hold> {
    if run == [] then HoldOf(start, Lower(email))
    else
      var front, e := run[..|run| - 1], run[|run| - 1];
      match e.op
      case FreezeUser(other, who, reason) =>
        if SameAddress(other, email) then Some(Hold(who, reason, Some(e.env.now))) else LastHold(start, front, email)
      case UnfreezeUser(other) =>
        if SameAddress(other, email) then None else LastHold(start, front, email)
      case Submit(req) =>
        if SameAddress(req.email, email) && Tripped(CheckOrder(Run(start, front), req, e.env).1)
        then Some(ByBreaker(e.env.now)) else LastHold(start, front, email)
      case _ => LastHold(start, front, email)
  }

  lemma NextHolds(g: GuardState, e: Event, email: string)
    ensures HoldOf(Next(g, e), Lower(email)) ==
              match e.op
              case FreezeUser(other, who, reason) =>
                (if SameAddress(other, email) then Some(Hold(who, reason, Some(e.env.now)))
                 else HoldOf(g, Lower(email)))
              case UnfreezeUser(other) => (if SameAddress(other, email) then None else HoldOf(g, Lower(email)))
              case Submit(req) =>
                (if SameAddress(req.email, email) && Tripped(CheckOrder(g, req, e.env).1)
                 then Some(ByBreaker(e.env.now)) else HoldOf(g, Lower(email)))
              case _ => HoldOf(g, Lower(email))
  {
    hide Freeze, Unfreeze, CheckOrder, AddOrder, Lower;
    match e.op
    case FreezeUser(other, who, reason) => FreezeHolds(g, other, who, reason, e.env, email);
    case UnfreezeUser(other) => LiftReleases(g, other, e.env, email);
    case Submit(req) => CheckHolds(g, req, e.env, email);
    case _ =>
  }

  /** After any sequence of calls a user is frozen exactly when the last of the user's freezes,
      breaker trips and lifts is not a lift, or there is none and the user was frozen at the
      start; and the holder is whoever froze last. */
  lemma {:induction false} HeldByTheLastOne(start: GuardState, run: seq<Event>, email: string)
    ensures HoldOf(Run(start, run), Lower(email)) == LastHold(start, run, email)
  {
    hide HoldOf, Next, CheckOrder, SameAddress, Lower, Tripped;
    if run != [] {
      HeldByTheLastOne(start, run[..|run| - 1], email);
      NextHolds(Run(start, run[..|run| - 1]), run[|run| - 1], email);
    }
  }

  /** So does every report, whatever the spelling it is asked for. */
  lemma ReportsNameTheHolder(start: GuardState, run: seq<Event>, email: string, now: Time)
    ensures var s, hold := Status(Run(start, run), Lower(email), now), LastHold(start, run, email);
            && s.isFrozen == hold.Some?
            && (s.isFrozen ==> hold == Some(Hold(s.frozenBy, s.frozenReason, s.frozenAt)))
  {
    hide Run, LastHold, Lower;
    HeldByTheLastOne(start, run, email);
  }
}
