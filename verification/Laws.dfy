/** Laws of single operations: what a walk along the chain decides and leaves behind, what
    freezing preserves, and what survives a restart. */
module Laws {
  import opened Base
  import opened Calendar
  import opened Chain
  import opened Dedup
  import opened Limits
  import opened Orders
  import opened Trackers
  import opened Windows
  import opened GuardModel

  // --- The walk ---

  function Effects(g: GuardState, chain: seq<Check>, req: Request, env: Env): GuardState
    decreases |chain|
  {
    if chain == [] then g else Effects(Effect(g, chain[0].rule, req, env), chain[1..], req, env)
  }

  predicate AllPass(g: GuardState, chain: seq<Check>, req: Request, env: Env)
    decreases |chain|
  {
    chain == [] ||
    (Judge(g, chain[0].rule, req, env).Allow? && AllPass(Effect(g, chain[0].rule, req, env), chain[1..], req, env))
  }

  lemma {:induction false} WalkAllowsIffAllPass(g: GuardState, chain: seq<Check>, req: Request, env: Env)
    ensures Walk(g, chain, req, env).1.Allowed? <==> AllPass(g, chain, req, env)
    ensures AllPass(g, chain, req, env) ==> Walk(g, chain, req, env) == (Effects(g, chain, req, env), Allowed)
    decreases |chain|
  {
    if chain != [] {
      WalkAllowsIffAllPass(Effect(g, chain[0].rule, req, env), chain[1..], req, env);
    }
  }

  /** The first rejecting check decides: its reason is returned, the effects of the checks up
      to it remain, and no later check has any influence. */
  lemma {:induction false} FirstRejectionWins(g: GuardState, chain: seq<Check>, n: nat, req: Request, env: Env)
    requires n < |chain| && AllPass(g, chain[..n], req, env)
    requires Judge(Effects(g, chain[..n], req, env), chain[n].rule, req, env).Reject?
    ensures var before := Effects(g, chain[..n], req, env);
            var after := Effect(before, chain[n].rule, req, env);
            var reason := Judge(before, chain[n].rule, req, env).reason;
            Walk(g, chain, req, env) ==
              (Refused(after, chain[n], Lower(req.email), env), Refusal(after, chain[n], reason, Lower(req.email), env))
    decreases |chain|
  {
    if n > 0 {
      assert chain[..n][1..] == chain[1..][..n - 1];
      FirstRejectionWins(Effect(g, chain[0].rule, req, env), chain[1..], n - 1, req, env);
    }
  }

  lemma {:induction false} DropStaleTwice<T>(window: seq<Stamp<T>>, cutoff: Time)
    ensures DropStale(DropStale(window, cutoff), cutoff) == DropStale(window, cutoff)
  {
    if window != [] && window[0].at < cutoff {
      DropStaleTwice(window[1..], cutoff);
    }
  }

  /** Two trackers that every check reads alike. */
  predicate ReadAlike(t: Tracker, t': Tracker, windowSecs: int, now: Time) {
    && ResetDay(t', now).dailyOrderCount == ResetDay(t, now).dailyOrderCount
    && ResetDay(t', now).dailyPlacedValue == ResetDay(t, now).dailyPlacedValue
    && PruneOrders(t', now).recentOrders == PruneOrders(t, now).recentOrders
    && PruneParams(t', windowSecs, now).recentParams == PruneParams(t, windowSecs, now).recentParams
  }

  lemma PruningReadsAlike(t: Tracker, windowSecs: int, now: Time)
    ensures ReadAlike(t, ResetDay(t, now), windowSecs, now)
    ensures ReadAlike(t, PruneOrders(t, now), windowSecs, now)
    ensures ReadAlike(t, PruneParams(t, windowSecs, now), windowSecs, now)
    ensures ReadAlike(t, t, windowSecs, now)
  {
    BoundaryMonotone(now, now);
    DropStaleTwice(t.recentOrders, now - RATE_WINDOW);
    DropStaleTwice(t.recentParams, now - Span(windowSecs));
  }

  lemma EffectReadsAlike(g: GuardState, rule: Rule, req: Request, env: Env)
    ensures var g', user := Effect(g, rule, req, env), Lower(req.email);
            && ReadAlike(TrackerOf(g.trackers, user, env.now), TrackerOf(g'.trackers, user, env.now),
                         Effective(g.limits, req.email).duplicateWindowSecs, env.now)
            && (!rule.ClientOrderId? ==> g'.entries == g.entries)
  {
    hide ReadAlike, ResetDay, PruneOrders, PruneParams, Fill;
    PruningReadsAlike(TrackerOf(g.trackers, Lower(req.email), env.now),
                      Effective(g.limits, req.email).duplicateWindowSecs, env.now);
  }

  /** Within one call no check changes what another one answers: pruning and resetting are
      idempotent, and a recorded key is only consulted by the rule that records it. */
  lemma EffectsDoNotInterfere(g: GuardState, first: Rule, second: Rule, req: Request, env: Env)
    requires !(first.ClientOrderId? && second.ClientOrderId?)
    ensures Judge(Effect(g, first, req, env), second, req, env) == Judge(g, second, req, env)
  {
    hide Effect, ResetDay, PruneOrders, PruneParams, Effective, TrackerOf;
    EffectReadsAlike(g, first, req, env);
  }

  ghost predicate EachPasses(g: GuardState, chain: seq<Check>, req: Request, env: Env) {
    forall i :: 0 <= i < |chain| ==> Judge(g, chain[i].rule, req, env).Allow?
  }

  ghost predicate OneKeyCheck(chain: seq<Check>) {
    forall i, j :: 0 <= i < j < |chain| ==> !(chain[i].rule.ClientOrderId? && chain[j].rule.ClientOrderId?)
  }

  /** The decision is a conjunction over the checks, each judged on the state before the call. */
  lemma {:induction false} DecisionIsConjunction(g: GuardState, chain: seq<Check>, req: Request, env: Env)
    requires OneKeyCheck(chain)
    ensures Walk(g, chain, req, env).1.Allowed? <==> EachPasses(g, chain, req, env)
    decreases |chain|
  {
    if chain != [] {
      var g', rest := Effect(g, chain[0].rule, req, env), chain[1..];
      DecisionIsConjunction(g', rest, req, env);
      forall i | 0 <= i < |rest|
        ensures Judge(g', rest[i].rule, req, env) == Judge(g, chain[i + 1].rule, req, env)
      {
        EffectsDoNotInterfere(g, chain[0].rule, chain[i + 1].rule, req, env);
      }
      if EachPasses(g', rest, req, env) && Judge(g, chain[0].rule, req, env).Allow? {
        forall i | 0 <= i < |chain| ensures Judge(g, chain[i].rule, req, env).Allow? {
          if i > 0 {
            assert Judge(g', rest[i - 1].rule, req, env).Allow?;
          }
        }
      }
    }
  }

  /** Reordering the chain, built-in checks included, never changes whether an order is
      allowed; it can only change which reason is reported. */
  lemma OrderOfChecksIsIrrelevant(g: GuardState, a: seq<Check>, b: seq<Check>, req: Request, env: Env)
    requires OneKeyCheck(a) && OneKeyCheck(b) && multiset(a) == multiset(b)
    ensures Walk(g, a, req, env).1.Allowed? <==> Walk(g, b, req, env).1.Allowed?
  {
    DecisionIsConjunction(g, a, req, env);
    DecisionIsConjunction(g, b, req, env);
    SameMembers(a, b);
    forall i | 0 <= i < |a| ensures a[i] in b {}
    forall i | 0 <= i < |b| ensures b[i] in a {}
  }

  lemma ExternalLeavesNoTrace(g: GuardState, rule: Rule, req: Request, env: Env)
    requires rule.External?
    ensures Effect(g, rule, req, env) == g
    ensures forall g' :: Judge(g', rule, req, env) == Judge(g, rule, req, env)
  {
  }

  /** Registering an external check anywhere only adds its own veto: what it lets through is
      answered exactly as before, with the same state left behind. */
  lemma {:induction false} RegistrationOnlyAddsAVeto(
    g: GuardState, a: seq<Check>, c: Check, b: seq<Check>, req: Request, env: Env)
    requires c.rule.External?
    ensures Walk(g, a + [c] + b, req, env).1.Allowed? <==>
              Walk(g, a + b, req, env).1.Allowed? && Judge(g, c.rule, req, env).Allow?
    ensures Judge(g, c.rule, req, env).Allow? ==> Walk(g, a + [c] + b, req, env) == Walk(g, a + b, req, env)
    decreases |a|
  {
    hide Effect, Judge, Refused, BreakerTrips;
    ExternalLeavesNoTrace(g, c.rule, req, env);
    if a == [] {
      assert a + [c] + b == [c] + b && a + b == b && ([c] + b)[1..] == b;
    } else {
      var g' := Effect(g, a[0].rule, req, env);
      RegistrationOnlyAddsAVeto(g', a[1..], c, b, req, env);
      assert (a + [c] + b)[0] == a[0] && (a + [c] + b)[1..] == a[1..] + [c] + b;
      assert (a + b)[0] == a[0] && (a + b)[1..] == a[1..] + b;
    }
  }

  // --- Keys that are used up ---

  predicate NoKeyCheck(chain: seq<Check>) {
    forall i :: 0 <= i < |chain| ==> !chain[i].rule.ClientOrderId?
  }

  lemma {:induction false} WalkKeepsEntries(g: GuardState, chain: seq<Check>, req: Request, env: Env)
    requires NoKeyCheck(chain)
    ensures Walk(g, chain, req, env).0.entries == g.entries
    decreases |chain|
  {
    hide Judge, ReadAlike, BreakerTrips;
    if chain != [] {
      EffectReadsAlike(g, chain[0].rule, req, env);
      if Judge(g, chain[0].rule, req, env).Allow? {
        WalkKeepsEntries(Effect(g, chain[0].rule, req, env), chain[1..], req, env);
      }
    }
  }

  function KeyOf(req: Request): string {
    HashInput(Lower(req.email), req.clientOrderId)
  }

  lemma KeyCheckRecords(g: GuardState, b: seq<Check>, req: Request, env: Env)
    requires NoKeyCheck(b) && req.clientOrderId != ""
    ensures Walk(g, [CLIENT_ORDER_ID] + b, req, env).0.entries == Added(g.entries, DEFAULT_TTL, KeyOf(req), env.now)
  {
    hide HashInput, BreakerTrips;
    var chain := [CLIENT_ORDER_ID] + b;
    assert chain[1..] == b && chain[0] == CLIENT_ORDER_ID;
    WalkKeepsEntries(Effect(g, ClientOrderId, req, env), b, req, env);
  }

  /** The key check spends the key: after a walk the key is taken exactly when it was taken
      before or every check in front of the key check passed, whatever the checks behind it
      then say. A key spent by this walk is taken for the fifteen minutes that follow. */
  lemma {:induction false} KeyIsSpentIff(g: GuardState, a: seq<Check>, b: seq<Check>, req: Request, env: Env)
    requires NoKeyCheck(a) && NoKeyCheck(b) && req.clientOrderId != ""
    ensures var entries := Walk(g, a + [CLIENT_ORDER_ID] + b, req, env).0.entries;
            && (Seen(entries, DEFAULT_TTL, KeyOf(req), env.now) <==>
                  Seen(g.entries, DEFAULT_TTL, KeyOf(req), env.now) || AllPass(g, a, req, env))
            && (AllPass(g, a, req, env) && !Seen(g.entries, DEFAULT_TTL, KeyOf(req), env.now) ==>
                  forall later :: Seen(entries, DEFAULT_TTL, KeyOf(req), later) <==> later - env.now < DEFAULT_TTL)
    decreases |a|
  {
    hide KeyOf, Judge, Refused, Refusal;
    var chain := a + [CLIENT_ORDER_ID] + b;
    if a == [] {
      assert chain == [CLIENT_ORDER_ID] + b;
      KeyCheckRecords(g, b, req, env);
    } else {
      assert chain[0] == a[0] && chain[1..] == a[1..] + [CLIENT_ORDER_ID] + b;
      EntriesOfFront(g, a[0], req, env);
      if Judge(g, a[0].rule, req, env).Allow? {
        KeyIsSpentIff(Effect(g, a[0].rule, req, env), a[1..], b, req, env);
      }
    }
  }

  lemma EntriesOfFront(g: GuardState, c: Check, req: Request, env: Env)
    requires !c.rule.ClientOrderId?
    ensures Effect(g, c.rule, req, env).entries == g.entries
    ensures Refused(Effect(g, c.rule, req, env), c, Lower(req.email), env).entries == g.entries
  {
    hide ReadAlike, BreakerTrips;
    EffectReadsAlike(g, c.rule, req, env);
  }

  // --- Policies and the table ---

  /** Every operation of the gate leaves the non-freeze limits of every user as they were. */
  ghost predicate SamePolicies(g: GuardState, g': GuardState) {
    forall email :: Policy(Effective(g'.limits, email)) == Policy(Effective(g.limits, email))
  }

  lemma FreezeKeepsPolicies(g: GuardState, user: string, l: Limits, stores: bool)
    requires Policy(l) == Policy(RecordFor(g.limits, user))
    ensures SamePolicies(g, WithLimits(g, user, l, stores))
  {
    forall email ensures Policy(Effective(g.limits[user := l], email)) == Policy(Effective(g.limits, email)) {
      FreezingKeepsPolicies(g.limits, user, l, email);
    }
  }

  lemma SameLimitsSamePolicies(g: GuardState, g': GuardState)
    requires g'.limits == g.limits
    ensures SamePolicies(g, g')
  {
  }

  lemma RefusedKeepsPolicies(g: GuardState, c: Check, user: string, env: Env)
    ensures SamePolicies(g, Refused(g, c, user, env))
  {
    hide SamePolicies, Encode, Effective, PruneRejections, BreakerTrips, Fill;
    var refused := Refused(g, c, user, env);
    SameLimitsSamePolicies(g, g);
    if refused.limits == g.limits {
      SameLimitsSamePolicies(g, refused);
    } else {
      var l := Frozen(RecordFor(g.limits, user), BREAKER, BREAKER_REASON, env.now);
      FreezeKeepsPolicies(refused.(limits := g.limits), user, l, false);
      SameLimitsSamePolicies(g, refused.(limits := g.limits));
      PoliciesCompose(g, refused.(limits := g.limits), refused);
    }
  }

  lemma PoliciesCompose(g: GuardState, g': GuardState, g'': GuardState)
    requires SamePolicies(g, g') && SamePolicies(g', g'')
    ensures SamePolicies(g, g'')
  {
    forall email ensures Policy(Effective(g''.limits, email)) == Policy(Effective(g.limits, email)) {
      assert Policy(Effective(g'.limits, email)) == Policy(Effective(g.limits, email));
    }
  }

  lemma {:induction false} WalkKeepsPolicies(g: GuardState, chain: seq<Check>, req: Request, env: Env)
    ensures SamePolicies(g, Walk(g, chain, req, env).0)
    decreases |chain|
  {
    if chain != [] {
      var g', user := Effect(g, chain[0].rule, req, env), Lower(req.email);
      if Judge(g, chain[0].rule, req, env).Allow? {
        WalkKeepsPolicies(g', chain[1..], req, env);
        assert SamePolicies(g, g');
      } else {
        RefusedKeepsPolicies(g', chain[0], user, env);
      }
    }
  }

  /** What the table holds under the user's lower-case key agrees with the user's record, up
      to what a row cannot hold; the limits are in rupees. */
  ghost predicate Mirrored(g: GuardState, user: string) {
    && (user in g.table <==> user in g.limits)
    && (user in g.limits ==>
          Decode(g.table[user]) == Decode(Encode(g.limits[user])) && RupeeLimits(g.limits[user]))
  }

  /** A successful write of anybody's record keeps the agreement. */
  lemma WriteThroughMirrors(g: GuardState, owner: string, l: Limits, user: string)
    requires Mirrored(g, user) && Policy(l) == Policy(RecordFor(g.limits, owner))
    ensures Mirrored(WithLimits(g, owner, l, true), user)
  {
    hide Encode, Decode;
    assert RupeeLimits(l) <==> RupeeLimits(Policy(l));
  }

  /** A successful write of the user's own record establishes it. */
  lemma FirstWriteMirrors(g: GuardState, user: string, l: Limits)
    requires Policy(l) == Policy(RecordFor(g.limits, user)) && RupeeLimits(RecordFor(g.limits, user))
    ensures Mirrored(WithLimits(g, user, l, true), user)
  {
    hide Encode, Decode;
    assert RupeeLimits(l) <==> RupeeLimits(Policy(l));
  }

  lemma TrackersAreNotStored(g: GuardState, g': GuardState, user: string)
    requires Mirrored(g, user) && g'.limits == g.limits && g'.table == g.table
    ensures Mirrored(g', user)
  {
  }

  lemma BreakerMirrors(g: GuardState, owner: string, env: Env, user: string)
    requires Mirrored(g, user) && env.stores
    ensures Mirrored(Breaker(g, owner, env), user)
  {
    hide Mirrored, Encode, Effective, PruneRejections, BreakerTrips;
    var pruned := WithTracker(g, owner, PruneRejections(TrackerOf(g.trackers, owner, env.now), env.now));
    TrackersAreNotStored(g, g, user);
    TrackersAreNotStored(g, pruned, user);
    WriteThroughMirrors(pruned, owner, Frozen(RecordFor(g.limits, owner), BREAKER, BREAKER_REASON, env.now), user);
  }

  lemma RefusedMirrors(g: GuardState, c: Check, owner: string, env: Env, user: string)
    requires Mirrored(g, user) && env.stores
    ensures Mirrored(Refused(g, c, owner, env), user)
  {
    hide Mirrored, Breaker;
    TrackersAreNotStored(g, CountRejection(g, owner, env.now), user);
    BreakerMirrors(CountRejection(g, owner, env.now), owner, env, user);
  }

  lemma {:induction false} WalkMirrors(g: GuardState, chain: seq<Check>, req: Request, env: Env, user: string)
    requires Mirrored(g, user) && env.stores
    ensures Mirrored(Walk(g, chain, req, env).0, user)
    decreases |chain|
  {
    hide Mirrored, Judge;
    if chain != [] {
      var g' := Effect(g, chain[0].rule, req, env);
      TrackersAreNotStored(g, g', user);
      if Judge(g, chain[0].rule, req, env).Allow? {
        WalkMirrors(g', chain[1..], req, env, user);
      } else {
        RefusedMirrors(g', chain[0], Lower(req.email), env, user);
      }
    }
  }

  /** The rows of a table in any sequence; their keys may be in any case. */
  ghost predicate Enumerates(rows: seq<(string, Row)>, table: map<string, Row>) {
    && (forall i :: 0 <= i < |rows| ==> rows[i].0 in table && rows[i].1 == table[rows[i].0])
    && (forall key :: key in table ==> exists i :: 0 <= i < |rows| && rows[i].0 == key)
  }

  /** The last row of the user, whatever the case of its key. */
  function LastRow(rows: seq<(string, Row)>, user: string): Option<(string, Row)> {
    if rows == [] then None
    else if Lower(rows[|rows| - 1].0) == user then Some(rows[|rows| - 1])
    else LastRow(rows[..|rows| - 1], user)
  }

  /** Loading gives every user the record of the user's last row and of no other. */
  lemma {:induction false} LoadedIsLastRow(rows: seq<(string, Row)>, user: string)
    ensures Get(LoadRows(rows, map[]), user) ==
              match LastRow(rows, user) case None => None case Some(row) => Some(Decode(row.1))
  {
    hide Decode;
    if rows != [] {
      LoadedIsLastRow(rows[..|rows| - 1], user);
    }
  }

  lemma {:induction false} LastRowIsARow(rows: seq<(string, Row)>, user: string)
    ensures LastRow(rows, user).None? <==> forall i :: 0 <= i < |rows| ==> Lower(rows[i].0) != user
    ensures LastRow(rows, user).Some? ==>
              LastRow(rows, user).value in rows && Lower(LastRow(rows, user).value.0) == user
  {
    if rows != [] {
      LastRowIsARow(rows[..|rows| - 1], user);
      assert rows == rows[..|rows| - 1] + [rows[|rows| - 1]];
    }
  }

  /** If the table has rows of the user under keys in other case, none of them comes after
      the one under the lower-case key. */
  ghost predicate OwnRowDecides(rows: seq<(string, Row)>, user: string) {
    LastRow(rows, user).Some? ==> LastRow(rows, user).value.0 == user
  }

  lemma OwnRow(rows: seq<(string, Row)>, table: map<string, Row>, user: string)
    requires Enumerates(rows, table) && OwnRowDecides(rows, user) && Lower(user) == user
    ensures Get(LoadRows(rows, map[]), user) == if user in table then Some(Decode(table[user])) else None
  {
    hide Decode;
    LoadedIsLastRow(rows, user);
    LastRowIsARow(rows, user);
    if user in table {
      var i :| 0 <= i < |rows| && rows[i].0 == user;
      assert Lower(rows[i].0) == user;
    }
  }

  /** A guard that has just loaded its table mirrors it. */
  lemma LoadingMirrors(rows: seq<(string, Row)>, table: map<string, Row>, user: string)
    requires Enumerates(rows, table) && OwnRowDecides(rows, user) && Lower(user) == user
    ensures Mirrored(FRESH.(limits := LoadRows(rows, map[]), table := table), user)
  {
    hide Enumerates, OwnRowDecides;
    OwnRow(rows, table, user);
    var limits := LoadRows(rows, map[]);
    hide LoadRows;
    assert user in limits <==> Get(limits, user).Some?;
    if user in table {
      assert limits[user] == Decode(table[user]);
      LoadedRowsAreStable(table[user]);
    }
  }

  /** A fresh guard that loads a mirrored table gives the user the same freeze state and
      effective limits, apart from the second of the freeze and the off-hours switch. */
  lemma RestartAgrees(g: GuardState, rows: seq<(string, Row)>, email: string)
    requires Mirrored(g, Lower(email)) && Enumerates(rows, g.table) && OwnRowDecides(rows, Lower(email))
    ensures AgreeAfterRestart(Effective(g.limits, email), Effective(LoadRows(rows, map[]), email))
    ensures IsFrozen(g, Lower(email)) <==> IsFrozen(FRESH.(limits := LoadRows(rows, map[])), Lower(email))
  {
    var user := Lower(email);
    LowerIdempotent(email);
    OwnRow(rows, g.table, user);
    hide Enumerates, OwnRowDecides, LoadRows, Lower;
    if user in g.limits {
      RowRoundTrip(g.limits[user]);
    }
  }

  /** In general the user's last row decides the restart: a freeze that was written under the
      lower-case key survives exactly when that row is frozen too. */
  lemma LastRowDecidesFreeze(rows: seq<(string, Row)>, user: string)
    ensures IsFrozen(FRESH.(limits := LoadRows(rows, map[])), user) <==>
              LastRow(rows, user).Some? && LastRow(rows, user).value.1.frozen != 0
  {
    LoadedIsLastRow(rows, user);
    hide LoadRows, LastRow;
    assert user in LoadRows(rows, map[]) <==> Get(LoadRows(rows, map[]), user).Some?;
  }
}
