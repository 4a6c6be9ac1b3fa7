/** Idempotency keys under every interleaving: of any number of concurrent submissions of one
    key by one user, at most one passes within the window. */
module Keys {
  import opened Base
  import opened Chain
  import opened Dedup
  import opened Limits
  import opened Windows
  import opened GuardModel
  import opened Protocol

  /** Acceptances of one key are at least the window apart. */
  ghost predicate Spaced(keys: seq<Stamp<string>>) {
    forall i, j :: 0 <= i < j < |keys| && keys[i].item == keys[j].item ==> keys[j].at - keys[i].at >= DEFAULT_TTL
  }

  /** Every acceptance within the window is in the map, with its instant. */
  ghost predicate Remembered(entries: map<string, Time>, keys: seq<Stamp<string>>, user: string, now: Time) {
    forall i {:trigger keys[i]} :: 0 <= i < |keys| && now - keys[i].at < DEFAULT_TTL ==>
        HashInput(user, keys[i].item) in entries && entries[HashInput(user, keys[i].item)] == keys[i].at
  }

  /** Every live entry of the map under a key of the user is an acceptance. */
  ghost predicate Earned(entries: map<string, Time>, keys: seq<Stamp<string>>, user: string, now: Time) {
    forall k {:trigger HashInput(user, k)} :: Seen(entries, DEFAULT_TTL, HashInput(user, k), now) ==>
        Stamp(entries[HashInput(user, k)], k) in keys
  }

  ghost predicate KeysOk(entries: map<string, Time>, keys: seq<Stamp<string>>, user: string, now: Time) {
    Spaced(keys) && Remembered(entries, keys, user, now) && Until(keys, now)
  }

  lemma KeysWait(entries: map<string, Time>, keys: seq<Stamp<string>>, user: string, earlier: Time, now: Time)
    requires KeysOk(entries, keys, user, earlier) && earlier <= now
    ensures KeysOk(entries, keys, user, now)
    ensures Earned(entries, keys, user, earlier) ==> Earned(entries, keys, user, now)
  {
  }

  lemma SweepKeeps(entries: map<string, Time>, keys: seq<Stamp<string>>, user: string, now: Time)
    requires KeysOk(entries, keys, user, now)
    ensures KeysOk(Swept(entries, DEFAULT_TTL, now), keys, user, now)
    ensures Earned(entries, keys, user, now) ==> Earned(Swept(entries, DEFAULT_TTL, now), keys, user, now)
  {
  }

  /** A submission by anybody: live entries are never overwritten. */
  lemma ForeignSubmissionKeeps(
    entries: map<string, Time>, keys: seq<Stamp<string>>, user: string, key: string, now: Time)
    requires KeysOk(entries, keys, user, now)
    ensures KeysOk(Added(entries, DEFAULT_TTL, key, now), keys, user, now)
    ensures Earned(entries, keys, user, now) && (forall k :: HashInput(user, k) != key) ==>
              Earned(Added(entries, DEFAULT_TTL, key, now), keys, user, now)
  {
  }

  lemma OwnSubmissionKeeps(entries: map<string, Time>, keys: seq<Stamp<string>>, user: string, k: string, now: Time)
    requires KeysOk(entries, keys, user, now)
    ensures var key := HashInput(user, k);
            var entries' := Added(entries, DEFAULT_TTL, key, now);
            var keys' := if Seen(entries, DEFAULT_TTL, key, now) then keys else keys + [Stamp(now, k)];
            && KeysOk(entries', keys', user, now)
            && (Earned(entries, keys, user, now) && NulFree(user) ==> Earned(entries', keys', user, now))
  {
    var key := HashInput(user, k);
    if !Seen(entries, DEFAULT_TTL, key, now) {
      var entries', keys' := Added(entries, DEFAULT_TTL, key, now), keys + [Stamp(now, k)];
      forall i | 0 <= i < |keys| && keys[i].item == k ensures now - keys[i].at >= DEFAULT_TTL {}
      if Earned(entries, keys, user, now) && NulFree(user) {
        forall k2 {:trigger HashInput(user, k2)} | Seen(entries', DEFAULT_TTL, HashInput(user, k2), now)
          ensures Stamp(entries'[HashInput(user, k2)], k2) in keys'
        {
          HashInputInjective(user, k, user, k2);
        }
      }
    }
  }

  // --- Steps ---

  ghost predicate NulFreeFlights(s: System) {
    forall i :: 0 <= i < |s.flights| && s.flights[i].Busy? ==> NulFree(UserOf(s.flights[i]))
  }

  ghost predicate Kept(s: System, user: string) {
    KeysOk(s.guard.entries, LogOf(s, user).keys, user, s.now)
  }

  ghost predicate ExactlyKept(s: System, user: string) {
    Kept(s, user) && Earned(s.guard.entries, LogOf(s, user).keys, user, s.now) && NulFreeFlights(s) && NulFree(user)
  }

  lemma RequestTouchesNoEntries(g: GuardState, l: UserLog, f: Flight, a: Action, env: Env)
    requires OfRequest(a) && f.Busy? && Ready(f, a)
    requires a.Evaluate? ==> f.chain[f.done].rule != ClientOrderId || f.req.clientOrderId == ""
    ensures GuardAfter(g, f, a, env).entries == g.entries && LogAfter(g, l, f, a, env).keys == l.keys
  {
    hide Judge, Encode;
  }

  lemma CallTouchesEntries(g: GuardState, a: Action, env: Env)
    ensures GuardAfterCall(g, a, env).entries == if a.Sweep? then Swept(g.entries, DEFAULT_TTL, env.now) else g.entries
  {
    hide Encode;
  }

  /** The next check of the request submits a key. */
  predicate SubmitsKey(f: Flight) {
    f.Busy? && f.done < |f.chain| && f.chain[f.done].rule == ClientOrderId && f.req.clientOrderId != ""
  }

  /** Only the key rule touches the map, and only sweeps do besides. */
  lemma OnlyKeysTouchEntries(s: System, e: Event, user: string)
    requires Enabled(s, e)
    requires !(e.action.Evaluate? && SubmitsKey(s.flights[e.action.slot]))
    ensures Step(s, e).guard.entries ==
              if e.action.Sweep? then Swept(s.guard.entries, DEFAULT_TTL, e.env.now) else s.guard.entries
    ensures LogOf(Step(s, e), user).keys == LogOf(s, user).keys
  {
    hide GuardAfter, GuardAfterCall, LogAfter, FlightAfter, Swept, Status;
    if OfRequest(e.action) {
      var f := s.flights[e.action.slot];
      RequestTouchesNoEntries(s.guard, LogOf(s, UserOf(f)), f, e.action, e.env);
    } else {
      CallTouchesEntries(s.guard, e.action, e.env);
    }
  }

  lemma SubmissionStep(s: System, e: Event, user: string)
    requires e.action.Evaluate? && Enabled(s, e)
    requires SubmitsKey(s.flights[e.action.slot])
    ensures var f := s.flights[e.action.slot];
            var key := HashInput(UserOf(f), f.req.clientOrderId);
            && Step(s, e).guard.entries == Added(s.guard.entries, DEFAULT_TTL, key, e.env.now)
            && LogOf(Step(s, e), user).keys ==
                 if UserOf(f) != user || Seen(s.guard.entries, DEFAULT_TTL, key, e.env.now) then LogOf(s, user).keys
                 else LogOf(s, user).keys + [Stamp(e.env.now, f.req.clientOrderId)]
  {
    hide Encode, Added, Seen, HashInput;
  }

  lemma StepKeepsKeys(s: System, e: Event, user: string)
    requires Enabled(s, e) && Kept(s, user)
    ensures Kept(Step(s, e), user)
    ensures ExactlyKept(s, user) && (e.action.Begin? ==> NulFree(Lower(e.action.email))) ==>
              ExactlyKept(Step(s, e), user)
  {
    hide KeysOk, Earned, Added, Seen, HashInput, Swept, NulFree, NulFreeFlights;
    var entries, keys, now := s.guard.entries, LogOf(s, user).keys, e.env.now;
    KeysWait(entries, keys, user, s.now, now);
    StepMovesClock(s, e);
    FlightsStayNulFree(s, e);
    if e.action.Evaluate? && SubmitsKey(s.flights[e.action.slot]) {
      var f := s.flights[e.action.slot];
      SubmissionStep(s, e, user);
      if UserOf(f) == user {
        OwnSubmissionKeeps(entries, keys, user, f.req.clientOrderId, now);
      } else {
        ForeignSubmissionKeeps(entries, keys, user, HashInput(UserOf(f), f.req.clientOrderId), now);
        ForeignKeys(s, e.action.slot, user);
      }
    } else {
      OnlyKeysTouchEntries(s, e, user);
      SweepKeeps(entries, keys, user, now);
    }
  }

  lemma StepMovesClock(s: System, e: Event)
    requires Enabled(s, e)
    ensures s.now <= Step(s, e).now == e.env.now
  {
  }

  lemma ForeignKeys(s: System, slot: nat, user: string)
    requires slot < |s.flights| && s.flights[slot].Busy? && UserOf(s.flights[slot]) != user
    ensures NulFreeFlights(s) && NulFree(user) ==>
              forall k :: HashInput(user, k) != HashInput(UserOf(s.flights[slot]), s.flights[slot].req.clientOrderId)
  {
    if NulFreeFlights(s) && NulFree(user) {
      var f := s.flights[slot];
      forall k ensures HashInput(user, k) != HashInput(UserOf(f), f.req.clientOrderId) {
        HashInputInjective(user, k, UserOf(f), f.req.clientOrderId);
      }
    }
  }

  lemma FlightsStayNulFree(s: System, e: Event)
    requires Enabled(s, e)
    ensures NulFreeFlights(s) && (e.action.Begin? ==> NulFree(Lower(e.action.email))) ==> NulFreeFlights(Step(s, e))
  {
    hide Judge, NulFree, Lower;
  }

  // --- Whole runs ---

  ghost predicate NulFreeRun(run: seq<Event>) {
    forall i :: 0 <= i < |run| && run[i].action.Begin? ==> NulFree(Lower(run[i].action.email))
  }

  lemma {:induction false} RunKeepsKeys(s: System, run: seq<Event>, user: string)
    requires CanRun(s, run) && Kept(s, user)
    ensures Kept(RunOf(s, run), user)
    ensures ExactlyKept(s, user) && NulFreeRun(run) ==> ExactlyKept(RunOf(s, run), user)
    decreases |run|
  {
    hide Kept, ExactlyKept, Step, Enabled, NulFree, Lower;
    if run != [] {
      StepKeepsKeys(s, run[0], user);
      RunKeepsKeys(Step(s, run[0]), run[1..], user);
      assert NulFreeRun(run) ==> NulFreeRun(run[1..]) && (run[0].action.Begin? ==> NulFree(Lower(run[0].action.email)));
    }
  }

  /** At most once under every interleaving, whoever else is served at the same time: the
      acceptances of one key of one user are at least the window apart. */
  lemma KeysAtMostOnce(s: System, run: seq<Event>, user: string, i: nat, j: nat)
    requires Initial(s) && CanRun(s, run)
    requires var keys := LogOf(RunOf(s, run), user).keys; i < j < |keys| && keys[i].item == keys[j].item
    ensures var keys := LogOf(RunOf(s, run), user).keys; keys[j].at - keys[i].at >= 900_000_000_000
  {
    hide Step, Enabled, CanRun, RunOf, LogOf;
    KeptInitially(s, user);
    RunKeepsKeys(s, run, user);
  }

  lemma KeptInitially(s: System, user: string)
    requires Initial(s)
    ensures Kept(s, user) && (NulFree(user) ==> ExactlyKept(s, user))
  {
  }

  /** The key was accepted within the window. */
  ghost predicate Taken(keys: seq<Stamp<string>>, k: string, now: Time) {
    exists i :: 0 <= i < |keys| && keys[i].item == k && now - keys[i].at < DEFAULT_TTL
  }

  lemma LiveEntriesAreAcceptances(
    entries: map<string, Time>, keys: seq<Stamp<string>>, user: string, k: string, now: Time)
    requires KeysOk(entries, keys, user, now) && Earned(entries, keys, user, now)
    ensures Seen(entries, DEFAULT_TTL, HashInput(user, k), now) <==> Taken(keys, k, now)
  {
    hide HashInput;
    if Seen(entries, DEFAULT_TTL, HashInput(user, k), now) {
      var at := entries[HashInput(user, k)];
      var i :| 0 <= i < |keys| && keys[i] == Stamp(at, k);
    }
  }

  /** The map answers like a scan of everything the user ever had accepted, as long as
      addresses are free of NUL. */
  lemma KeysAnswerFromHistory(s: System, run: seq<Event>, user: string, k: string, now: Time)
    requires Initial(s) && CanRun(s, run) && NulFreeRun(run) && NulFree(user) && RunOf(s, run).now <= now
    ensures Seen(RunOf(s, run).guard.entries, DEFAULT_TTL, HashInput(user, k), now) <==>
              Taken(LogOf(RunOf(s, run), user).keys, k, now)
  {
    hide Step, Enabled, CanRun, LogOf, NulFree, NulFreeFlights, HashInput, KeysOk, Earned, Taken, Seen;
    KeptInitially(s, user);
    RunKeepsKeys(s, run, user);
    var end := RunOf(s, run);
    hide RunOf;
    KeysWait(end.guard.entries, LogOf(end, user).keys, user, end.now, now);
    LiveEntriesAreAcceptances(end.guard.entries, LogOf(end, user).keys, user, k, now);
  }
}
