/** Every order that is recorded stems from one call of an order tool: what the caller said is
    what was checked, and what is recorded. In particular nothing is recorded, or counted
    towards the breaker, without the confirmation that the user's limits require. */
module Calls {
  import opened Base
  import opened Chain
  import opened Limits
  import opened Orders
  import opened History
  import opened GuardModel
  import opened Protocol
  import opened Coupling
  import opened Bounds
  import opened Decision
  import opened Uninterrupted
  import A = AutoFreeze

  // --- Where a request comes from ---

  /** The call that a slot serves: the last one begun in it. */
  function CallIn(run: seq<Event>, slot: nat): Option<Action> {
    if run == [] then None
    else if run[|run| - 1].action.Begin? && run[|run| - 1].action.slot == slot then Some(run[|run| - 1].action)
    else CallIn(run[..|run| - 1], slot)
  }

  /** Everything that the request says, the caller said. */
  ghost predicate Carries(req: Request, call: Action) {
    && call.Begin? && call.email != "" && OrderTool(call.tool)
    && req.email == call.email && req.tool == call.tool && req.sig == call.args.sig
    && req.orderType == call.args.orderType && req.confirmed == call.args.confirm
    && req.clientOrderId == call.args.clientOrderId && req.variety == call.args.variety
    && req.price == Money(PriceOf(call.args), "INR")
  }

  /** Orders without a price go by their trigger price. */
  function PriceOf(args: ToolArgs): int {
    if args.price != 0 then args.price else args.triggerPrice
  }

  ghost predicate Stems(s: System, run: seq<Event>, slot: nat) {
    slot < |s.flights| && s.flights[slot].Busy? ==>
      CallIn(run, slot).Some? && Carries(s.flights[slot].req, CallIn(run, slot).value)
  }

  lemma {:induction false} RunSplits(s: System, a: seq<Event>, b: seq<Event>)
    requires CanRun(s, a + b)
    ensures CanRun(s, a) && CanRun(RunOf(s, a), b) && RunOf(s, a + b) == RunOf(RunOf(s, a), b)
    decreases |a|
  {
    hide Step, Enabled;
    if a == [] {
      assert a + b == b;
    } else {
      assert (a + b)[0] == a[0] && (a + b)[1..] == a[1..] + b;
      RunSplits(Step(s, a[0]), a[1..], b);
    }
  }

  /** The last step of a run. */
  lemma LastStep(s: System, run: seq<Event>)
    requires CanRun(s, run) && run != []
    ensures var front, e := run[..|run| - 1], run[|run| - 1];
            CanRun(s, front) && Enabled(RunOf(s, front), e) && RunOf(s, run) == Step(RunOf(s, front), e)
  {
    hide Step, Enabled;
    var front, e := run[..|run| - 1], run[|run| - 1];
    assert run == front + [e];
    RunSplits(s, front, [e]);
    assert [e][1..] == [];
    assert CanRun(Step(RunOf(s, front), e), []) && RunOf(RunOf(s, front), [e]) == Step(RunOf(s, front), e);
  }

  lemma NewRequestCarries(e: Event)
    requires e.action.Begin? && e.action.tool in ORDER_TOOLS && e.action.email != ""
    ensures Carries(BuildRequest(e.action.email, e.action.tool, e.action.args), e.action)
  {
    OrderToolsAreThese(e.action.tool);
  }

  lemma StepKeepsRequest(s: System, e: Event, slot: nat)
    requires Enabled(s, e) && slot < |Step(s, e).flights| && Step(s, e).flights[slot].Busy?
    ensures slot < |s.flights|
    ensures if e.action.Begin? && e.action.slot == slot
            then e.action.tool in ORDER_TOOLS && e.action.email != ""
                 && Step(s, e).flights[slot].req == BuildRequest(e.action.email, e.action.tool, e.action.args)
            else s.flights[slot].Busy? && Step(s, e).flights[slot].req == s.flights[slot].req
  {
    hide GuardAfter, GuardAfterCall, LogAfter, BuildRequest, Judge, Status;
  }

  lemma {:induction false} RequestsStem(s: System, run: seq<Event>, slot: nat)
    requires Initial(s) && CanRun(s, run)
    ensures Stems(RunOf(s, run), run, slot)
    decreases |run|
  {
    hide Initial, CanRun, RunOf, Step, Enabled, Carries, BuildRequest;
    if run == [] {
      NothingBusy(s, slot);
      EmptyRun(s);
    } else {
      var front, e := run[..|run| - 1], run[|run| - 1];
      LastStep(s, run);
      var m, end := RunOf(s, front), RunOf(s, run);
      RequestsStem(s, front, slot);
      if slot < |end.flights| && end.flights[slot].Busy? {
        StepKeepsRequest(m, e, slot);
        if e.action.Begin? && e.action.slot == slot {
          NewRequestCarries(e);
        }
      }
    }
  }

  lemma NothingBusy(s: System, slot: nat)
    requires Initial(s)
    ensures slot < |s.flights| ==> s.flights[slot].Idle?
  {
  }

  // --- The confirmation ---

  /** Past the confirmation rule, the user's requests are confirmed. */
  ghost predicate Confirmed(f: Flight, user: string, policy: Limits) {
    f.Busy? && UserOf(f) == user && policy.requireConfirmAllOrders && HasPassed(f, ConfirmationRequired) ==>
      f.req.confirmed
  }

  ghost predicate AllConfirmed(s: System, user: string, policy: Limits) {
    forall i :: 0 <= i < |s.flights| ==> Confirmed(s.flights[i], user, policy)
  }

  lemma StepConfirms(g: GuardState, user: string, policy: Limits, f: Flight, a: Action, env: Env)
    requires Governs(g, user, policy) && Confirmed(f, user, policy)
    requires OfRequest(a) && f.Busy? && Ready(f, a)
    ensures Confirmed(FlightAfter(g, f, a, env), user, policy)
  {
    var f' := FlightAfter(g, f, a, env);
    if a.Evaluate? && f'.Busy? && f'.stage.Checking? && UserOf(f) == user {
      if f.chain[f.done].rule == ConfirmationRequired {
        ConfirmationAnswers(g, user, policy, f, env);
      } else {
        hide Judge;
      }
    } else {
      hide Judge;
    }
  }

  lemma ConfirmationAnswers(g: GuardState, user: string, policy: Limits, f: Flight, env: Env)
    requires Governs(g, user, policy) && f.Busy? && UserOf(f) == user
    requires f.done < |f.chain| && f.chain[f.done].rule == ConfirmationRequired && Answered(g, f, env).Allow?
    ensures policy.requireConfirmAllOrders ==> f.req.confirmed
  {
    assert Effective(g.limits, f.req.email) == Effective(g.limits, user);
    assert Policy(Effective(g.limits, user)).requireConfirmAllOrders == policy.requireConfirmAllOrders;
  }

  lemma StepKeepsConfirmed(s: System, e: Event, user: string, policy: Limits)
    requires Enabled(s, e) && Sound(s, user, policy) && AllConfirmed(s, user, policy)
    ensures AllConfirmed(Step(s, e), user, policy)
  {
    hide GuardAfter, GuardAfterCall, LogAfter, FlightAfter, Ready, FlightOk, Confirmed, BuildRequest, GuardOk, Governs;
    if e.action.Begin? {
      EnteringIsConfirmed(BuildRequest(e.action.email, e.action.tool, e.action.args), user, policy);
    } else if OfRequest(e.action) {
      SoundFacts(s, user, policy, e.action.slot);
      StepConfirms(s.guard, user, policy, s.flights[e.action.slot], e.action, e.env);
    }
  }

  lemma EnteringIsConfirmed(req: Request, user: string, policy: Limits)
    ensures Confirmed(Busy(req, Entering, [], 0), user, policy) && Confirmed(Idle, user, policy)
  {
  }

  lemma {:induction false} RunKeepsConfirmed(s: System, run: seq<Event>, user: string, policy: Limits)
    requires CanRun(s, run) && Sound(s, user, policy) && AllConfirmed(s, user, policy)
    ensures Sound(RunOf(s, run), user, policy) && AllConfirmed(RunOf(s, run), user, policy)
    decreases |run|
  {
    hide Sound, AllConfirmed, Enabled, Step;
    if run != [] {
      StepKeepsSound(s, run[0], user, policy);
      StepKeepsConfirmed(s, run[0], user, policy);
      RunKeepsConfirmed(Step(s, run[0]), run[1..], user, policy);
    }
  }

  lemma ReachableIsConfirmed(s: System, run: seq<Event>, user: string)
    requires Initial(s) && CanRun(s, run) && Lower(user) == user
    ensures Sound(RunOf(s, run), user, PolicyOf(s, user)) && AllConfirmed(RunOf(s, run), user, PolicyOf(s, user))
  {
    hide Sound, CanRun, RunOf, PolicyOf;
    InitialIsSound(s, user);
    RunKeepsConfirmed(s, run, user, PolicyOf(s, user));
  }

  lemma RecordingIsConfirmed(f: Flight, user: string, policy: Limits)
    requires FlightOk(f, user, policy) && Confirmed(f, user, policy)
    requires f.Busy? && f.stage.Recording? && UserOf(f) == user && policy.requireConfirmAllOrders
    ensures f.req.confirmed
  {
    assert CONFIRMATION in f.chain;
  }

  // --- What is recorded ---

  /** The order that a call places. */
  function OrderOfCall(call: Action): Order
    requires call.Begin?
  {
    var price := PriceOf(call.args);
    Order(Some(call.args.sig), if price > 0 then price * call.args.sig.quantity else 0)
  }

  lemma RecordStepAdds(s: System, e: Event)
    requires Enabled(s, e) && e.action.Record?
    ensures var req, user := s.flights[e.action.slot].req, UserOf(s.flights[e.action.slot]);
            LogOf(Step(s, e), user).orders == LogOf(s, user).orders + [Stamp(e.env.now, OrderOf(Some(req)))]
  {
    hide Track;
  }

  lemma CarriedOrder(req: Request, call: Action)
    requires Carries(req, call)
    ensures OrderOf(Some(req)) == OrderOfCall(call)
  {
  }

  /** In any interleaving, an order that is recorded is the one that the last call of its slot
      asked for: signature, quantity and price are the caller's, the call came from the user
      under some spelling of the address, and it was confirmed if the user's limits require
      it. */
  lemma RecordsStemFromCalls(s: System, run: seq<Event>, e: Event, user: string)
    requires Initial(s) && CanRun(s, run) && Lower(user) == user
    requires Enabled(RunOf(s, run), e) && e.action.Record? && UserOf(RunOf(s, run).flights[e.action.slot]) == user
    ensures var m, call := RunOf(s, run), CallIn(run, e.action.slot);
            && call.Some? && call.value.Begin? && OrderTool(call.value.tool) && SameAddress(call.value.email, user)
            && (PolicyOf(s, user).requireConfirmAllOrders ==> call.value.args.confirm)
            && LogOf(Step(m, e), user).orders ==
                 LogOf(m, user).orders + [Stamp(e.env.now, OrderOfCall(call.value))]
  {
    hide Initial, CanRun, RunOf, Step, PolicyOf, GuardOk, FlightOk, Confirmed, OrderOf, OrderOfCall;
    var m, slot := RunOf(s, run), e.action.slot;
    var f := m.flights[slot];
    RequestsStem(s, run, slot);
    ReachableIsConfirmed(s, run, user);
    RecordStepAdds(m, e);
    CarriedOrder(f.req, CallIn(run, slot).value);
    SpellingsOfOneAddress(f.req.email, user);
    if PolicyOf(s, user).requireConfirmAllOrders {
      RecordingIsConfirmed(f, user, PolicyOf(s, user));
    }
  }

  // --- What is counted ---

  /** Without the confirmation a request gets no further than the rule that asks for it. */
  ghost predicate Stopped(f: Flight, user: string, policy: Limits) {
    f.Busy? && !f.stage.Entering? ==>
      && WellFormed(f.chain) && A.ConfirmationSecond(f.chain)
      && (UserOf(f) == user && policy.requireConfirmAllOrders && !f.req.confirmed ==> f.stage.Checking? && f.done <= 1)
  }

  ghost predicate AllStopped(s: System, user: string, policy: Limits) {
    && A.ConfirmationSecond(s.guard.checks)
    && forall i :: 0 <= i < |s.flights| ==> Stopped(s.flights[i], user, policy)
  }

  lemma StepStops(g: GuardState, user: string, policy: Limits, f: Flight, a: Action, env: Env)
    requires Governs(g, user, policy) && Stopped(f, user, policy) && A.ConfirmationSecond(g.checks)
    requires OfRequest(a) && f.Busy? && Ready(f, a)
    ensures Stopped(FlightAfter(g, f, a, env), user, policy)
  {
    if a.Evaluate? && UserOf(f) == user && policy.requireConfirmAllOrders && !f.req.confirmed {
      FirstTwoRefuse(g, user, policy, f, env);
    } else {
      hide Judge, WellFormed;
    }
  }

  lemma FirstTwoRefuse(g: GuardState, user: string, policy: Limits, f: Flight, env: Env)
    requires Governs(g, user, policy) && f.Busy? && UserOf(f) == user && WellFormed(f.chain)
    requires A.ConfirmationSecond(f.chain)
    requires policy.requireConfirmAllOrders && !f.req.confirmed && f.done <= 1
    ensures !f.chain[f.done].counted
    ensures f.done == 1 ==> Answered(g, f, env).Reject?
  {
    assert Canonical(f.chain[0]) && Canonical(f.chain[1]);
    hide WellFormed;
    if f.done == 1 && Answered(g, f, env).Allow? {
      ConfirmationAnswers(g, user, policy, f, env);
    }
  }

  lemma EnteringIsStopped(req: Request, user: string, policy: Limits)
    ensures Stopped(Busy(req, Entering, [], 0), user, policy) && Stopped(Idle, user, policy)
  {
  }

  lemma StepKeepsStopped(s: System, e: Event, user: string, policy: Limits)
    requires Enabled(s, e) && Sound(s, user, policy) && AllStopped(s, user, policy)
    ensures AllStopped(Step(s, e), user, policy)
  {
    hide GuardAfter, GuardAfterCall, LogAfter, FlightAfter, Ready, FlightOk, Stopped, BuildRequest, GuardOk, Governs;
    StepKeepsChain(s, e);
    if e.action.Begin? {
      EnteringIsStopped(BuildRequest(e.action.email, e.action.tool, e.action.args), user, policy);
    } else if OfRequest(e.action) {
      SoundFacts(s, user, policy, e.action.slot);
      StepStops(s.guard, user, policy, s.flights[e.action.slot], e.action, e.env);
    }
  }

  lemma {:induction false} RunKeepsStopped(s: System, run: seq<Event>, user: string, policy: Limits)
    requires CanRun(s, run) && Sound(s, user, policy) && AllStopped(s, user, policy)
    ensures AllStopped(RunOf(s, run), user, policy)
    decreases |run|
  {
    hide Sound, AllStopped, Enabled, Step;
    if run != [] {
      StepKeepsSound(s, run[0], user, policy);
      StepKeepsStopped(s, run[0], user, policy);
      RunKeepsStopped(Step(s, run[0]), run[1..], user, policy);
    }
  }

  lemma ReachableIsStopped(s: System, run: seq<Event>, user: string)
    requires Initial(s) && CanRun(s, run) && Lower(user) == user && A.ConfirmationSecond(s.guard.checks)
    ensures AllStopped(RunOf(s, run), user, PolicyOf(s, user))
  {
    hide Sound, CanRun, RunOf, PolicyOf;
    InitialIsSound(s, user);
    RunKeepsStopped(s, run, user, PolicyOf(s, user));
  }

  lemma CountingIsConfirmed(f: Flight, user: string, policy: Limits)
    requires Stopped(f, user, policy) && f.Busy? && f.stage.Counting? && UserOf(f) == user
    ensures policy.requireConfirmAllOrders ==> f.req.confirmed
  {
  }

  /** In any interleaving of a gate that asks for the confirmation second, a rejection that is
      counted towards the breaker stems from a confirmed call of the user, if the user's limits
      require confirmations: leaving them out never freezes anybody. */
  lemma CountsStemFromConfirmedCalls(s: System, run: seq<Event>, e: Event, user: string)
    requires Initial(s) && CanRun(s, run) && Lower(user) == user && A.ConfirmationSecond(s.guard.checks)
    requires Enabled(RunOf(s, run), e) && e.action.Count? && UserOf(RunOf(s, run).flights[e.action.slot]) == user
    ensures var call := CallIn(run, e.action.slot);
            && call.Some? && call.value.Begin? && SameAddress(call.value.email, user)
            && (PolicyOf(s, user).requireConfirmAllOrders ==> call.value.args.confirm)
  {
    hide Initial, CanRun, RunOf, Step, PolicyOf, Stopped;
    var f := RunOf(s, run).flights[e.action.slot];
    RequestsStem(s, run, e.action.slot);
    ReachableIsStopped(s, run, user);
    CountingIsConfirmed(f, user, PolicyOf(s, user));
    SpellingsOfOneAddress(f.req.email, user);
  }

  // --- A user who never confirms ---

  ghost predicate NeverConfirms(run: seq<Event>, user: string) {
    forall i :: 0 <= i < |run| && run[i].action.Begin? && SameAddress(run[i].action.email, user) ==>
      !run[i].action.args.confirm
  }

  lemma {:induction false} CallIsInRun(run: seq<Event>, slot: nat)
    ensures CallIn(run, slot).Some? ==> exists i :: 0 <= i < |run| && run[i].action == CallIn(run, slot).value
  {
    if run != [] {
      var n := |run| - 1;
      CallIsInRun(run[..n], slot);
      if CallIn(run[..n], slot).Some? {
        var i :| 0 <= i < n && run[..n][i].action == CallIn(run[..n], slot).value;
        assert run[i].action == CallIn(run[..n], slot).value;
      }
      assert run[n].action == run[|run| - 1].action;
    }
  }

  lemma LogGrowsBy(s: System, e: Event, user: string)
    requires Enabled(s, e)
    ensures var own := OfRequest(e.action) && UserOf(s.flights[e.action.slot]) == user;
            && (!(e.action.Record? && own) ==> LogOf(Step(s, e), user).orders == LogOf(s, user).orders)
            && (!(e.action.Count? && own) ==> LogOf(Step(s, e), user).rejections == LogOf(s, user).rejections)
  {
    hide Judge, GuardAfter, GuardAfterCall, FlightAfter, BuildRequest, Status;
  }

  /** Whatever a user who must confirm submits without doing so, and however it is interleaved
      with everything else: nothing is ever recorded for the user, and where the gate asks for
      the confirmation second, nothing is counted either. */
  lemma {:induction false} NothingUnconfirmed(s: System, run: seq<Event>, user: string)
    requires Initial(s) && CanRun(s, run) && Lower(user) == user
    requires PolicyOf(s, user).requireConfirmAllOrders && NeverConfirms(run, user)
    ensures LogOf(RunOf(s, run), user).orders == []
    ensures A.ConfirmationSecond(s.guard.checks) ==> LogOf(RunOf(s, run), user).rejections == []
    decreases |run|
  {
    if run == [] {
      EmptyRun(s);
    } else {
      hide Initial, CanRun, RunOf, Step, Enabled, PolicyOf, LogOf;
      var front, e := run[..|run| - 1], run[|run| - 1];
      LastStep(s, run);
      NothingUnconfirmed(s, front, user);
      NotLastly(s, front, e, user);
      LogGrowsBy(RunOf(s, front), e, user);
    }
  }

  lemma NotLastly(s: System, run: seq<Event>, e: Event, user: string)
    requires Initial(s) && CanRun(s, run) && Lower(user) == user && Enabled(RunOf(s, run), e)
    requires PolicyOf(s, user).requireConfirmAllOrders && NeverConfirms(run, user)
    ensures e.action.Record? ==> UserOf(RunOf(s, run).flights[e.action.slot]) != user
    ensures A.ConfirmationSecond(s.guard.checks) && e.action.Count? ==>
              UserOf(RunOf(s, run).flights[e.action.slot]) != user
  {
    hide Initial, CanRun, RunOf, PolicyOf, LogOf, OrderTool, SameAddress;
    if e.action.Record? && UserOf(RunOf(s, run).flights[e.action.slot]) == user {
      RecordsStemFromCalls(s, run, e, user);
      CallIsInRun(run, e.action.slot);
      assert false;
    }
    if A.ConfirmationSecond(s.guard.checks) && e.action.Count? && UserOf(RunOf(s, run).flights[e.action.slot]) == user {
      CountsStemFromConfirmedCalls(s, run, e, user);
      CallIsInRun(run, e.action.slot);
      assert false;
    }
  }
}
