/** The lifecycle of a check that lives in its own process: lazy launch, cached connection,
    discard after a failed call, and terminal close. */
module Subprocess {
  import opened Base

  /** A process is named by its launch number; client and proxy hold the cached one. */
  datatype Host = Host(client: Option<nat>, proxy: Option<nat>, closed: bool, spawned: nat, alive: set<nat>)

  const NEW_HOST := Host(None, None, false, 0, {})

  datatype Launch = Ready | NoHandshake | NoDispense | WrongProxy

  datatype Rpc = Ok(allowed: bool, reason: string) | Failed

  datatype Verdict = Closed | Unavailable | RpcError | Answered(allowed: bool, reason: string)

  predicate Allows(v: Verdict) {
    v.Answered? && v.allowed
  }

  function Spawned(h: Host): Host {
    h.(spawned := h.spawned + 1, alive := h.alive + {h.spawned})
  }

  /** The launched process is cached when it offers the right proxy, and killed otherwise. */
  function Settled(h: Host, pid: nat, launch: Launch): Host {
    if launch.Ready? then h.(client := Some(pid), proxy := Some(pid)) else h.(alive := h.alive - {pid})
  }

  function TornDown(h: Host): Host {
    if h.client.None? then h else h.(client := None, proxy := None, alive := h.alive - {h.client.value})
  }

  /** What holds whenever nobody is inside the write lock. */
  ghost predicate AtRest(h: Host) {
    && h.client == h.proxy
    && h.alive == (if h.client.Some? then {h.client.value} else {})
    && (h.client.Some? ==> h.client.value < h.spawned)
  }

  /** One evaluation that nobody interrupts. */
  function EvaluateOnce(h: Host, launch: Launch, rpc: Rpc): (Host, Verdict) {
    if h.closed then (h, Closed)
    else
      var ready := if h.proxy.Some? then h else Settled(Spawned(h), h.spawned, launch);
      if ready.proxy.None? then (ready, Unavailable)
      else if rpc.Failed? then (TornDown(ready), RpcError)
      else (ready, Answered(rpc.allowed, rpc.reason))
  }

  class SubprocessCheck {
    var client: Option<nat>
    var proxy: Option<nat>
    var closed: bool
    var spawned: nat
    var alive: set<nat>

    function State(): Host
      reads this
    {
      Host(client, proxy, closed, spawned, alive)
    }

    constructor ()
      ensures State() == NEW_HOST && AtRest(State())
    {
      client, proxy, closed, spawned, alive := None, None, false, 0, {};
    }

    method LaunchLocked(launch: Launch) returns (ok: bool)
      requires AtRest(State()) && proxy.None?
      modifies this
      ensures State() == Settled(Spawned(old(State())), old(spawned), launch) && AtRest(State())
      ensures ok <==> proxy.Some?
    {
      var pid := spawned;
      spawned, alive := spawned + 1, alive + {pid};
      if !launch.Ready? {
        alive := alive - {pid};
        return false;
      }
      client := Some(pid);
      proxy := Some(pid);
      return true;
    }

    method EnsureProxy(launch: Launch) returns (p: Option<nat>)
      requires AtRest(State())
      modifies this
      ensures State() == if old(proxy).Some? then old(State()) else Settled(Spawned(old(State())), old(spawned), launch)
      ensures AtRest(State()) && p == proxy
    {
      if proxy.Some? {
        return proxy;
      }
      var ok := LaunchLocked(launch);
      p := if ok then proxy else None;
    }

    method DiscardClient()
      requires AtRest(State())
      modifies this
      ensures State() == TornDown(old(State())) && AtRest(State()) && alive == {}
    {
      if client.Some? {
        alive := alive - {client.value};
        client := None;
        proxy := None;
      }
    }

    method Close()
      requires AtRest(State())
      modifies this
      ensures State() == TornDown(old(State()).(closed := true)) && AtRest(State()) && alive == {}
    {
      closed := true;
      DiscardClient();
    }

    method Evaluate(launch: Launch, rpc: Rpc) returns (v: Verdict)
      requires AtRest(State())
      modifies this
      ensures (State(), v) == EvaluateOnce(old(State()), launch, rpc) && AtRest(State())
      ensures Allows(v) ==> !old(closed) && (old(proxy).Some? || launch.Ready?) && rpc == Ok(true, v.reason)
    {
      if closed {
        return Closed;
      }
      var p := EnsureProxy(launch);
      if p.None? {
        return Unavailable;
      }
      if rpc.Failed? {
        DiscardClient();
        return RpcError;
      }
      return Answered(rpc.allowed, rpc.reason);
    }
  }

  // --- Interleaved callers ---

  /** Where a call of Evaluate is between two of its atomic steps. */
  datatype Stage =
    | Testing
    | Peeking
    | Waiting
    | Holding
    | Launching(pid: nat)
    | Calling(pid: nat)
    | Discarding(pid: nat)

  /** A worker is free, evaluates, or closes; an evaluation is late when it begins after a
      Close has begun. */
  datatype Worker = Idle | Evaluating(late: bool, stage: Stage) | Closing

  datatype Answer = Answer(slot: nat, late: bool, verdict: Verdict)

  datatype System = System(host: Host, lock: Option<nat>, workers: seq<Worker>, answers: seq<Answer>)

  datatype Event =
    | BeginEvaluate(slot: nat)
    | Test(slot: nat)
    | Peek(slot: nat)
    | Lock(slot: nat)
    | Recheck(slot: nat)
    | Settle(slot: nat, launch: Launch)
    | Return(slot: nat, rpc: Rpc)
    | Discard(slot: nat)
    | BeginClose(slot: nat)
    | TearDown(slot: nat)

  predicate In(w: Worker, stage: Stage) {
    w.Evaluating? && w.stage == stage
  }

  predicate Enabled(s: System, e: Event) {
    && e.slot < |s.workers|
    && var w := s.workers[e.slot];
    match e
    case BeginEvaluate(_) => w.Idle?
    case Test(_) => In(w, Testing)
    case Peek(_) => In(w, Peeking) && s.lock.None?
    case Lock(_) => In(w, Waiting) && s.lock.None?
    case Recheck(_) => In(w, Holding)
    case Settle(_, _) => w.Evaluating? && w.stage.Launching?
    case Return(_, _) => w.Evaluating? && w.stage.Calling?
    case Discard(_) => w.Evaluating? && w.stage.Discarding? && s.lock.None?
    case BeginClose(_) => w.Idle?
    case TearDown(_) => w.Closing? && s.lock.None?
  }

  function Moved(s: System, slot: nat, stage: Stage): System
    requires slot < |s.workers| && s.workers[slot].Evaluating?
  {
    s.(workers := s.workers[slot := s.workers[slot].(stage := stage)])
  }

  function Replied(s: System, slot: nat, v: Verdict): System
    requires slot < |s.workers| && s.workers[slot].Evaluating?
  {
    s.(workers := s.workers[slot := Idle], answers := s.answers + [Answer(slot, s.workers[slot].late, v)])
  }

  function Step(s: System, e: Event): System
    requires Enabled(s, e)
  {
    var w := s.workers[e.slot];
    match e
    case BeginEvaluate(slot) => s.(workers := s.workers[slot := Evaluating(s.host.closed, Testing)])
    case Test(slot) => if s.host.closed then Replied(s, slot, Closed) else Moved(s, slot, Peeking)
    case Peek(slot) => Moved(s, slot, if s.host.proxy.Some? then Calling(s.host.proxy.value) else Waiting)
    case Lock(slot) => Moved(s, slot, Holding).(lock := Some(slot))
    case Recheck(slot) =>
      if s.host.proxy.Some? then Moved(s, slot, Calling(s.host.proxy.value)).(lock := None)
      else Moved(s, slot, Launching(s.host.spawned)).(host := Spawned(s.host))
    case Settle(slot, launch) =>
      var s' := s.(host := Settled(s.host, w.stage.pid, launch), lock := None);
      if launch.Ready? then Moved(s', slot, Calling(w.stage.pid)) else Replied(s', slot, Unavailable)
    case Return(slot, rpc) =>
      (match rpc
       case Ok(allowed, reason) => Replied(s, slot, Answered(allowed, reason))
       case Failed => Moved(s, slot, Discarding(w.stage.pid)))
    case Discard(slot) => Replied(s.(host := TornDown(s.host)), slot, RpcError)
    case BeginClose(slot) => s.(host := s.host.(closed := true), workers := s.workers[slot := Closing])
    case TearDown(slot) => s.(host := TornDown(s.host), workers := s.workers[slot := Idle])
  }

  ghost predicate Initial(s: System) {
    s.host == NEW_HOST && s.lock.None? && s.answers == [] && forall i :: 0 <= i < |s.workers| ==> s.workers[i].Idle?
  }

  predicate CanRun(s: System, run: seq<Event>)
    decreases |run|
  {
    run == [] || (Enabled(s, run[0]) && CanRun(Step(s, run[0]), run[1..]))
  }

  function RunOf(s: System, run: seq<Event>): System
    requires CanRun(s, run)
    decreases |run|
  {
    if run == [] then s else RunOf(Step(s, run[0]), run[1..])
  }

  // --- The lock ---

  predicate Inside(w: Worker) {
    w.Evaluating? && (w.stage.Holding? || w.stage.Launching?)
  }

  /** The process that is alive in the middle of a launch is not cached yet. */
  ghost predicate InLaunch(h: Host, pid: nat) {
    h.client.None? && h.proxy.None? && h.alive == {pid} && pid < h.spawned
  }

  ghost predicate LockOk(s: System) {
    && (forall i :: 0 <= i < |s.workers| ==> (Inside(s.workers[i]) <==> s.lock == Some(i)))
    && (s.lock.Some? ==> s.lock.value < |s.workers|)
    && (if s.lock.Some? && s.workers[s.lock.value].stage.Launching?
        then InLaunch(s.host, s.workers[s.lock.value].stage.pid) else AtRest(s.host))
  }

  ghost predicate LateOk(s: System) {
    && (forall i :: 0 <= i < |s.workers| && s.workers[i].Evaluating? && s.workers[i].late ==>
          s.host.closed && s.workers[i].stage.Testing?)
    && (forall i :: 0 <= i < |s.answers| && s.answers[i].late ==> s.answers[i].verdict == Closed)
  }

  ghost predicate Sane(s: System) {
    LockOk(s) && LateOk(s)
  }

  lemma StepKeepsLock(s: System, e: Event)
    requires LockOk(s) && Enabled(s, e)
    ensures LockOk(Step(s, e))
  {
  }

  lemma StepKeepsLate(s: System, e: Event)
    requires LateOk(s) && Enabled(s, e)
    ensures LateOk(Step(s, e))
  {
  }

  lemma StepKeepsSane(s: System, e: Event)
    requires Sane(s) && Enabled(s, e)
    ensures Sane(Step(s, e))
  {
    hide LockOk, LateOk, Step, Enabled;
    StepKeepsLock(s, e);
    StepKeepsLate(s, e);
  }

  lemma {:induction false} RunKeepsSane(s: System, run: seq<Event>)
    requires Sane(s) && CanRun(s, run)
    ensures Sane(RunOf(s, run))
    decreases |run|
  {
    hide Step, Enabled, Sane;
    if run != [] {
      StepKeepsSane(s, run[0]);
      RunKeepsSane(Step(s, run[0]), run[1..]);
    }
  }

  /** Under every interleaving: whenever the lock is free, client and proxy are set together
      and the one cached process is the only one alive; and every evaluation begun after a
      Close is refused as closed. */
  lemma LockFreeMeansAtRest(s: System, run: seq<Event>)
    requires Initial(s) && CanRun(s, run)
    ensures RunOf(s, run).lock.None? ==> AtRest(RunOf(s, run).host)
    ensures forall i :: 0 <= i < |RunOf(s, run).answers| && RunOf(s, run).answers[i].late ==>
              RunOf(s, run).answers[i].verdict == Closed
  {
    hide Step, Enabled;
    RunKeepsSane(s, run);
  }

  // --- Where answers come from ---

  /** What the plugin said, in sequence. */
  function Said(run: seq<Event>): seq<(nat, bool, string)>
    decreases |run|
  {
    if run == [] then []
    else
      (match run[0]
       case Return(slot, Ok(allowed, reason)) => [(slot, allowed, reason)]
       case _ => [])
      + Said(run[1..])
  }

  /** What callers were told on the plugin's behalf, in sequence. */
  function Told(answers: seq<Answer>): seq<(nat, bool, string)> {
    if answers == [] then []
    else
      var a := answers[|answers| - 1];
      Told(answers[..|answers| - 1]) +
      if a.verdict.Answered? then [(a.slot, a.verdict.allowed, a.verdict.reason)] else []
  }

  lemma StepTells(s: System, e: Event)
    requires Enabled(s, e)
    ensures Told(Step(s, e).answers) == Told(s.answers) + Said([e])
  {
    var answers := Step(s, e).answers;
    if |answers| > |s.answers| {
      assert answers[..|s.answers|] == s.answers;
    }
  }

  lemma SaidFirst(run: seq<Event>)
    requires run != []
    ensures Said(run) == Said([run[0]]) + Said(run[1..])
  {
    assert [run[0]][1..] == [];
  }

  /** Nothing is allowed that the plugin did not allow: the answers given on its behalf are
      exactly its own successful replies, in the same sequence and to the same callers. Every
      other answer is a refusal. */
  lemma {:induction false} AnswersAreThePlugins(s: System, run: seq<Event>)
    requires CanRun(s, run)
    ensures Told(RunOf(s, run).answers) == Told(s.answers) + Said(run)
    decreases |run|
  {
    hide Step, Enabled, Told, Said;
    if run == [] {
      NothingSaid();
    } else {
      StepTells(s, run[0]);
      SaidFirst(run);
      AnswersAreThePlugins(Step(s, run[0]), run[1..]);
    }
  }

  lemma NothingSaid()
    ensures Said([]) == []
  {
  }

  // --- Closing ---

  /** The worker has passed the closed test and may still launch. */
  predicate MayLaunch(w: Worker) {
    w.Evaluating? && (w.stage.Peeking? || w.stage.Waiting? || w.stage.Holding? || w.stage.Launching?)
  }

  ghost predicate Quiet(s: System) {
    && s.host.closed && s.host.client.None? && s.host.proxy.None? && s.host.alive == {}
    && forall i :: 0 <= i < |s.workers| ==> !MayLaunch(s.workers[i])
  }

  lemma {:induction false} QuietForever(s: System, run: seq<Event>)
    requires Quiet(s) && CanRun(s, run)
    ensures Quiet(RunOf(s, run))
    decreases |run|
  {
    if run != [] {
      StepKeepsQuiet(s, run[0]);
      QuietForever(Step(s, run[0]), run[1..]);
    }
  }

  lemma StepKeepsQuiet(s: System, e: Event)
    requires Quiet(s) && Enabled(s, e)
    ensures Quiet(Step(s, e))
  {
  }

  /** A process that nobody will ever kill unless it fails: closed, and still cached. */
  ghost predicate Leaked(s: System) {
    s.host.closed && s.lock.None? && s.host.client.Some? && s.host.client.value in s.host.alive
  }

  ghost predicate CanLeak(s: System) {
    exists run :: CanRun(s, run) && Leaked(RunOf(s, run))
  }

  lemma Then(s: System, e: Event, rest: seq<Event>)
    requires Enabled(s, e) && CanRun(Step(s, e), rest)
    ensures CanRun(s, [e] + rest) && RunOf(s, [e] + rest) == RunOf(Step(s, e), rest)
  {
    assert ([e] + rest)[1..] == rest;
  }

  lemma WaiterLaunches(s: System, slot: nat) returns (run: seq<Event>)
    requires Sane(s) && s.lock.None? && s.host.closed && s.host.client.None?
    requires slot < |s.workers| && In(s.workers[slot], Waiting)
    ensures CanRun(s, run) && Leaked(RunOf(s, run))
  {
    var s1 := Step(s, Lock(slot));
    var s2 := Step(s1, Recheck(slot));
    var s3 := Step(s2, Settle(slot, Ready));
    Then(s2, Settle(slot, Ready), []);
    Then(s1, Recheck(slot), [Settle(slot, Ready)] + []);
    Then(s, Lock(slot), [Recheck(slot)] + ([Settle(slot, Ready)] + []));
    run := [Lock(slot)] + ([Recheck(slot)] + ([Settle(slot, Ready)] + []));
  }

  /** Close is terminal for calls that begin after it. For the process it is terminal exactly
      when no call that passed the closed test earlier is still on its way to a launch: after
      the tear-down such a call can launch a process again, which then outlives the Close. */
  lemma CloseLeaksIff(s: System)
    requires Sane(s) && s.lock.None? && s.host.closed && s.host.client.None?
    ensures CanLeak(s) <==> exists i :: 0 <= i < |s.workers| && MayLaunch(s.workers[i])
  {
    hide Step, Enabled;
    if i :| 0 <= i < |s.workers| && MayLaunch(s.workers[i]) {
      if In(s.workers[i], Waiting) {
        var run := WaiterLaunches(s, i);
        assert CanLeak(s);
      } else {
        PeekerWaits(s, i);
        StepKeepsSane(s, Peek(i));
        var rest := WaiterLaunches(Step(s, Peek(i)), i);
        Then(s, Peek(i), rest);
        assert CanLeak(s);
      }
    } else {
      assert Quiet(s);
      forall run | CanRun(s, run) ensures !Leaked(RunOf(s, run)) {
        QuietForever(s, run);
      }
    }
  }

  lemma PeekerWaits(s: System, slot: nat)
    requires Sane(s) && s.lock.None? && s.host.client.None?
    requires slot < |s.workers| && MayLaunch(s.workers[slot]) && !In(s.workers[slot], Waiting)
    ensures Enabled(s, Peek(slot))
    ensures var s' := Step(s, Peek(slot));
            s'.host == s.host && s'.lock.None? && slot < |s'.workers| && In(s'.workers[slot], Waiting)
  {
  }

  /** A failed call discards whatever is cached at that moment: the process that failed is
      the one that is killed exactly when it is still the cached one. Otherwise a healthy
      replacement launched in the meantime dies. */
  lemma DiscardKillsTheCurrent(s: System, slot: nat)
    requires Sane(s) && Enabled(s, Discard(slot))
    ensures var failed, s' := s.workers[slot].stage.pid, Step(s, Discard(slot));
            && s'.host.alive == {}
            && (failed in s.host.alive <==> s.host.client == Some(failed))
            && (s.host.client.Some? && s.host.client != Some(failed) ==>
                  s.host.alive - s'.host.alive == {s.host.client.value} && failed !in s.host.alive)
  {
  }

  // --- One caller alone ---

  ghost predicate Answers(s: System, end: System, slot: nat, late: bool, h: Host, v: Verdict) {
    && slot < |s.workers|
    && end == System(h, None, s.workers[slot := Idle], s.answers + [Answer(slot, late, v)])
  }

  lemma FinishCall(s: System, slot: nat, pid: nat, rpc: Rpc) returns (run: seq<Event>)
    requires s.lock.None? && slot < |s.workers| && In(s.workers[slot], Calling(pid))
    ensures CanRun(s, run)
    ensures Answers(s, RunOf(s, run), slot, s.workers[slot].late,
                    if rpc.Failed? then TornDown(s.host) else s.host,
                    if rpc.Failed? then RpcError else Answered(rpc.allowed, rpc.reason))
  {
    var s1 := Step(s, Return(slot, rpc));
    run := [];
    if rpc.Failed? {
      var s2 := Step(s1, Discard(slot));
      Then(s1, Discard(slot), []);
      run := [Discard(slot)] + [];
    }
    Then(s, Return(slot, rpc), run);
    run := [Return(slot, rpc)] + run;
  }

  lemma LaunchAndCall(s: System, slot: nat, launch: Launch, rpc: Rpc) returns (run: seq<Event>)
    requires s.lock.None? && slot < |s.workers| && In(s.workers[slot], Waiting) && s.host.proxy.None?
    ensures CanRun(s, run)
    ensures var h := Settled(Spawned(s.host), s.host.spawned, launch);
            Answers(s, RunOf(s, run), slot, s.workers[slot].late,
                    if launch.Ready? && rpc.Failed? then TornDown(h) else h,
                    if !launch.Ready? then Unavailable
                    else if rpc.Failed? then RpcError else Answered(rpc.allowed, rpc.reason))
  {
    var s1 := Step(s, Lock(slot));
    var s2 := Step(s1, Recheck(slot));
    var s3 := Step(s2, Settle(slot, launch));
    run := [];
    if launch.Ready? {
      run := FinishCall(s3, slot, s.host.spawned, rpc);
    }
    Then(s2, Settle(slot, launch), run);
    run := [Settle(slot, launch)] + run;
    Then(s1, Recheck(slot), run);
    run := [Recheck(slot)] + run;
    Then(s, Lock(slot), run);
    run := [Lock(slot)] + run;
  }

  /** An evaluation that nobody interrupts does in the protocol what the method does. */
  lemma UninterruptedEvaluation(s: System, slot: nat, launch: Launch, rpc: Rpc) returns (run: seq<Event>)
    requires s.lock.None? && slot < |s.workers| && s.workers[slot].Idle?
    ensures CanRun(s, run)
    ensures var (h, v) := EvaluateOnce(s.host, launch, rpc); Answers(s, RunOf(s, run), slot, s.host.closed, h, v)
  {
    var s1 := Step(s, BeginEvaluate(slot));
    var s2 := Step(s1, Test(slot));
    run := [];
    if !s.host.closed {
      var s3 := Step(s2, Peek(slot));
      if s.host.proxy.Some? {
        run := FinishCall(s3, slot, s.host.proxy.value, rpc);
      } else {
        run := LaunchAndCall(s3, slot, launch, rpc);
      }
      Then(s2, Peek(slot), run);
      run := [Peek(slot)] + run;
    }
    Then(s1, Test(slot), run);
    run := [Test(slot)] + run;
    Then(s, BeginEvaluate(slot), run);
    run := [BeginEvaluate(slot)] + run;
  }
}
