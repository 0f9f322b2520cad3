/** The callers of every process's in-flight slot, together with the refresh runs they share.

    A flight of a slot is a run of the refresh protocol: it begins when the flight is taken off, and the
    flight finishes with the run's outcome. */
module RefreshCallers {
  import opened Options
  import Protocol = RefreshProtocol
  import History = RefreshHistory
  import Slot = RefreshCoalescer

  // The shared world, each process's manager, and the run behind each manager's flights.
  datatype System = System(
    world: Protocol.World, managers: map<nat, Slot.Manager>, runs: map<(nat, nat), nat>)

  // p is the run that begins if the call takes off a flight.
  datatype Action =
    | Call(m: nat, c: nat, force: bool, p: nat)
    | Retry(m: nat, c: nat, p: nat)
    | Work(step: Protocol.Action)
    | Finish(m: nat, f: nat)
    | Tidy(m: nat, own: Slot.Action)

  predicate Ended(run: Protocol.Run) {
    run.Settled? || run.Rejected?
  }

  // What a run's promise settles with.
  function ResultOf(run: Protocol.Run): Slot.Result {
    if run.Settled? && run.outcome.Returned? then Slot.Resolved(run.outcome.token.accessToken) else Slot.Refused
  }

  predicate Enabled(s: System, a: Action) {
    match a
    case Call(m, c, force, p) =>
      m in s.managers && Slot.Enabled(s.managers[m], Slot.Call(c, force)) && p !in s.world.runs
    case Retry(m, c, p) => m in s.managers && Slot.Enabled(s.managers[m], Slot.Retry(c)) && p !in s.world.runs
    case Work(step) => !step.Begin? && Protocol.Enabled(s.world, step)
    case Finish(m, f) =>
      && m in s.managers && (m, f) in s.runs && s.runs[(m, f)] in s.world.runs && Ended(s.world.runs[s.runs[(m, f)]])
      && Slot.Enabled(s.managers[m], Slot.Finish(f, ResultOf(s.world.runs[s.runs[(m, f)]])))
    case Tidy(m, own) =>
      m in s.managers && (own.CleanUp? || own.Settle? || own.Return?) && Slot.Enabled(s.managers[m], own)
  }

  // The manager goes on; a flight it has taken off begins its run.
  function Asked(s: System, m: nat, next: Slot.Manager, p: nat): System
    requires m in s.managers && p !in s.world.runs
  {
    var n := |s.managers[m].flights|;
    if n < |next.flights| then
      System(Protocol.Step(s.world, Protocol.Begin(p, next.flights[n].force)), s.managers[m := next], s.runs[(m, n) := p])
    else s.(managers := s.managers[m := next])
  }

  function Step(s: System, a: Action): System
    requires Enabled(s, a)
  {
    match a
    case Call(m, c, force, p) => Asked(s, m, Slot.Step(s.managers[m], Slot.Call(c, force)), p)
    case Retry(m, c, p) => Asked(s, m, Slot.Step(s.managers[m], Slot.Retry(c)), p)
    case Work(step) => s.(world := Protocol.Step(s.world, step))
    case Finish(m, f) =>
      s.(managers := s.managers[m := Slot.Step(s.managers[m], Slot.Finish(f, ResultOf(s.world.runs[s.runs[(m, f)]])))])
    case Tidy(m, own) => s.(managers := s.managers[m := Slot.Step(s.managers[m], own)])
  }

  predicate Initial(s: System) {
    Protocol.Initial(s.world) && s.runs == map[] && forall m :: m in s.managers ==> s.managers[m] == Slot.IDLE
  }

  predicate Possible(s: System, actions: seq<Action>)
    decreases |actions|
  {
    actions == [] || (Enabled(s, actions[0]) && Possible(Step(s, actions[0]), actions[1..]))
  }

  function Reach(s: System, actions: seq<Action>): System
    requires Possible(s, actions)
    decreases |actions|
  {
    if actions == [] then s else Reach(Step(s, actions[0]), actions[1..])
  }

  // ---------- What every step keeps ----------

  // A flight stands for its run: as forced as it is, and finished with its outcome.
  ghost predicate Stands(s: System, m: nat, f: nat)
    requires m in s.managers && f < |s.managers[m].flights|
  {
    && (m, f) in s.runs && s.runs[(m, f)] in s.world.runs
    && var flight, run := s.managers[m].flights[f], s.world.runs[s.runs[(m, f)]];
       && (run.Rejected? || run.force == flight.force)
       && (!flight.phase.Running? ==> Ended(run) && flight.phase.result == ResultOf(run))
  }

  ghost predicate AllStand(s: System, m: nat)
    requires m in s.managers
  {
    Slot.Inv(s.managers[m]) && forall f: nat | f < |s.managers[m].flights| :: Stands(s, m, f)
  }

  ghost predicate Inv(s: System) {
    Protocol.Inv(s.world) && forall m | m in s.managers :: AllStand(s, m)
  }

  // Nothing happens to a run that has ended, and no run changes how forced it is.
  lemma RunGoesOn(w: Protocol.World, a: Protocol.Action, p: nat)
    requires Protocol.Enabled(w, a) && p in w.runs && !(a.Begin? && a.p == p)
    ensures var next := Protocol.Step(w, a);
      && p in next.runs
      && (Ended(w.runs[p]) ==> next.runs[p] == w.runs[p])
      && (next.runs[p].Rejected? || (!w.runs[p].Rejected? && next.runs[p].force == w.runs[p].force))
  {
  }

  lemma WorkKeeps(s: System, step: Protocol.Action)
    requires Inv(s) && Enabled(s, Work(step))
    ensures Inv(Step(s, Work(step)))
  {
    var next := Step(s, Work(step));
    Protocol.StepInv(s.world, step);
    forall m | m in next.managers ensures AllStand(next, m) {
      forall f: nat | f < |next.managers[m].flights| ensures Stands(next, m, f) {
        assert Stands(s, m, f);
        RunGoesOn(s.world, step, s.runs[(m, f)]);
      }
    }
  }

  // How a manager's own step changes its flights: it may take one off, and finish one.
  lemma FlightsGoOn(m: Slot.Manager, a: Slot.Action, f: nat)
    requires Slot.Enabled(m, a) && f < |m.flights|
    ensures var next := Slot.Step(m, a);
      && |m.flights| <= |next.flights| <= |m.flights| + 1
      && next.flights[f].force == m.flights[f].force
      && (next.flights[f].phase.Running? <==> m.flights[f].phase.Running? && !(a.Finish? && a.f == f))
      && (!next.flights[f].phase.Running? ==>
            next.flights[f].phase.result == if a.Finish? && a.f == f then a.result else m.flights[f].phase.result)
  {
  }

  // The flights of all managers go on standing for their runs, but for one just taken off.
  lemma OldFlightsStand(s: System, m: nat, a: Slot.Action, p: nat, q: nat, f: nat)
    requires Inv(s) && m in s.managers && Slot.Enabled(s.managers[m], a) && (a.Call? || a.Retry?) && p !in s.world.runs
    requires q in s.managers && f < |s.managers[q].flights|
    ensures Stands(Asked(s, m, Slot.Step(s.managers[m], a), p), q, f)
  {
    assert AllStand(s, q) && Stands(s, q, f);
    if q == m {
      FlightsGoOn(s.managers[m], a, f);
    }
  }

  lemma NewFlightStands(s: System, m: nat, a: Slot.Action, p: nat)
    requires m in s.managers && Slot.Enabled(s.managers[m], a) && (a.Call? || a.Retry?) && p !in s.world.runs
    requires |s.managers[m].flights| < |Slot.Step(s.managers[m], a).flights|
    ensures Stands(Asked(s, m, Slot.Step(s.managers[m], a), p), m, |s.managers[m].flights|)
  {
  }

  lemma AskedManagerStands(s: System, m: nat, a: Slot.Action, p: nat, q: nat)
    requires Inv(s) && m in s.managers && Slot.Enabled(s.managers[m], a) && (a.Call? || a.Retry?) && p !in s.world.runs
    requires q in s.managers
    ensures AllStand(Asked(s, m, Slot.Step(s.managers[m], a), p), q)
  {
    var next := Asked(s, m, Slot.Step(s.managers[m], a), p);
    assert AllStand(s, q) && AllStand(s, m);
    Slot.StepInv(s.managers[m], a);
    forall f: nat | f < |next.managers[q].flights| ensures Stands(next, q, f) {
      if f < |s.managers[q].flights| {
        OldFlightsStand(s, m, a, p, q, f);
      } else {
        NewFlightStands(s, m, a, p);
      }
    }
  }

  lemma AskedKeeps(s: System, m: nat, a: Slot.Action, p: nat)
    requires Inv(s) && m in s.managers && Slot.Enabled(s.managers[m], a) && (a.Call? || a.Retry?) && p !in s.world.runs
    ensures Inv(Asked(s, m, Slot.Step(s.managers[m], a), p))
  {
    var own := Slot.Step(s.managers[m], a);
    var next := Asked(s, m, own, p);
    if |s.managers[m].flights| < |own.flights| {
      Protocol.StepInv(s.world, Protocol.Begin(p, own.flights[|s.managers[m].flights|].force));
    }
    forall q | q in next.managers ensures AllStand(next, q) {
      AskedManagerStands(s, m, a, p, q);
    }
  }

  lemma OwnStepKeeps(s: System, m: nat, a: Slot.Action)
    requires Inv(s) && m in s.managers && Slot.Enabled(s.managers[m], a) && !a.Call? && !a.Retry?
    requires a.Finish? ==>
      (m, a.f) in s.runs && s.runs[(m, a.f)] in s.world.runs
      && Ended(s.world.runs[s.runs[(m, a.f)]]) && a.result == ResultOf(s.world.runs[s.runs[(m, a.f)]])
    ensures Inv(s.(managers := s.managers[m := Slot.Step(s.managers[m], a)]))
  {
    var next := s.(managers := s.managers[m := Slot.Step(s.managers[m], a)]);
    Slot.StepInv(s.managers[m], a);
    forall q | q in next.managers ensures AllStand(next, q) {
      assert AllStand(s, q);
      forall f: nat | f < |next.managers[q].flights| ensures Stands(next, q, f) {
        assert Stands(s, q, f);
        if q == m {
          FlightsGoOn(s.managers[m], a, f);
        }
      }
    }
  }

  lemma StepInv(s: System, a: Action)
    requires Inv(s) && Enabled(s, a)
    ensures Inv(Step(s, a))
  {
    match a
    case Call(m, c, force, p) => AskedKeeps(s, m, Slot.Call(c, force), p);
    case Retry(m, c, p) => AskedKeeps(s, m, Slot.Retry(c), p);
    case Work(step) => WorkKeeps(s, step);
    case Finish(m, f) => OwnStepKeeps(s, m, Slot.Finish(f, ResultOf(s.world.runs[s.runs[(m, f)]])));
    case Tidy(m, own) => OwnStepKeeps(s, m, own);
  }

  lemma {:induction false} ReachableInv(s: System, actions: seq<Action>)
    requires Inv(s) && Possible(s, actions)
    ensures Inv(Reach(s, actions))
    decreases |actions|
  {
    if actions != [] {
      StepInv(s, actions[0]);
      ReachableInv(Step(s, actions[0]), actions[1..]);
    }
  }

  // A caller of a process got this access token.
  predicate Got(s: System, m: nat, c: nat, accessToken: string) {
    && m in s.managers && c in s.managers[m].callers && s.managers[m].callers[c].Done?
    && s.managers[m].callers[c].result == Slot.Resolved(accessToken)
  }

  /** Across any number of processes, what a caller gets is the access token its run returned; a forced
      caller's run is forced, and the record it returned differs from the one read before the lock. */
  lemma ForcedCallersGetAnotherRecord(s: System, actions: seq<Action>, m: nat, c: nat, accessToken: string)
    requires Initial(s) && Possible(s, actions) && Got(Reach(s, actions), m, c, accessToken)
    ensures var end := Reach(s, actions);
      var caller := end.managers[m].callers[c];
      && (m, caller.flight) in end.runs && end.runs[(m, caller.flight)] in end.world.runs
      && var run := end.world.runs[end.runs[(m, caller.flight)]];
         && run.Settled? && run.outcome.Returned? && run.outcome.token.accessToken == accessToken
         && (caller.force ==> run.force && Protocol.Changed(run.outcome.token, run.snapshot))
  {
    Protocol.InitialInv(s.world);
    ReachableInv(s, actions);
    var end := Reach(s, actions);
    var caller := end.managers[m].callers[c];
    assert AllStand(end, m);
    assert Slot.CallerInv(end.managers[m], caller);
    assert Stands(end, m, caller.flight);
    assert Protocol.RunInv(end.world, end.world.runs[end.runs[(m, caller.flight)]]);
  }

  // What a step does to the shared world is nothing, or one step of the protocol.
  function Projected(s: System, a: Action): seq<Protocol.Action>
    requires Enabled(s, a)
  {
    match a
    case Call(m, c, force, p) => if s.managers[m].slot.Some? then [] else [Protocol.Begin(p, force)]
    case Retry(m, c, p) => if s.managers[m].slot.Some? then [] else [Protocol.Begin(p, true)]
    case Work(step) => [step]
    case _ => []
  }

  /** So the world all these callers share is one the protocol reaches, and what holds of all its
      interleavings holds here. */
  lemma {:induction false} WorldIsTheProtocols(s: System, actions: seq<Action>) returns (steps: seq<Protocol.Action>)
    requires Possible(s, actions)
    ensures Protocol.Possible(s.world, steps) && Protocol.Reach(s.world, steps) == Reach(s, actions).world
    decreases |actions|
  {
    if actions == [] {
      steps := [];
    } else {
      var rest := WorldIsTheProtocols(Step(s, actions[0]), actions[1..]);
      var first := Projected(s, actions[0]);
      steps := first + rest;
      if first == [] {
        assert steps == rest;
      } else {
        assert steps[0] == first[0] && steps[1..] == rest;
      }
    }
  }

  /** A caller that is done got an access token if and only if its run returned one, and then that one. */
  lemma CallersGetTheirRunsOutcome(s: System, actions: seq<Action>, m: nat, c: nat)
    requires Initial(s) && Possible(s, actions)
    requires var end := Reach(s, actions);
      m in end.managers && c in end.managers[m].callers && end.managers[m].callers[c].Done?
    ensures var end := Reach(s, actions);
      var caller := end.managers[m].callers[c];
      && (m, caller.flight) in end.runs && end.runs[(m, caller.flight)] in end.world.runs
      && var run := end.world.runs[end.runs[(m, caller.flight)]];
         && (caller.result.Resolved? <==> run.Settled? && run.outcome.Returned?)
         && (caller.result.Resolved? ==> caller.result.accessToken == run.outcome.token.accessToken)
         && (run.Settled? ==> (caller.force ==> run.force))
  {
    Protocol.InitialInv(s.world);
    ReachableInv(s, actions);
    var end := Reach(s, actions);
    var caller := end.managers[m].callers[c];
    assert AllStand(end, m);
    assert Slot.CallerInv(end.managers[m], caller);
    assert Stands(end, m, caller.flight);
  }

  /** Every access token a caller gets was granted to its run, or found after a refusal, or read from
      storage: without force only with time left, and with force only under the lock. */
  lemma CallersTokensAreGiven(s: System, actions: seq<Action>, m: nat, c: nat, accessToken: string)
    returns (steps: seq<Protocol.Action>, p: nat, force: bool, token: Protocol.Token, i: nat)
    requires Initial(s) && Possible(s, actions) && Got(Reach(s, actions), m, c, accessToken)
    ensures Protocol.Possible(s.world, steps) && Protocol.Reach(s.world, steps) == Reach(s, actions).world
    ensures (m, Reach(s, actions).managers[m].callers[c].flight) in Reach(s, actions).runs
    ensures p == Reach(s, actions).runs[(m, Reach(s, actions).managers[m].callers[c].flight)]
    ensures token.accessToken == accessToken && (Reach(s, actions).managers[m].callers[c].force ==> force)
    ensures i < |steps| && History.Gives(s.world, steps, i, p, force, token) && History.SameRun(steps, i, |steps|, p)
  {
    steps := WorldIsTheProtocols(s, actions);
    ForcedCallersGetAnotherRecord(s, actions, m, c, accessToken);
    var end := Reach(s, actions);
    p := end.runs[(m, end.managers[m].callers[c].flight)];
    var run := end.world.runs[p];
    force, token := run.force, run.outcome.token;
    History.ReturnedTokensAreGiven(s.world, steps, p);
    i :| i < |steps| && History.Gives(s.world, steps, i, p, force, token) && History.SameRun(steps, i, |steps|, p);
  }
}
