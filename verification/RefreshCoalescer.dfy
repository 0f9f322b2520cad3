/** The in-flight slot of one manager: callers of ensureFresh share a refresh run, except that a forced
    caller never settles for a run that was not forced.

    Every action is one stretch of code between awaits: a run's promise first finishes, then its clean-up
    clears the slot, then the promise settles and its waiters go on, each in its own turn. */
module RefreshCoalescer {
  import opened Options

  datatype Result = Resolved(accessToken: string) | Refused

  datatype Phase =
    | Running
    | Finished(result: Result)  // the clean-up has not run yet
    | Cleaned(result: Result)   // the promise has not settled yet
    | Settled(result: Result)

  datatype Flight = Flight(force: bool, phase: Phase)

  datatype Caller =
    | Awaiting(force: bool, flight: nat)
    | Queued(flight: nat)  // a forced caller behind a run that was not forced
    | Done(force: bool, flight: nat, result: Result)

  datatype Manager = Manager(slot: Option<nat>, flights: seq<Flight>, callers: map<nat, Caller>)

  datatype Action =
    | Call(c: nat, force: bool)
    | Finish(f: nat, result: Result)
    | CleanUp(f: nat)
    | Settle(f: nat)
    | Return(c: nat)
    | Retry(c: nat)

  // The body of ensureFresh, for a new caller or one that retries.
  function EnsureFresh(m: Manager, c: nat, force: bool): Manager
    requires m.slot.Some? ==> m.slot.value < |m.flights|
  {
    if m.slot.Some? then
      if !force || m.flights[m.slot.value].force then m.(callers := m.callers[c := Awaiting(force, m.slot.value)])
      else m.(callers := m.callers[c := Queued(m.slot.value)])
    else
      Manager(Some(|m.flights|), m.flights + [Flight(force, Running)], m.callers[c := Awaiting(force, |m.flights|)])
  }

  predicate Enabled(m: Manager, a: Action) {
    match a
    case Call(c, _) => (m.slot.Some? ==> m.slot.value < |m.flights|) && c !in m.callers
    case Finish(f, _) => f < |m.flights| && m.flights[f].phase.Running?
    case CleanUp(f) => f < |m.flights| && m.flights[f].phase.Finished?
    case Settle(f) => f < |m.flights| && m.flights[f].phase.Cleaned?
    case Return(c) =>
      && c in m.callers && m.callers[c].Awaiting?
      && m.callers[c].flight < |m.flights| && m.flights[m.callers[c].flight].phase.Settled?
    case Retry(c) =>
      && (m.slot.Some? ==> m.slot.value < |m.flights|)
      && c in m.callers && m.callers[c].Queued?
      && m.callers[c].flight < |m.flights| && m.flights[m.callers[c].flight].phase.Settled?
  }

  function InPhase(m: Manager, f: nat, phase: Phase): Manager
    requires f < |m.flights|
  {
    m.(flights := m.flights[f := m.flights[f].(phase := phase)])
  }

  function Step(m: Manager, a: Action): Manager
    requires Enabled(m, a)
  {
    match a
    case Call(c, force) => EnsureFresh(m, c, force)
    case Finish(f, result) => InPhase(m, f, Finished(result))
    case CleanUp(f) =>
      var cleaned := InPhase(m, f, Cleaned(m.flights[f].phase.result));
      if m.slot == Some(f) then cleaned.(slot := None) else cleaned
    case Settle(f) => InPhase(m, f, Settled(m.flights[f].phase.result))
    case Return(c) =>
      var flight := m.callers[c].flight;
      m.(callers := m.callers[c := Done(m.callers[c].force, flight, m.flights[flight].phase.result)])
    case Retry(c) => EnsureFresh(m, c, true)
  }

  const IDLE := Manager(None, [], map[])

  predicate Possible(m: Manager, actions: seq<Action>)
    decreases |actions|
  {
    actions == [] || (Enabled(m, actions[0]) && Possible(Step(m, actions[0]), actions[1..]))
  }

  function Reach(m: Manager, actions: seq<Action>): Manager
    requires Possible(m, actions)
    decreases |actions|
  {
    if actions == [] then m else Reach(Step(m, actions[0]), actions[1..])
  }

  predicate Open(flight: Flight) {
    flight.phase.Running? || flight.phase.Finished?
  }

  ghost predicate CallerInv(m: Manager, caller: Caller) {
    && caller.flight < |m.flights|
    && (!caller.Queued? && caller.force ==> m.flights[caller.flight].force)
    && (caller.Queued? ==> !m.flights[caller.flight].force)
    && (caller.Done? ==> m.flights[caller.flight].phase == Settled(caller.result))
  }

  // The slot names exactly the run that has not been cleaned up.
  ghost predicate Inv(m: Manager) {
    && (m.slot.Some? ==> m.slot.value < |m.flights|)
    && (forall f: nat | f < |m.flights| :: Open(m.flights[f]) <==> m.slot == Some(f))
    && (forall c <- m.callers :: CallerInv(m, m.callers[c]))
  }

  lemma StepInv(m: Manager, a: Action)
    requires Inv(m) && Enabled(m, a)
    ensures Inv(Step(m, a))
  {
    var m' := Step(m, a);
    forall c <- m'.callers ensures CallerInv(m', m'.callers[c]) {
      assert c in m.callers ==> CallerInv(m, m.callers[c]);
    }
  }

  lemma {:induction false} ReachInv(m: Manager, actions: seq<Action>)
    requires Inv(m) && Possible(m, actions)
    ensures Inv(Reach(m, actions))
    decreases |actions|
  {
    if actions != [] {
      StepInv(m, actions[0]);
      ReachInv(Step(m, actions[0]), actions[1..]);
    }
  }

  // In every interleaving at most one refresh runs at a time, and the slot names it.
  lemma OneRunAtATime(actions: seq<Action>, f: nat, g: nat)
    requires Possible(IDLE, actions)
    requires var m := Reach(IDLE, actions);
      f < |m.flights| && g < |m.flights| && m.flights[f].phase.Running? && m.flights[g].phase.Running?
    ensures f == g && Reach(IDLE, actions).slot == Some(f)
  {
    ReachInv(IDLE, actions);
  }

  // A clean-up always finds its own run in the slot, so it never clears another's.
  lemma CleanUpClearsOwnSlot(actions: seq<Action>, f: nat)
    requires Possible(IDLE, actions) && Enabled(Reach(IDLE, actions), CleanUp(f))
    ensures Reach(IDLE, actions).slot == Some(f)
    ensures Step(Reach(IDLE, actions), CleanUp(f)).slot == None
  {
    ReachInv(IDLE, actions);
  }

  // A refresh starts just when none is in flight.  Otherwise the caller joins the one in flight, except
  // that a forced caller waits for one that was not forced to be over.
  lemma CallsJoinTheRunInFlight(m: Manager, c: nat, force: bool)
    requires Inv(m) && Enabled(m, Call(c, force))
    ensures var next := Step(m, Call(c, force));
      && c in next.callers && next.callers == m.callers[c := next.callers[c]]
      && (m.slot.Some? ==>
            && next.slot == m.slot && next.flights == m.flights
            && (next.callers[c] == Queued(m.slot.value) <==> force && !m.flights[m.slot.value].force)
            && (next.callers[c] == Awaiting(force, m.slot.value) <==> !force || m.flights[m.slot.value].force))
      && (m.slot.None? ==>
            && next.slot == Some(|m.flights|) && next.callers[c] == Awaiting(force, |m.flights|)
            && |next.flights| == |m.flights| + 1 && next.flights[..|m.flights|] == m.flights
            && next.flights[|m.flights|].force == force && next.flights[|m.flights|].phase.Running?)
  {
  }

  // Every caller settles with the outcome of the run it awaited, and a forced one with a forced run's.
  lemma CallersGetTheirRun(actions: seq<Action>, c: nat)
    requires Possible(IDLE, actions)
    requires c in Reach(IDLE, actions).callers && Reach(IDLE, actions).callers[c].Done?
    ensures var m := Reach(IDLE, actions);
            var caller := m.callers[c];
      && caller.flight < |m.flights|
      && m.flights[caller.flight].phase == Settled(caller.result)
      && (caller.force ==> m.flights[caller.flight].force)
  {
    ReachInv(IDLE, actions);
    assert CallerInv(Reach(IDLE, actions), Reach(IDLE, actions).callers[c]);
  }

  // A queued caller waits for a run that was started unforced; when it retries it never gets an
  // unforced result, whatever started in between.
  lemma RetryGetsForcedRun(actions: seq<Action>, c: nat)
    requires Possible(IDLE, actions) && Enabled(Reach(IDLE, actions), Retry(c))
    ensures var m := Step(Reach(IDLE, actions), Retry(c));
            var caller := m.callers[c];
      && caller.flight < |m.flights|
      && (caller.Awaiting? ==> m.flights[caller.flight].force && Open(m.flights[caller.flight]))
      && (caller.Queued? ==> m.slot == Some(caller.flight) && Open(m.flights[caller.flight]))
  {
    ReachInv(IDLE, actions);
  }
}
