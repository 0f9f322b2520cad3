/** How a refresh run comes to be refused or to fail, over whole interleavings. */
module RefreshOutcomes {
  import opened Options
  import opened RefreshProtocol
  import opened RefreshHistory

  // Storage holds a tombstone, or a peer's token: one to use, other than the one refused.
  predicate Buried(w: World) {
    w.store.Some? && w.store.value.accessToken == ""
  }

  predicate HoldsOther(w: World, refused: Token) {
    w.store.Some? && w.store.value.accessToken != "" && w.store.value.refreshToken != refused.refreshToken
  }

  // What run p would present once it has reread storage is no token at all.
  predicate NothingToPresent(w: World, p: nat) {
    && p in w.runs && w.runs[p].Reread?
    && (if w.store.None? then w.runs[p].snapshot.refreshToken == ""
        else w.store.value.accessToken != "" && w.store.value.refreshToken == "")
  }

  // The i-th action is run p's own and refuses it: it finds a tombstone, or leaves one.
  predicate Refuses(w: World, actions: seq<Action>, i: nat, p: nat)
    requires Possible(w, actions)
  {
    && i < |actions|
    && match actions[i]
       case Load(q, _) => q == p && Buried(WorldAt(w, actions, i))
       case Recheck(q, _) => q == p && Buried(WorldAt(w, actions, i))
       case Tombstone(q) => q == p
       case _ => false
  }

  // The i-th action is run p's own and makes it fail: storage or the server cannot be reached, there is no
  // record, or no refresh token in it.
  predicate Breaks(w: World, actions: seq<Action>, i: nat, p: nat)
    requires Possible(w, actions)
  {
    && i < |actions|
    && match actions[i]
       case GiveUp(q) => q == p
       case Fault(q) => q == p
       case Load(q, _) => q == p && WorldAt(w, actions, i).store == None
       case Recheck(q, _) => q == p && NothingToPresent(WorldAt(w, actions, i), p)
       case _ => false
  }

  function OutcomeOf(run: Run): Option<Outcome> {
    if run.Releasing? || run.Rejected? || run.Settled? then Some(run.outcome) else None
  }

  // Since the i-th action, run p's own, its outcome has stood.
  ghost predicate Caused(w: World, actions: seq<Action>, n: nat, p: nat, outcome: Outcome)
    requires Possible(w, actions) && n <= |actions|
  {
    exists i :: 0 <= i < n && SameRun(actions, i, n, p)
      && if outcome.Unauthorized? then Refuses(w, actions, i, p) else Breaks(w, actions, i, p)
  }

  lemma OutcomeStep(w: World, a: Action, p: nat)
    requires Enabled(w, a) && p in Step(w, a).runs && OutcomeOf(Step(w, a).runs[p]).Some?
    requires !OutcomeOf(Step(w, a).runs[p]).value.Returned?
    ensures !(a.Begin? && a.p == p) && p in w.runs
    ensures var outcome := OutcomeOf(Step(w, a).runs[p]).value;
      || OutcomeOf(w.runs[p]) == Some(outcome)
      || match a
         case Load(q, _) => q == p && if outcome.Unauthorized? then Buried(w) else w.store == None
         case Recheck(q, _) => q == p && if outcome.Unauthorized? then Buried(w) else NothingToPresent(w, p)
         case Tombstone(q) => q == p && outcome.Unauthorized?
         case GiveUp(q) => q == p && outcome.Failed?
         case Fault(q) => q == p && outcome.Failed?
         case _ => false
  {
    match a
    case Load(q, now) => LoadDecides(w, q, now);
    case Recheck(q, now) => RecheckDecides(w, q, now);
    case Recover(q) => RecoverDecides(w, q);
    case _ =>
  }

  lemma CausedStays(w: World, actions: seq<Action>, n: nat, p: nat, outcome: Outcome)
    requires Possible(w, actions) && n < |actions| && Caused(w, actions, n, p, outcome)
    requires !(actions[n].Begin? && actions[n].p == p)
    ensures Caused(w, actions, n + 1, p, outcome)
  {
    var i :| 0 <= i < n && SameRun(actions, i, n, p)
      && if outcome.Unauthorized? then Refuses(w, actions, i, p) else Breaks(w, actions, i, p);
    assert SameRun(actions, i, n + 1, p);
  }

  lemma {:induction false} OutcomesAreCaused(w: World, actions: seq<Action>, n: nat, p: nat)
    requires Initial(w) && Possible(w, actions) && n <= |actions|
    requires p in WorldAt(w, actions, n).runs && OutcomeOf(WorldAt(w, actions, n).runs[p]).Some?
    requires !OutcomeOf(WorldAt(w, actions, n).runs[p]).value.Returned?
    ensures Caused(w, actions, n, p, OutcomeOf(WorldAt(w, actions, n).runs[p]).value)
  {
    if n > 0 {
      var before, a := WorldAt(w, actions, n - 1), actions[n - 1];
      Next(w, actions, n - 1);
      var outcome := OutcomeOf(WorldAt(w, actions, n).runs[p]).value;
      OutcomeStep(before, a, p);
      if OutcomeOf(before.runs[p]) == Some(outcome) {
        OutcomesAreCaused(w, actions, n - 1, p);
        CausedStays(w, actions, n - 1, p, outcome);
      } else {
        assert if outcome.Unauthorized? then Refuses(w, actions, n - 1, p) else Breaks(w, actions, n - 1, p);
        assert SameRun(actions, n - 1, n, p);
      }
    }
  }

  /** In every interleaving, a run is refused only because it found a tombstone or left one, and fails only
      because something could not be reached or there was nothing to present, since it began. */
  lemma EndsWithACause(w: World, actions: seq<Action>, p: nat)
    requires Initial(w) && Possible(w, actions) && p in Reach(w, actions).runs
    requires var run := Reach(w, actions).runs[p]; (run.Settled? || run.Rejected?) && !run.outcome.Returned?
    ensures Caused(w, actions, |actions|, p, Reach(w, actions).runs[p].outcome)
  {
    EndsThere(w, actions);
    OutcomesAreCaused(w, actions, |actions|, p);
  }

  // ---------- What a tombstone takes ----------

  // The server refused run p's token at the j-th action, and its pause ended at the k-th, when storage
  // held no peer's token.
  predicate RefusedFor(w: World, actions: seq<Action>, j: nat, k: nat, p: nat, refused: Token)
    requires Possible(w, actions)
  {
    && j < k < |actions| && actions[j] == Refuse(p) && actions[k] == Recover(p) && SameRun(actions, j, k, p)
    && p in WorldAt(w, actions, j).runs && WorldAt(w, actions, j).runs[p].InFlight?
    && WorldAt(w, actions, j).runs[p].active == refused
    && !HoldsOther(WorldAt(w, actions, k), refused)
  }

  // Run p sleeps on this token after a refusal.
  ghost predicate SleepsOn(w: World, actions: seq<Action>, n: nat, p: nat, refused: Token)
    requires Possible(w, actions) && n <= |actions|
  {
    exists j :: 0 <= j < n && actions[j] == Refuse(p) && SameRun(actions, j, n, p)
      && p in WorldAt(w, actions, j).runs && WorldAt(w, actions, j).runs[p].InFlight?
      && WorldAt(w, actions, j).runs[p].active == refused
  }

  lemma SleepStep(w: World, a: Action, p: nat)
    requires Enabled(w, a) && p in Step(w, a).runs && Step(w, a).runs[p].Sleeping?
    ensures !(a.Begin? && a.p == p) && p in w.runs
    ensures w.runs[p] == Step(w, a).runs[p] || (a == Refuse(p) && w.runs[p].active == Step(w, a).runs[p].active)
  {
  }

  lemma {:induction false} SleepersWereRefused(w: World, actions: seq<Action>, n: nat, p: nat)
    requires Initial(w) && Possible(w, actions) && n <= |actions|
    requires p in WorldAt(w, actions, n).runs && WorldAt(w, actions, n).runs[p].Sleeping?
    ensures SleepsOn(w, actions, n, p, WorldAt(w, actions, n).runs[p].active)
  {
    if n > 0 {
      var before, a := WorldAt(w, actions, n - 1), actions[n - 1];
      Next(w, actions, n - 1);
      var refused := WorldAt(w, actions, n).runs[p].active;
      SleepStep(before, a, p);
      if before.runs[p] == WorldAt(w, actions, n).runs[p] {
        SleepersWereRefused(w, actions, n - 1, p);
        var j :| 0 <= j < n - 1 && actions[j] == Refuse(p) && SameRun(actions, j, n - 1, p)
          && p in WorldAt(w, actions, j).runs && WorldAt(w, actions, j).runs[p].InFlight?
          && WorldAt(w, actions, j).runs[p].active == refused;
        assert SameRun(actions, j, n, p);
      } else {
        assert SameRun(actions, n - 1, n, p);
      }
    }
  }

  lemma BuryingStep(w: World, a: Action, p: nat)
    requires Enabled(w, a) && p in Step(w, a).runs && Step(w, a).runs[p].Tombstoning?
    ensures p in w.runs
    ensures var active := Step(w, a).runs[p].active;
      || w.runs[p] == Step(w, a).runs[p]
      || (a == Recover(p) && w.runs[p].Sleeping? && w.runs[p].active == active && !HoldsOther(w, active))
  {
  }

  ghost predicate Condemned(w: World, actions: seq<Action>, n: nat, p: nat, refused: Token)
    requires Possible(w, actions) && n <= |actions|
  {
    exists j: nat, k: nat :: k < n && RefusedFor(w, actions, j, k, p, refused)
  }

  /** A run buries a token only after the server refused it and, when the pause was over, storage held no
      other token. */
  lemma {:induction false} BuriedOnlyWhenRefused(w: World, actions: seq<Action>, n: nat, p: nat)
    requires Initial(w) && Possible(w, actions) && n <= |actions|
    requires p in WorldAt(w, actions, n).runs && WorldAt(w, actions, n).runs[p].Tombstoning?
    ensures Condemned(w, actions, n, p, WorldAt(w, actions, n).runs[p].active)
  {
    if n > 0 {
      var before, a := WorldAt(w, actions, n - 1), actions[n - 1];
      Next(w, actions, n - 1);
      var refused := WorldAt(w, actions, n).runs[p].active;
      BuryingStep(before, a, p);
      if before.runs[p] == WorldAt(w, actions, n).runs[p] {
        BuriedOnlyWhenRefused(w, actions, n - 1, p);
      } else {
        SleepersWereRefused(w, actions, n - 1, p);
        var j: nat :| j < n - 1 && actions[j] == Refuse(p) && SameRun(actions, j, n - 1, p)
          && p in WorldAt(w, actions, j).runs && WorldAt(w, actions, j).runs[p].InFlight?
          && WorldAt(w, actions, j).runs[p].active == refused;
        assert RefusedFor(w, actions, j, n - 1, p, refused);
      }
    }
  }
}
