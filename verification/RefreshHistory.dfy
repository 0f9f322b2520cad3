/** When a refresh token is presented too often, told from the sequence of actions alone. */
module RefreshHistory {
  import opened Options
  import opened RefreshProtocol

  // The world before the i-th action.
  function WorldAt(w: World, actions: seq<Action>, i: nat): (at_: World)
    requires Possible(w, actions) && i <= |actions|
    ensures i < |actions| ==> Enabled(at_, actions[i])
    decreases i
  {
    if i == 0 then w else WorldAt(Step(w, actions[0]), actions[1..], i - 1)
  }

  lemma {:induction false} Next(w: World, actions: seq<Action>, i: nat)
    requires Possible(w, actions) && i < |actions|
    ensures WorldAt(w, actions, i + 1) == Step(WorldAt(w, actions, i), actions[i])
    decreases i
  {
    if i > 0 {
      Next(Step(w, actions[0]), actions[1..], i - 1);
    }
  }

  // The token whose refresh the h-th action presents, or finds to have come to nothing.
  predicate Presents(w: World, actions: seq<Action>, h: nat, r: string)
    requires Possible(w, actions)
  {
    h < |actions| && actions[h].Send? && WorldAt(w, actions, h).runs[actions[h].p].active.refreshToken == r
  }

  predicate Fails(w: World, actions: seq<Action>, h: nat, r: string)
    requires Possible(w, actions)
  {
    h < |actions| && actions[h].Fault? && WorldAt(w, actions, h).runs[actions[h].p].active.refreshToken == r
  }

  function Sends(w: World, actions: seq<Action>, n: nat, r: string): nat
    requires Possible(w, actions)
  {
    if n == 0 then 0 else Sends(w, actions, n - 1, r) + if Presents(w, actions, n - 1, r) then 1 else 0
  }

  function Faults(w: World, actions: seq<Action>, n: nat, r: string): nat
    requires Possible(w, actions)
  {
    if n == 0 then 0 else Faults(w, actions, n - 1, r) + if Fails(w, actions, n - 1, r) then 1 else 0
  }

  // Only a send adds to what was presented, only a fault to what came to nothing.
  lemma StepCounts(w: World, a: Action, r: string)
    requires Enabled(w, a)
    ensures Step(w, a).sent[r] == w.sent[r] + if a.Send? && w.runs[a.p].active.refreshToken == r then 1 else 0
    ensures Step(w, a).faults[r] == w.faults[r] + if a.Fault? && w.runs[a.p].active.refreshToken == r then 1 else 0
  {
  }

  lemma {:induction false} CountsAgree(w: World, actions: seq<Action>, n: nat, r: string)
    requires Initial(w) && Possible(w, actions) && n <= |actions|
    ensures WorldAt(w, actions, n).sent[r] == Sends(w, actions, n, r)
    ensures WorldAt(w, actions, n).faults[r] == Faults(w, actions, n, r)
  {
    if n > 0 {
      CountsAgree(w, actions, n - 1, r);
      Next(w, actions, n - 1);
      StepCounts(WorldAt(w, actions, n - 1), actions[n - 1], r);
    }
  }

  lemma {:induction false} InvAt(w: World, actions: seq<Action>, n: nat)
    requires Initial(w) && Possible(w, actions) && n <= |actions|
    ensures Inv(WorldAt(w, actions, n))
  {
    if n == 0 {
      InitialInv(w);
    } else {
      InvAt(w, actions, n - 1);
      Next(w, actions, n - 1);
      StepInv(WorldAt(w, actions, n - 1), actions[n - 1]);
    }
  }

  // ---------- Stale fallbacks ----------

  // At the i-th action a run falls back on a token that has been presented as often as it may be.
  predicate StaleFallback(w: World, actions: seq<Action>, i: nat)
    requires Possible(w, actions)
  {
    && i < |actions| && FallsBack(WorldAt(w, actions, i), actions[i])
    && var r := WorldAt(w, actions, i).runs[actions[i].p].snapshot.refreshToken;
       Faults(w, actions, i, r) < Sends(w, actions, i, r)
  }

  // And by the k-th action the run has presented it.
  predicate StaleSend(w: World, actions: seq<Action>, i: nat, k: nat)
    requires Possible(w, actions)
  {
    i < k < |actions| && StaleFallback(w, actions, i) && actions[k] == Send(actions[i].p)
  }

  predicate Overspent(w: World, actions: seq<Action>, n: nat, r: string)
    requires Possible(w, actions)
  {
    n <= |actions| && Faults(w, actions, n, r) + 1 < Sends(w, actions, n, r)
  }

  lemma StaleMeansUnsafe(w: World, actions: seq<Action>, i: nat)
    requires Initial(w) && Possible(w, actions) && i < |actions|
    ensures StaleFallback(w, actions, i) <==> !SafeFallback(WorldAt(w, actions, i), actions[i])
  {
    if FallsBack(WorldAt(w, actions, i), actions[i]) {
      CountsAgree(w, actions, i, WorldAt(w, actions, i).runs[actions[i].p].snapshot.refreshToken);
    }
  }

  lemma OverspentMeansNoBudget(w: World, actions: seq<Action>, n: nat)
    requires Initial(w) && Possible(w, actions) && n <= |actions|
    ensures Budget(WorldAt(w, actions, n)) <==> forall r :: !Overspent(w, actions, n, r)
  {
    var at_ := WorldAt(w, actions, n);
    forall r ensures Overspent(w, actions, n, r) <==> at_.faults[r] + 1 < at_.sent[r] {
      CountsAgree(w, actions, n, r);
    }
  }

  // A run about to present its token keeps everyone else from presenting one.
  lemma StepKeepsCaller(w: World, a: Action, p: nat)
    requires Inv(w) && Enabled(w, a) && p in w.runs && w.runs[p].Calling? && a != Send(p)
    ensures var next := Step(w, a);
      p in next.runs && next.runs[p] == w.runs[p] && next.sent == w.sent && next.faults == w.faults
  {
    assert w.lock == Some(p);
    if a.Send? || a.Fault? {
      assert HoldsLock(w.runs[a.p]);
    }
  }

  lemma {:induction false} StillCalling(w: World, actions: seq<Action>, i: nat, n: nat, p: nat)
    requires Initial(w) && Possible(w, actions) && i <= n <= |actions|
    requires p in WorldAt(w, actions, i).runs && WorldAt(w, actions, i).runs[p].Calling?
    requires forall k :: i <= k < n ==> actions[k] != Send(p)
    ensures var before, after := WorldAt(w, actions, i), WorldAt(w, actions, n);
      p in after.runs && after.runs[p] == before.runs[p] && after.sent == before.sent && after.faults == before.faults
  {
    if i < n {
      StillCalling(w, actions, i, n - 1, p);
      InvAt(w, actions, n - 1);
      Next(w, actions, n - 1);
      StepKeepsCaller(WorldAt(w, actions, n - 1), actions[n - 1], p);
    }
  }

  lemma {:induction false} FirstSend(actions: seq<Action>, i: nat, k: nat, p: nat) returns (first: nat)
    requires i <= k < |actions| && actions[k] == Send(p)
    ensures i <= first <= k && actions[first] == Send(p) && forall j :: i <= j < first ==> actions[j] != Send(p)
    decreases k - i
  {
    if actions[i] == Send(p) {
      first := i;
    } else {
      first := FirstSend(actions, i + 1, k, p);
    }
  }

  lemma StaleSendOverspends(w: World, actions: seq<Action>, i: nat, k: nat) returns (n: nat, r: string)
    requires Initial(w) && Possible(w, actions) && StaleSend(w, actions, i, k)
    ensures Overspent(w, actions, n, r) && n <= k + 1
    ensures n > 0 && Presents(w, actions, n - 1, r) && i < n - 1
    ensures r == WorldAt(w, actions, i).runs[actions[i].p].snapshot.refreshToken
  {
    var p := actions[i].p;
    var before := WorldAt(w, actions, i);
    r := before.runs[p].snapshot.refreshToken;
    Next(w, actions, i);
    var first := FirstSend(actions, i + 1, k, p);
    StillCalling(w, actions, i + 1, first, p);
    Next(w, actions, first);
    n := first + 1;
    CountsAgree(w, actions, i, r);
    CountsAgree(w, actions, n, r);
  }

  lemma {:induction false} ThriftyAt(w: World, actions: seq<Action>, n: nat)
    requires Initial(w) && Possible(w, actions) && n <= |actions|
    requires forall i :: 0 <= i < n ==> !StaleFallback(w, actions, i)
    ensures Thrifty(WorldAt(w, actions, n))
  {
    if n > 0 {
      ThriftyAt(w, actions, n - 1);
      InvAt(w, actions, n - 1);
      Next(w, actions, n - 1);
      StaleMeansUnsafe(w, actions, n - 1);
      StepBudget(WorldAt(w, actions, n - 1), actions[n - 1]);
      StepStore(WorldAt(w, actions, n - 1), actions[n - 1]);
      StepCallers(WorldAt(w, actions, n - 1), actions[n - 1]);
    }
  }

  lemma {:induction false} FirstStale(w: World, actions: seq<Action>, n: nat) returns (i: nat)
    requires Possible(w, actions) && n <= |actions| && exists k :: 0 <= k < n && StaleFallback(w, actions, k)
    ensures i < n && StaleFallback(w, actions, i) && forall k :: 0 <= k < i ==> !StaleFallback(w, actions, k)
  {
    if k :| 0 <= k < n - 1 && StaleFallback(w, actions, k) {
      i := FirstStale(w, actions, n - 1);
    } else {
      i := n - 1;
    }
  }

  lemma OverspendingIsStale(w: World, actions: seq<Action>, n: nat, r: string) returns (i: nat, k: nat)
    requires Initial(w) && Possible(w, actions) && Overspent(w, actions, n, r)
    ensures StaleSend(w, actions, i, k) && k < n
  {
    OverspentMeansNoBudget(w, actions, n);
    if forall m :: 0 <= m < n ==> !StaleFallback(w, actions, m) {
      ThriftyAt(w, actions, n);
    }
    i := FirstStale(w, actions, n);
    var p := actions[i].p;
    ThriftyAt(w, actions, i);
    Next(w, actions, i);
    if m :| i + 1 <= m < n && actions[m] == Send(p) {
      k := m;
    } else {
      StillCalling(w, actions, i + 1, n, p);
      k := n;
    }
  }

  /** In every interleaving some token is presented more often than once plus once for each fault on it,
      if and only if a run presents a token it fell back on after that token's presentations were used up. */
  lemma OverspentExactly(w: World, actions: seq<Action>)
    requires Initial(w) && Possible(w, actions)
    ensures (exists n: nat, r: string :: Overspent(w, actions, n, r))
      <==> (exists i: nat, k: nat :: StaleSend(w, actions, i, k))
  {
    if n: nat, r: string :| Overspent(w, actions, n, r) {
      var i, k := OverspendingIsStale(w, actions, n, r);
      assert StaleSend(w, actions, i, k);
    }
    if i: nat, k: nat :| StaleSend(w, actions, i, k) {
      var n, r := StaleSendOverspends(w, actions, i, k);
      assert Overspent(w, actions, n, r);
    }
  }

  // ---------- Without faults ----------

  // Two actions present the same token.
  predicate PresentedTwice(w: World, actions: seq<Action>, h: nat, k: nat)
    requires Possible(w, actions)
  {
    h < k < |actions| && actions[h].Send? && actions[k].Send?
    && Presents(w, actions, k, WorldAt(w, actions, h).runs[actions[h].p].active.refreshToken)
  }

  // By the k-th action a run has presented a token that it fell back on at the i-th, when an earlier
  // action had presented it.
  predicate PresentsFallback(w: World, actions: seq<Action>, i: nat, k: nat)
    requires Possible(w, actions)
  {
    && i < k < |actions| && FallsBack(WorldAt(w, actions, i), actions[i]) && actions[k] == Send(actions[i].p)
    && exists h: nat :: h < i && Presents(w, actions, h, WorldAt(w, actions, i).runs[actions[i].p].snapshot.refreshToken)
  }

  lemma {:induction false} SentBefore(w: World, actions: seq<Action>, n: nat, r: string)
    requires Possible(w, actions)
    ensures 0 < Sends(w, actions, n, r) <==> exists h: nat :: h < n && Presents(w, actions, h, r)
  {
    if n > 0 {
      SentBefore(w, actions, n - 1, r);
    }
  }

  lemma {:induction false} SentAgain(w: World, actions: seq<Action>, h: nat, n: nat, r: string)
    requires Possible(w, actions) && h < n && Presents(w, actions, h, r)
    ensures Sends(w, actions, n, r) == Sends(w, actions, h, r) + 1 + Later(w, actions, h + 1, n, r)
  {
    if h < n - 1 {
      SentAgain(w, actions, h, n - 1, r);
    }
  }

  // How often the token is presented from the m-th action on, up to the n-th.
  function Later(w: World, actions: seq<Action>, m: nat, n: nat, r: string): nat
    requires Possible(w, actions) && m <= n
  {
    if m == n then 0 else Later(w, actions, m, n - 1, r) + if Presents(w, actions, n - 1, r) then 1 else 0
  }

  lemma {:induction false} NoFaults(w: World, actions: seq<Action>, n: nat, r: string)
    requires Possible(w, actions) && forall a <- actions :: !a.Fault?
    ensures Faults(w, actions, n, r) == 0
  {
    if n > 0 {
      NoFaults(w, actions, n - 1, r);
    }
  }

  lemma FallbackIsStale(w: World, actions: seq<Action>, i: nat, k: nat)
    requires Possible(w, actions) && forall a <- actions :: !a.Fault?
    ensures PresentsFallback(w, actions, i, k) <==> StaleSend(w, actions, i, k)
  {
    if i < |actions| && FallsBack(WorldAt(w, actions, i), actions[i]) {
      var r := WorldAt(w, actions, i).runs[actions[i].p].snapshot.refreshToken;
      NoFaults(w, actions, i, r);
      SentBefore(w, actions, i, r);
    }
  }

  /** In every interleaving without faults, some token is presented twice, if and only if some run presents
      a token that it fell back on after an earlier action had presented it. */
  lemma TwiceExactlyByFallback(w: World, actions: seq<Action>)
    requires Initial(w) && Possible(w, actions) && forall a <- actions :: !a.Fault?
    ensures (exists h: nat, k: nat :: PresentedTwice(w, actions, h, k))
      <==> (exists i: nat, k: nat :: PresentsFallback(w, actions, i, k))
  {
    if h: nat, k: nat :| PresentedTwice(w, actions, h, k) {
      var r := WorldAt(w, actions, h).runs[actions[h].p].active.refreshToken;
      SentAgain(w, actions, h, k, r);
      NoFaults(w, actions, k + 1, r);
      assert Overspent(w, actions, k + 1, r);
      var i, m := OverspendingIsStale(w, actions, k + 1, r);
      FallbackIsStale(w, actions, i, m);
    }
    if i: nat, k: nat :| PresentsFallback(w, actions, i, k) {
      FallbackIsStale(w, actions, i, k);
      var n, r := StaleSendOverspends(w, actions, i, k);
      var h: nat :| h < i && Presents(w, actions, h, r);
      assert PresentedTwice(w, actions, h, n - 1);
    }
  }

  // ---------- Where a returned token comes from ----------

  // Since the i-th action run p has not begun anew.
  predicate SameRun(actions: seq<Action>, i: nat, n: nat, p: nat)
    requires n <= |actions|
  {
    forall j :: i < j < n ==> actions[j] != Begin(p, true) && actions[j] != Begin(p, false)
  }

  // The i-th action is run p's own and gives it this token: the server grants it, or storage holds it
  // after a refusal, at a first read, or under the lock.
  predicate Gives(w: World, actions: seq<Action>, i: nat, p: nat, force: bool, token: Token)
    requires Possible(w, actions)
  {
    && i < |actions|
    && match actions[i]
       case Grant(q, refreshed) => q == p && refreshed == token
       case Recover(q) => q == p && Holds(WorldAt(w, actions, i), token)
       case Load(q, now) => q == p && !force && Holds(WorldAt(w, actions, i), token) && HasTimeLeft(token, now)
       case Recheck(q, now) => q == p && Holds(WorldAt(w, actions, i), token) && (force || HasTimeLeft(token, now))
       case _ => false
  }

  predicate Holds(w: World, token: Token) {
    w.store == Some(token) && token.accessToken != ""
  }

  predicate Given(w: World, actions: seq<Action>, n: nat, p: nat, force: bool, token: Token)
    requires Possible(w, actions) && n <= |actions|
  {
    exists i :: 0 <= i < n && Gives(w, actions, i, p, force, token) && SameRun(actions, i, n, p)
  }

  // The token a run is about to store or return.
  function TokenOf(run: Run): Option<Token> {
    if run.Saving? then Some(run.refreshed)
    else if (run.Releasing? || run.Settled?) && run.outcome.Returned? then Some(run.outcome.token)
    else None
  }

  // How one action changes the token a run is about to return.
  lemma TokenStep(w: World, a: Action, p: nat)
    requires Enabled(w, a) && p in Step(w, a).runs && TokenOf(Step(w, a).runs[p]).Some?
    ensures !(a.Begin? && a.p == p) && p in w.runs && !Step(w, a).runs[p].Rejected? && !w.runs[p].Rejected?
    ensures Step(w, a).runs[p].force == w.runs[p].force
    ensures var token, force := TokenOf(Step(w, a).runs[p]).value, w.runs[p].force;
      || TokenOf(w.runs[p]) == Some(token)
      || match a
         case Grant(q, refreshed) => q == p && refreshed == token
         case Recover(q) => q == p && Holds(w, token)
         case Load(q, now) => q == p && !force && Holds(w, token) && HasTimeLeft(token, now)
         case Recheck(q, now) => q == p && Holds(w, token) && (force || HasTimeLeft(token, now))
         case _ => false
  {
    match a
    case Load(q, now) => LoadDecides(w, q, now);
    case Recheck(q, now) => RecheckDecides(w, q, now);
    case Recover(q) => RecoverDecides(w, q);
    case _ =>
  }

  lemma GivenStays(w: World, actions: seq<Action>, n: nat, p: nat, force: bool, token: Token)
    requires Possible(w, actions) && n < |actions| && Given(w, actions, n, p, force, token)
    requires !(actions[n].Begin? && actions[n].p == p)
    ensures Given(w, actions, n + 1, p, force, token)
  {
    var i :| 0 <= i < n && Gives(w, actions, i, p, force, token) && SameRun(actions, i, n, p);
    assert SameRun(actions, i, n + 1, p);
  }

  lemma {:induction false} TokensAreGiven(w: World, actions: seq<Action>, n: nat, p: nat)
    requires Initial(w) && Possible(w, actions) && n <= |actions|
    requires p in WorldAt(w, actions, n).runs && TokenOf(WorldAt(w, actions, n).runs[p]).Some?
    ensures var run := WorldAt(w, actions, n).runs[p];
      !run.Rejected? && Given(w, actions, n, p, run.force, TokenOf(run).value)
  {
    if n > 0 {
      var before, a := WorldAt(w, actions, n - 1), actions[n - 1];
      Next(w, actions, n - 1);
      var run := WorldAt(w, actions, n).runs[p];
      var token := TokenOf(run).value;
      TokenStep(before, a, p);
      if TokenOf(before.runs[p]) == Some(token) {
        TokensAreGiven(w, actions, n - 1, p);
        GivenStays(w, actions, n - 1, p, run.force, token);
      } else {
        assert Gives(w, actions, n - 1, p, run.force, token);
        assert SameRun(actions, n - 1, n, p);
      }
    }
  }

  /** In every interleaving, a run that returns a token was granted it by the server since it began, or took
      it from storage after a refusal, or read it from storage: without force only with time left, and
      with force only under the lock. */
  lemma ReturnedTokensAreGiven(w: World, actions: seq<Action>, p: nat)
    requires Initial(w) && Possible(w, actions)
    requires p in Reach(w, actions).runs && Reach(w, actions).runs[p].Settled? && Reach(w, actions).runs[p].outcome.Returned?
    ensures var run := Reach(w, actions).runs[p];
      exists i: nat :: i < |actions| && Gives(w, actions, i, p, run.force, run.outcome.token)
        && SameRun(actions, i, |actions|, p)
  {
    EndsThere(w, actions);
    TokensAreGiven(w, actions, |actions|, p);
  }

  lemma {:induction false} EndsThere(w: World, actions: seq<Action>)
    requires Possible(w, actions)
    ensures WorldAt(w, actions, |actions|) == Reach(w, actions)
    decreases |actions|
  {
    if actions != [] {
      EndsThere(Step(w, actions[0]), actions[1..]);
    }
  }
}
