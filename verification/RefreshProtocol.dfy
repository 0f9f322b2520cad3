/** Token refresh by many processes that share one token file, one lock and a server that rotates
    refresh tokens.

    A world is what they share plus where each refresh run has got to.  Between two awaits a run is
    atomic, so every action below is one stretch of code between awaits, and an arbitrary sequence of
    actions is an arbitrary interleaving of arbitrarily many runs. */
module RefreshProtocol {
  import opened Options

  // ---------- Tokens ----------

  datatype Token = Token(accessToken: string, refreshToken: string, expiresAt: int, expiresIn: int,
                         scope: string, tokenType: string)

  datatype TokenState = Missing | Revoked(scope: string, tokenType: string) | Valid(token: Token)

  function ClassifyToken(stored: Option<Token>): TokenState {
    match stored
    case None => Missing
    case Some(token) => if |token.accessToken| == 0 then Revoked(token.scope, token.tokenType) else Valid(token)
  }

  function RevokedTombstone(prior: Token): Token {
    Token("", "", 0, 0, prior.scope, prior.tokenType)
  }

  const MIN_REFRESH_THRESHOLD_SECONDS := 300.0
  const REFRESH_THRESHOLD_RATIO := 0.5

  function DefaultRefreshThreshold(expiresIn: int): real {
    if expiresIn > 0 then
      var half := expiresIn as real * REFRESH_THRESHOLD_RATIO;
      if half > MIN_REFRESH_THRESHOLD_SECONDS then half else MIN_REFRESH_THRESHOLD_SECONDS
    else MIN_REFRESH_THRESHOLD_SECONDS
  }

  predicate ShouldRefresh(token: Token, force: bool, now: int) {
    force || (token.expiresAt != 0 && (token.expiresAt - now) as real < DefaultRefreshThreshold(token.expiresIn))
  }

  // Storage changed while the run waited for the lock.
  predicate Changed(after: Token, before: Token) {
    || after.refreshToken != before.refreshToken
    || after.accessToken != before.accessToken
    || after.expiresAt != before.expiresAt
    || after.expiresIn != before.expiresIn
  }

  // ---------- One refresh run ----------

  datatype Outcome = Returned(token: Token) | Unauthorized | Failed

  // The points at which a run awaits.  Reread to Releasing hold the lock.
  datatype Run =
    | Loading(force: bool)
    | Waiting(force: bool, snapshot: Token)
    | Reread(force: bool, snapshot: Token)
    | Calling(force: bool, snapshot: Token, active: Token)
    | InFlight(force: bool, snapshot: Token, active: Token)
    | Saving(force: bool, snapshot: Token, active: Token, refreshed: Token)
    | Sleeping(force: bool, snapshot: Token, active: Token)
    | Tombstoning(force: bool, snapshot: Token, active: Token)
    | Releasing(force: bool, snapshot: Token, outcome: Outcome)
    | Rejected(outcome: Outcome)
    | Settled(force: bool, snapshot: Token, outcome: Outcome)

  predicate HoldsLock(run: Run) {
    run.Reread? || run.Calling? || Spending(run) || run.Releasing?
  }

  // The run has presented its token to the server and storage may not show it yet.
  predicate Spending(run: Run) {
    run.InFlight? || run.Saving? || run.Sleeping? || run.Tombstoning?
  }

  // What the run goes on with once it has reread storage under the lock.
  function AfterReread(run: Run, stored: Option<Token>, now: int): Run
    requires run.Reread?
  {
    match ClassifyToken(stored)
    case Revoked(_, _) => Releasing(run.force, run.snapshot, Outcome.Unauthorized)
    case Missing => Activate(run, run.snapshot)
    case Valid(after) =>
      if !ShouldRefresh(after, run.force, now) then Releasing(run.force, run.snapshot, Returned(after))
      else if run.force && Changed(after, run.snapshot) then Releasing(run.force, run.snapshot, Returned(after))
      else Activate(run, after)
  }

  function Activate(run: Run, active: Token): Run
    requires run.Reread?
  {
    if |active.refreshToken| == 0 then Releasing(run.force, run.snapshot, Failed)
    else Calling(run.force, run.snapshot, active)
  }

  function AfterLoad(run: Run, stored: Option<Token>, now: int): Run
    requires run.Loading?
  {
    match ClassifyToken(stored)
    case Missing => Rejected(Failed)
    case Revoked(_, _) => Rejected(Outcome.Unauthorized)
    case Valid(token) =>
      if ShouldRefresh(token, run.force, now) then Waiting(run.force, token)
      else Settled(run.force, token, Returned(token))
  }

  // After a 401 and a pause: a peer's different token is taken, otherwise the rejection is recorded.
  function AfterRecovery(run: Run, stored: Option<Token>): Run
    requires run.Sleeping?
  {
    match ClassifyToken(stored)
    case Valid(token) =>
      if token.refreshToken != run.active.refreshToken then Releasing(run.force, run.snapshot, Returned(token))
      else Tombstoning(run.force, run.snapshot, run.active)
    case _ => Tombstoning(run.force, run.snapshot, run.active)
  }

  // ---------- The world ----------

  // sent counts how often each refresh token was presented, faults how often presenting it came to
  // nothing: a network error, or storage that could not be read or written afterwards.
  datatype World = World(store: Option<Token>, lock: Option<nat>, runs: map<nat, Run>,
                         sent: multiset<string>, faults: multiset<string>, seen: set<string>)

  datatype Action =
    | Begin(p: nat, force: bool)
    | Load(p: nat, now: int)
    | Lock(p: nat)
    | GiveUp(p: nat)  // storage cannot be read, or the lock cannot be had
    | Recheck(p: nat, now: int)
    | Send(p: nat)
    | Grant(p: nat, refreshed: Token)
    | Refuse(p: nat)
    | Fault(p: nat)
    | Save(p: nat)
    | Recover(p: nat)
    | Tombstone(p: nat)
    | Release(p: nat)
    | Login(token: Token)
    | Logout

  // The server rotates: a token it hands out carries no refresh token, or one never seen before.
  predicate Fresh(w: World, token: Token) {
    |token.refreshToken| == 0 || token.refreshToken !in w.seen
  }

  predicate Enabled(w: World, a: Action) {
    match a
    case Begin(p, _) => p in w.runs ==> w.runs[p].Settled? || w.runs[p].Rejected?
    case Load(p, _) => p in w.runs && w.runs[p].Loading?
    case Lock(p) => p in w.runs && w.runs[p].Waiting? && w.lock == None
    case GiveUp(p) => p in w.runs && (w.runs[p].Loading? || w.runs[p].Waiting? || w.runs[p].Reread?)
    case Recheck(p, _) => p in w.runs && w.runs[p].Reread?
    case Send(p) => p in w.runs && w.runs[p].Calling?
    case Grant(p, refreshed) => p in w.runs && w.runs[p].InFlight? && Fresh(w, refreshed)
    case Refuse(p) => p in w.runs && w.runs[p].InFlight?
    case Fault(p) => p in w.runs && Spending(w.runs[p])
    case Save(p) => p in w.runs && w.runs[p].Saving?
    case Recover(p) => p in w.runs && w.runs[p].Sleeping?
    case Tombstone(p) => p in w.runs && w.runs[p].Tombstoning?
    case Release(p) => p in w.runs && w.runs[p].Releasing?
    case Login(token) => Fresh(w, token)
    case Logout => true
  }

  function At(w: World, p: nat, run: Run): World {
    w.(runs := w.runs[p := run])
  }

  function Step(w: World, a: Action): World
    requires Enabled(w, a)
  {
    match a
    case Begin(p, force) => At(w, p, Loading(force))
    case Load(p, now) => At(w, p, AfterLoad(w.runs[p], w.store, now))
    case Lock(p) => At(w, p, Reread(w.runs[p].force, w.runs[p].snapshot)).(lock := Some(p))
    case GiveUp(p) =>
      At(w, p, if w.runs[p].Reread? then Releasing(w.runs[p].force, w.runs[p].snapshot, Failed) else Rejected(Failed))
    case Recheck(p, now) => At(w, p, AfterReread(w.runs[p], w.store, now))
    case Send(p) =>
      var run := w.runs[p];
      At(w, p, InFlight(run.force, run.snapshot, run.active)).(sent := w.sent + multiset{run.active.refreshToken})
    case Grant(p, refreshed) =>
      var run := w.runs[p];
      At(w, p, Saving(run.force, run.snapshot, run.active, refreshed))
      .(seen := w.seen + {refreshed.refreshToken})
    case Refuse(p) => At(w, p, Sleeping(w.runs[p].force, w.runs[p].snapshot, w.runs[p].active))
    case Fault(p) =>
      var run := w.runs[p];
      At(w, p, Releasing(run.force, run.snapshot, Failed)).(faults := w.faults + multiset{run.active.refreshToken})
    case Save(p) =>
      var run := w.runs[p];
      At(w, p, Releasing(run.force, run.snapshot, Returned(run.refreshed))).(store := Some(run.refreshed))
    case Recover(p) => At(w, p, AfterRecovery(w.runs[p], w.store))
    case Tombstone(p) =>
      var run := w.runs[p];
      At(w, p, Releasing(run.force, run.snapshot, Outcome.Unauthorized))
      .(store := Some(RevokedTombstone(run.active)))
    case Release(p) =>
      var run := w.runs[p];
      At(w, p, Settled(run.force, run.snapshot, run.outcome)).(lock := None)
    case Login(token) => w.(store := Some(token), seen := w.seen + {token.refreshToken})
    case Logout => w.(store := None)
  }

  predicate Initial(w: World) {
    && w.lock == None && w.runs == map[] && w.sent == multiset{} && w.faults == multiset{}
    && (w.store.Some? ==> Known(w, w.store.value))
  }

  // Every action is enabled when its turn comes.
  predicate Possible(w: World, actions: seq<Action>)
    decreases |actions|
  {
    actions == [] || (Enabled(w, actions[0]) && Possible(Step(w, actions[0]), actions[1..]))
  }

  function Reach(w: World, actions: seq<Action>): World
    requires Possible(w, actions)
    decreases |actions|
  {
    if actions == [] then w else Reach(Step(w, actions[0]), actions[1..])
  }

  // ---------- What every step keeps ----------

  ghost predicate Mutex(w: World) {
    && (forall p <- w.runs :: HoldsLock(w.runs[p]) <==> w.lock == Some(p))
    && (w.lock.Some? ==> w.lock.value in w.runs)
  }

  predicate Known(w: World, token: Token) {
    |token.refreshToken| == 0 || token.refreshToken in w.seen
  }

  // What a run carries: tokens it presents are real and known, and a forced run's are its snapshot's,
  // so whatever it is granted or finds instead differs from what it read before it had the lock.
  ghost predicate RunInv(w: World, run: Run) {
    && (run.Waiting? || run.Reread? ==> Known(w, run.snapshot))
    && (run.Calling? || Spending(run) ==>
          && |run.active.refreshToken| != 0
          && Known(w, run.active)
          && (run.force ==> !Changed(run.active, run.snapshot)))
    && (run.Saving? ==>
          && Known(w, run.refreshed)
          && (|run.refreshed.refreshToken| != 0 ==> run.refreshed.refreshToken !in w.sent)
          && (run.force ==> Changed(run.refreshed, run.snapshot)))
    && ((run.Releasing? || run.Settled?) && run.force && run.outcome.Returned? ==>
          Changed(run.outcome.token, run.snapshot))
  }

  ghost predicate Inv(w: World) {
    && Mutex(w)
    && (forall p <- w.runs :: RunInv(w, w.runs[p]))
    && (w.store.Some? ==> Known(w, w.store.value))
    && (forall r <- w.sent :: r in w.seen)
  }

  lemma InitialInv(w: World)
    requires Initial(w)
    ensures Inv(w)
  {
  }

  lemma StepMutex(w: World, a: Action)
    requires Mutex(w) && Enabled(w, a)
    ensures Mutex(Step(w, a))
  {
  }

  lemma StepSeen(w: World, a: Action)
    requires Inv(w) && Enabled(w, a)
    ensures forall r <- Step(w, a).sent :: r in Step(w, a).seen
    ensures Step(w, a).store.Some? ==> Known(Step(w, a), Step(w, a).store.value)
  {
    if a.Send? || a.Save? {
      assert RunInv(w, w.runs[a.p]);
    }
  }

  // The run that takes the step: it reads storage, is granted a token, or just moves on.
  lemma OwnRead(w: World, a: Action)
    requires Inv(w) && Enabled(w, a) && (a.Load? || a.Recheck? || a.Recover?)
    ensures RunInv(Step(w, a), Step(w, a).runs[a.p])
  {
    assert RunInv(w, w.runs[a.p]);
  }

  lemma OwnMove(w: World, a: Action)
    requires Inv(w) && Enabled(w, a) && !a.Login? && !a.Logout?
    requires !a.Load? && !a.Recheck? && !a.Recover? && !a.Grant?
    ensures RunInv(Step(w, a), Step(w, a).runs[a.p])
  {
    if a.p in w.runs {
      assert RunInv(w, w.runs[a.p]);
    }
  }

  lemma OwnGrant(w: World, a: Action)
    requires Inv(w) && Enabled(w, a) && a.Grant?
    ensures RunInv(Step(w, a), Step(w, a).runs[a.p])
  {
    assert RunInv(w, w.runs[a.p]);
    assert Step(w, a).sent == w.sent;
  }

  // Every other run holds no lock when the step presents a token, and seen tokens stay seen.
  lemma OtherRun(w: World, a: Action, q: nat)
    requires Inv(w) && Enabled(w, a) && q in w.runs && (a.Login? || a.Logout? || q != a.p)
    ensures RunInv(Step(w, a), w.runs[q])
  {
    assert RunInv(w, w.runs[q]);
    if a.Send? {
      assert w.lock == Some(a.p) && !HoldsLock(w.runs[q]);
    }
  }

  lemma StepInv(w: World, a: Action)
    requires Inv(w) && Enabled(w, a)
    ensures Inv(Step(w, a))
  {
    StepMutex(w, a);
    StepSeen(w, a);
    forall q <- Step(w, a).runs ensures RunInv(Step(w, a), Step(w, a).runs[q]) {
      if a.Login? || a.Logout? || q != a.p {
        OtherRun(w, a, q);
      } else if a.Load? || a.Recheck? || a.Recover? {
        OwnRead(w, a);
      } else if a.Grant? {
        OwnGrant(w, a);
      } else {
        OwnMove(w, a);
      }
    }
  }

  lemma {:induction false} ReachInv(w: World, actions: seq<Action>)
    requires Inv(w) && Possible(w, actions)
    ensures Inv(Reach(w, actions))
    decreases |actions|
  {
    if actions != [] {
      StepInv(w, actions[0]);
      ReachInv(Step(w, actions[0]), actions[1..]);
    }
  }

  // In every run at most one refresh is past the lock at any time.
  lemma OneRefreshAtATime(w: World, actions: seq<Action>, p: nat, q: nat)
    requires Initial(w) && Possible(w, actions)
    requires var end := Reach(w, actions);
      p in end.runs && q in end.runs && HoldsLock(end.runs[p]) && HoldsLock(end.runs[q])
    ensures p == q
  {
    InitialInv(w);
    ReachInv(w, actions);
  }

  // ---------- What a run decides on ----------

  // A token with time enough left: five minutes, and half of its life where that is known.  One without
  // an expiry always has.
  predicate HasTimeLeft(token: Token, now: int) {
    token.expiresAt == 0
    || (token.expiresAt - now >= 300 && (token.expiresIn > 0 ==> 2 * (token.expiresAt - now) >= token.expiresIn))
  }

  // The first read: without a record the run fails, on a tombstone it is refused; an unforced run returns
  // a token just when it has time left, and every other run goes on to the lock.
  lemma LoadDecides(w: World, p: nat, now: int)
    requires Enabled(w, Load(p, now))
    ensures var force, next := w.runs[p].force, Step(w, Load(p, now));
      && next == w.(runs := next.runs) && p in next.runs
      && (w.store == None <==> next.runs[p] == Rejected(Failed))
      && (w.store.Some? && w.store.value.accessToken == "" <==> next.runs[p] == Rejected(Outcome.Unauthorized))
      && (w.store.Some? && w.store.value.accessToken != "" ==>
            next.runs[p] == if !force && HasTimeLeft(w.store.value, now)
                            then Settled(force, w.store.value, Returned(w.store.value))
                            else Waiting(force, w.store.value))
  {
  }

  // What a run does with the token it is to refresh: it presents it, or fails for want of one.
  predicate GoesOnWith(before: Run, after: Run, token: Token)
    requires before.Reread?
  {
    if token.refreshToken == "" then after == Releasing(before.force, before.snapshot, Failed)
    else after == Calling(before.force, before.snapshot, token)
  }

  // The read under the lock.  An unforced run returns what it finds just when that has time left, a
  // forced one just when it is another record than before the lock; otherwise the run refreshes.
  lemma RecheckDecides(w: World, p: nat, now: int)
    requires Enabled(w, Recheck(p, now))
    ensures var run, next := w.runs[p], Step(w, Recheck(p, now));
      && next == w.(runs := next.runs) && p in next.runs
      && (w.store == None ==> GoesOnWith(run, next.runs[p], run.snapshot))
      && (w.store.Some? && w.store.value.accessToken == "" ==>
            next.runs[p] == Releasing(run.force, run.snapshot, Outcome.Unauthorized))
      && (w.store.Some? && w.store.value.accessToken != "" ==>
            var token := w.store.value;
            var returns_ :=
              if run.force then
                || token.refreshToken != run.snapshot.refreshToken || token.accessToken != run.snapshot.accessToken
                || token.expiresAt != run.snapshot.expiresAt || token.expiresIn != run.snapshot.expiresIn
              else HasTimeLeft(token, now);
            if returns_ then next.runs[p] == Releasing(run.force, run.snapshot, Returned(token))
            else GoesOnWith(run, next.runs[p], token))
  {
  }

  // After a refusal: a peer's token found in storage is returned, and stays there; otherwise the run goes
  // on to bury the one refused.
  lemma RecoverDecides(w: World, p: nat)
    requires Enabled(w, Recover(p))
    ensures var run, next := w.runs[p], Step(w, Recover(p));
      && next == w.(runs := next.runs) && p in next.runs
      && if w.store.Some? && w.store.value.accessToken != "" && w.store.value.refreshToken != run.active.refreshToken
         then next.runs[p] == Releasing(run.force, run.snapshot, Returned(w.store.value)) && !Enabled(next, Tombstone(p))
         else next.runs[p] == Tombstoning(run.force, run.snapshot, run.active)
  {
  }

  // What a tombstone is: nothing to present and nothing to use, of the same scope and type.
  lemma TombstoneBuries(w: World, p: nat)
    requires Enabled(w, Tombstone(p))
    ensures var active, store := w.runs[p].active, Step(w, Tombstone(p)).store;
      && store.Some? && store.value.accessToken == "" && store.value.refreshToken == ""
      && store.value.scope == active.scope && store.value.tokenType == active.tokenType
      && store.value.expiresAt == 0 && store.value.expiresIn == 0
  {
  }

  // In every run, a forced refresh that returns a token returns something other than its snapshot.
  lemma ForcedNeverReturnsSnapshot(w: World, actions: seq<Action>, p: nat)
    requires Initial(w) && Possible(w, actions)
    requires var end := Reach(w, actions);
      p in end.runs && end.runs[p].Settled? && end.runs[p].force && end.runs[p].outcome.Returned?
    ensures var run := Reach(w, actions).runs[p]; var token, read := run.outcome.token, run.snapshot;
      || token.refreshToken != read.refreshToken || token.accessToken != read.accessToken
      || token.expiresAt != read.expiresAt || token.expiresIn != read.expiresIn
  {
    InitialInv(w);
    ReachInv(w, actions);
    assert RunInv(Reach(w, actions), Reach(w, actions).runs[p]);
  }

  // ---------- Single use ----------

  // Presenting the token once more keeps it within its budget.
  predicate Unspent(w: World, token: Token) {
    w.sent[token.refreshToken] <= w.faults[token.refreshToken]
  }

  // No refresh token is presented more often than once plus once for each fault.
  ghost predicate Budget(w: World) {
    forall r: string :: w.sent[r] <= w.faults[r] + 1
  }

  // The stored token may be presented, except while the lock's holder is still presenting it.
  ghost predicate StoreUnspent(w: World) {
    w.store.Some? ==>
      || |w.store.value.refreshToken| == 0
      || Unspent(w, w.store.value)
      || (&& w.lock.Some? && w.lock.value in w.runs && Spending(w.runs[w.lock.value])
          && w.runs[w.lock.value].active.refreshToken == w.store.value.refreshToken)
  }

  ghost predicate CallersUnspent(w: World) {
    forall p <- w.runs :: w.runs[p].Calling? ==> Unspent(w, w.runs[p].active)
  }

  ghost predicate Thrifty(w: World) {
    Budget(w) && StoreUnspent(w) && CallersUnspent(w)
  }

  // At the reread the file is gone, and the run falls back on what it read before it had the lock.
  predicate FallsBack(w: World, a: Action)
    requires Enabled(w, a)
  {
    a.Recheck? && ClassifyToken(w.store).Missing? && |w.runs[a.p].snapshot.refreshToken| != 0
  }

  predicate SafeFallback(w: World, a: Action)
    requires Enabled(w, a)
  {
    FallsBack(w, a) ==> Unspent(w, w.runs[a.p].snapshot)
  }

  lemma StepBudget(w: World, a: Action)
    requires Inv(w) && Thrifty(w) && Enabled(w, a)
    ensures Budget(Step(w, a))
  {
  }

  lemma StepStore(w: World, a: Action)
    requires Inv(w) && Thrifty(w) && Enabled(w, a)
    ensures StoreUnspent(Step(w, a))
  {
    if !a.Login? && !a.Logout? && a.p in w.runs {
      assert RunInv(w, w.runs[a.p]);
      assert HoldsLock(w.runs[a.p]) <==> w.lock == Some(a.p);
    }
  }

  lemma StepCallers(w: World, a: Action)
    requires Inv(w) && Thrifty(w) && Enabled(w, a) && SafeFallback(w, a)
    ensures CallersUnspent(Step(w, a))
  {
    var w' := Step(w, a);
    assert a.Recheck? || a.Send? ==> w.lock == Some(a.p);
    forall q <- w'.runs | w'.runs[q].Calling? ensures Unspent(w', w'.runs[q].active) {
      assert q in w.runs ==> (HoldsLock(w.runs[q]) <==> w.lock == Some(q));
    }
  }

  ghost predicate EverySafeFallback(w: World, actions: seq<Action>)
    requires Possible(w, actions)
    decreases |actions|
  {
    actions == [] || (SafeFallback(w, actions[0]) && EverySafeFallback(Step(w, actions[0]), actions[1..]))
  }

  lemma {:induction false} ReachThrifty(w: World, actions: seq<Action>)
    requires Inv(w) && Thrifty(w) && Possible(w, actions) && EverySafeFallback(w, actions)
    ensures Thrifty(Reach(w, actions))
    decreases |actions|
  {
    if actions != [] {
      StepInv(w, actions[0]);
      StepBudget(w, actions[0]);
      StepStore(w, actions[0]);
      StepCallers(w, actions[0]);
      ReachThrifty(Step(w, actions[0]), actions[1..]);
    }
  }

  // In every interleaving whose fallbacks are safe, each refresh token is presented at most once plus
  // once for each fault on it.
  lemma SingleUse(w: World, actions: seq<Action>)
    requires Initial(w) && Possible(w, actions) && EverySafeFallback(w, actions)
    ensures Budget(Reach(w, actions))
  {
    InitialInv(w);
    ReachThrifty(w, actions);
  }

  // ---------- Logouts ----------

  predicate OvertakenBy(run: Run) {
    run.Waiting? || run.Reread?
  }

  // No logout comes while a run waits between its first read and its reread.
  ghost predicate NoOvertakingLogout(w: World, actions: seq<Action>)
    requires Possible(w, actions)
    decreases |actions|
  {
    actions == []
    || (&& (actions[0].Logout? ==> forall p <- w.runs :: !OvertakenBy(w.runs[p]))
        && NoOvertakingLogout(Step(w, actions[0]), actions[1..]))
  }

  ghost predicate WaitersSeeFile(w: World) {
    w.store == None ==> forall p <- w.runs :: !OvertakenBy(w.runs[p])
  }

  // No run falls back on what it read before it had the lock.
  ghost predicate NoFallback(w: World, actions: seq<Action>)
    requires Possible(w, actions)
    decreases |actions|
  {
    actions == [] || (!FallsBack(w, actions[0]) && NoFallback(Step(w, actions[0]), actions[1..]))
  }

  lemma {:induction false} NoOvertakingNoFallback(w: World, actions: seq<Action>)
    requires Possible(w, actions) && WaitersSeeFile(w) && NoOvertakingLogout(w, actions)
    ensures NoFallback(w, actions) && EverySafeFallback(w, actions)
    decreases |actions|
  {
    if actions != [] {
      NoOvertakingNoFallback(Step(w, actions[0]), actions[1..]);
    }
  }

  // With no fault and no overtaking logout, each refresh token is presented at most once.
  lemma AtMostOnce(w: World, actions: seq<Action>, r: string)
    requires Initial(w) && Possible(w, actions) && NoOvertakingLogout(w, actions)
    requires forall a <- actions :: !a.Fault?
    ensures Reach(w, actions).sent[r] <= 1
  {
    NoOvertakingNoFallback(w, actions);
    SingleUse(w, actions);
    FaultsStay(w, actions);
  }

  lemma {:induction false} FaultsStay(w: World, actions: seq<Action>)
    requires Possible(w, actions) && forall a <- actions :: !a.Fault?
    ensures Reach(w, actions).faults == w.faults
    decreases |actions|
  {
    if actions != [] {
      FaultsStay(Step(w, actions[0]), actions[1..]);
    }
  }

  // ---------- Tombstones ----------

  // Nothing presentable is stored, and nobody holds a token to present.
  ghost predicate Quiet(w: World) {
    && !ClassifyToken(w.store).Valid?
    && forall p <- w.runs :: !w.runs[p].Calling? && !Spending(w.runs[p])
  }

  lemma TombstoneQuiets(w: World, a: Action)
    requires Inv(w) && Enabled(w, a) && a.Tombstone?
    ensures Quiet(Step(w, a))
  {
    assert w.lock == Some(a.p);
  }

  lemma {:induction false} QuietUntilLogin(w: World, actions: seq<Action>)
    requires Quiet(w) && Possible(w, actions) && NoFallback(w, actions)
    requires forall a <- actions :: !a.Login?
    ensures forall a <- actions :: !a.Send?
    decreases |actions|
  {
    if actions != [] {
      QuietUntilLogin(Step(w, actions[0]), actions[1..]);
    }
  }

  // From the moment a tombstone is saved, no process presents any token until a login saves one,
  // whatever logouts come, unless a run that reads no token falls back on its own.
  lemma TombstoneSilences(w: World, before: seq<Action>, p: nat, after: seq<Action>)
    requires Initial(w) && Possible(w, before)
    requires Enabled(Reach(w, before), Tombstone(p))
    requires var buried := Step(Reach(w, before), Tombstone(p));
      Possible(buried, after) && NoFallback(buried, after)
    requires forall a <- after :: !a.Login?
    ensures forall a <- after :: !a.Send?
  {
    InitialInv(w);
    ReachInv(w, before);
    TombstoneQuiets(Reach(w, before), Tombstone(p));
    QuietUntilLogin(Step(Reach(w, before), Tombstone(p)), after);
  }

  // ---------- Why logouts matter ----------

  predicate Leads(w: World, actions: seq<Action>, end: World) {
    Possible(w, actions) && Reach(w, actions) == end
  }

  lemma {:induction false} LeadsOn(w: World, first: seq<Action>, middle: World, second: seq<Action>, end: World)
    requires Leads(w, first, middle) && Leads(middle, second, end)
    ensures Leads(w, first + second, end)
    decreases |first|
  {
    if first == [] {
      assert first + second == second;
    } else {
      LeadsOn(Step(w, first[0]), first[1..], middle, second, end);
      assert (first + second)[1..] == first[1..] + second;
    }
  }

  lemma LeadsOnce(w: World, a: Action)
    requires Enabled(w, a)
    ensures Leads(w, [a], Step(w, a))
  {
    assert [a][1..] == [];
  }

  lemma LeadsTwice(w: World, a: Action, b: Action)
    requires Enabled(w, a) && Enabled(Step(w, a), b)
    ensures Leads(w, [a, b], Step(Step(w, a), b))
  {
    LeadsOnce(w, a);
    LeadsOnce(Step(w, a), b);
    LeadsOn(w, [a], Step(w, a), [b], Step(Step(w, a), b));
    assert [a] + [b] == [a, b];
  }

  // Two forced refreshes start from the same file; the first rotates the token, a logout removes the
  // file while the second waits, and the second falls back on the token that was already presented.
  // The stages of that run, two actions each.
  function Stage(token: Token, granted: Token, n: nat): World {
    var r := token.refreshToken;
    var waiting, settled := Waiting(true, token), Settled(true, token, Returned(granted));
    var seen, after := {r}, {r, granted.refreshToken};
    match n
    case 0 => World(Some(token), None, map[], multiset{}, multiset{}, seen)
    case 1 => World(Some(token), None, map[0 := waiting], multiset{}, multiset{}, seen)
    case 2 => World(Some(token), None, map[0 := waiting, 1 := waiting], multiset{}, multiset{}, seen)
    case 3 =>
      World(Some(token), Some(0), map[0 := Calling(true, token, token), 1 := waiting], multiset{}, multiset{}, seen)
    case 4 =>
      World(Some(token), Some(0), map[0 := Saving(true, token, token, granted), 1 := waiting],
            multiset{r}, multiset{}, after)
    case 5 => World(Some(granted), None, map[0 := settled, 1 := waiting], multiset{r}, multiset{}, after)
    case 6 => World(None, Some(1), map[0 := settled, 1 := Reread(true, token)], multiset{r}, multiset{}, after)
    case _ =>
      World(None, Some(1), map[0 := settled, 1 := InFlight(true, token, token)], multiset{r, r}, multiset{}, after)
  }

  function Actions(granted: Token, n: nat): seq<Action> {
    match n
    case 0 => [Begin(0, true), Load(0, 0)]
    case 1 => [Begin(1, true), Load(1, 0)]
    case 2 => [Lock(0), Recheck(0, 0)]
    case 3 => [Send(0), Grant(0, granted)]
    case 4 => [Save(0), Release(0)]
    case 5 => [Logout, Lock(1)]
    case _ => [Recheck(1, 0), Send(1)]
  }

  lemma EarlyStages(token: Token, granted: Token, n: nat)
    requires |token.accessToken| > 0 && |token.refreshToken| > 0 && granted.refreshToken != token.refreshToken
    requires n < 3
    ensures Leads(Stage(token, granted, n), Actions(granted, n), Stage(token, granted, n + 1))
  {
    var w := Stage(token, granted, n);
    match n {
      case 0 => LeadsTwice(w, Begin(0, true), Load(0, 0));
      case 1 => LeadsTwice(w, Begin(1, true), Load(1, 0));
      case _ => LeadsTwice(w, Lock(0), Recheck(0, 0));
    }
  }

  lemma RefreshStages(token: Token, granted: Token, n: nat)
    requires |token.accessToken| > 0 && |token.refreshToken| > 0 && granted.refreshToken != token.refreshToken
    requires 3 <= n < 5
    ensures Leads(Stage(token, granted, n), Actions(granted, n), Stage(token, granted, n + 1))
  {
    var w := Stage(token, granted, n);
    match n {
      case 3 => LeadsTwice(w, Send(0), Grant(0, granted));
      case _ => LeadsTwice(w, Save(0), Release(0));
    }
  }

  lemma LateStages(token: Token, granted: Token, n: nat)
    requires |token.accessToken| > 0 && |token.refreshToken| > 0 && granted.refreshToken != token.refreshToken
    requires 5 <= n < 7
    ensures Leads(Stage(token, granted, n), Actions(granted, n), Stage(token, granted, n + 1))
  {
    var w := Stage(token, granted, n);
    match n {
      case 5 => LeadsTwice(w, Logout, Lock(1));
      case _ => LeadsTwice(w, Recheck(1, 0), Send(1));
    }
  }

  lemma OneStage(token: Token, granted: Token, n: nat)
    requires |token.accessToken| > 0 && |token.refreshToken| > 0 && granted.refreshToken != token.refreshToken
    requires n < 7
    ensures Leads(Stage(token, granted, n), Actions(granted, n), Stage(token, granted, n + 1))
    ensures forall a <- Actions(granted, n) :: !a.Fault?
  {
    if n < 3 {
      EarlyStages(token, granted, n);
    } else if n < 5 {
      RefreshStages(token, granted, n);
    } else {
      LateStages(token, granted, n);
    }
  }

  lemma {:induction false} StagesLead(token: Token, granted: Token, n: nat) returns (actions: seq<Action>)
    requires |token.accessToken| > 0 && |token.refreshToken| > 0 && granted.refreshToken != token.refreshToken
    requires n <= 7
    ensures Leads(Stage(token, granted, n), actions, Stage(token, granted, 7))
    ensures forall a <- actions :: !a.Fault?
    decreases 7 - n
  {
    if n == 7 {
      return [];
    }
    OneStage(token, granted, n);
    var rest := StagesLead(token, granted, n + 1);
    LeadsOn(Stage(token, granted, n), Actions(granted, n), Stage(token, granted, n + 1), rest,
            Stage(token, granted, 7));
    actions := Actions(granted, n) + rest;
  }

  lemma OvertakingLogoutSpendsTwice(token: Token, granted: Token)
    requires |token.accessToken| > 0 && |token.refreshToken| > 0 && granted.refreshToken != token.refreshToken
    ensures exists w: World, actions: seq<Action> ::
      && Initial(w) && Possible(w, actions) && (forall a <- actions :: !a.Fault?)
      && Reach(w, actions).sent[token.refreshToken] == 2
  {
    var actions := StagesLead(token, granted, 0);
    assert Initial(Stage(token, granted, 0));
  }
}
