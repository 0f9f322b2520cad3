/** The device authorization grant (RFC 8628): polling for the token under a local deadline. */
module DeviceLogin {
  import opened Options

  datatype Answer = Success(token: string) | Denied | Expired | Pending(slowDown: bool)

  datatype Outcome = LoggedIn(token: string) | Refused | TimedOut | Aborted | StillPolling

  // One poll: for which device code, at what time, how it was answered, how long the client slept then.
  datatype Poll = Poll(code: nat, at: int, answer: Answer, slept: nat)

  const SLOW_DOWN_STEP := 5

  function Max(a: int, b: int): int {
    if a < b then b else a
  }

  // Milliseconds to seconds, rounded up.
  function Ceil(ms: nat): nat {
    (ms + 999) / 1000
  }

  // ---------- Logs ----------

  function SlowDowns(log: seq<Poll>, code: nat): nat {
    if log == [] then 0
    else
      SlowDowns(log[..|log| - 1], code)
      + if log[|log| - 1].code == code && log[|log| - 1].answer == Pending(true) then 1 else 0
  }

  function Pendings(log: seq<Poll>): nat {
    if log == [] then 0 else Pendings(log[..|log| - 1]) + if log[|log| - 1].answer.Pending? then 1 else 0
  }

  function Expiries(log: seq<Poll>): nat {
    if log == [] then 0 else Expiries(log[..|log| - 1]) + if log[|log| - 1].answer.Expired? then 1 else 0
  }

  function Slept(log: seq<Poll>): nat {
    if log == [] then 0 else Slept(log[..|log| - 1]) + log[|log| - 1].slept
  }

  // The interval in force for a code after these polls.
  function Interval(initial: nat -> int, log: seq<Poll>, code: nat): nat {
    Max(initial(code), 1) + SLOW_DOWN_STEP * SlowDowns(log, code)
  }

  predicate Decisive(answer: Answer) {
    answer.Success? || answer.Denied?
  }

  /** A log kept to the rules: polls between start and deadline, each after the sleep the one before
      called for, a new code after an expiry, no poll after a decisive answer. */
  ghost predicate Orderly(log: seq<Poll>, initial: nat -> int, start: int, deadline: int) {
    log == [] ||
    var front, last := log[..|log| - 1], log[|log| - 1];
    && Orderly(front, initial, start, deadline)
    && start <= last.at < deadline
    && (front != [] ==> front[|front| - 1].at + front[|front| - 1].slept <= last.at && !Decisive(front[|front| - 1].answer))
    && last.code == Expiries(front)
    && last.slept == if last.answer.Pending? then Interval(initial, log, last.code) else 0
  }

  // ---------- The client ----------

  // How the rest of the world behaves: the server's answers as far as they go, the interval that comes
  // with each code, the time that passes before each reading of the clock and beyond each sleep, and
  // the signal at each turn of the loop.
  datatype World = World(
    answers: seq<Answer>, initial: nat -> int, passes: nat -> nat, oversleeps: nat -> nat, aborts: nat -> bool)

  // The next poll may be made at this time.
  ghost predicate Ready(log: seq<Poll>, clock: int, start: int) {
    && start <= clock
    && (log != [] ==> log[|log| - 1].at + log[|log| - 1].slept <= clock && !Decisive(log[|log| - 1].answer))
  }

  // The log records the first of the answers, in order.
  predicate Records(log: seq<Poll>, answers: seq<Answer>) {
    |log| <= |answers| && forall k :: 0 <= k < |log| ==> log[k].answer == answers[k]
  }

  function NextPoll(log: seq<Poll>, code: nat, at: int, answer: Answer, interval: nat): Poll {
    Poll(code, at, answer, if answer.Pending? then interval else 0)
  }

  // One more poll keeps the log orderly, and the client's interval the one in force.
  lemma OneMorePoll(log: seq<Poll>, world: World, start: int, deadline: int, at: int, answer: Answer, interval: nat)
    requires Orderly(log, world.initial, start, deadline) && Ready(log, at, start) && at < deadline
    requires Records(log, world.answers) && |log| < |world.answers| && answer == world.answers[|log|]
    requires interval == Interval(world.initial, log, Expiries(log)) + if answer == Pending(true) then SLOW_DOWN_STEP else 0
    ensures var more := log + [NextPoll(log, Expiries(log), at, answer, interval)];
      && Orderly(more, world.initial, start, deadline) && Records(more, world.answers)
      && interval == Interval(world.initial, more, Expiries(log))
      && Expiries(more) == Expiries(log) + if answer.Expired? then 1 else 0
  {
    var more := log + [NextPoll(log, Expiries(log), at, answer, interval)];
    assert more[..|more| - 1] == log;
  }

  lemma {:induction false} NewCodeIsFresh(log: seq<Poll>, initial: nat -> int, start: int, deadline: int, code: nat)
    requires Orderly(log, initial, start, deadline) && (log != [] ==> log[|log| - 1].code < code)
    ensures SlowDowns(log, code) == 0
  {
    if log != [] {
      var front := log[..|log| - 1];
      assert front != [] ==> front[|front| - 1].code <= Expiries(front);
      NewCodeIsFresh(front, initial, start, deadline, code);
    }
  }

  lemma {:induction false} PollsBefore(log: seq<Poll>, initial: nat -> int, start: int, deadline: int)
    requires Orderly(log, initial, start, deadline)
    ensures forall k :: 0 <= k < |log| ==> start <= log[k].at < deadline
  {
    if log != [] {
      PollsBefore(log[..|log| - 1], initial, start, deadline);
    }
  }

  lemma CeilIsLeast(ms: nat, seconds: int)
    ensures seconds < Ceil(ms) <==> 1000 * seconds < ms
  {
  }

  lemma PollsInTime(log: seq<Poll>, initial: nat -> int, start: int, timeoutMs: nat)
    requires Orderly(log, initial, start, start + Ceil(timeoutMs))
    ensures forall k :: 0 <= k < |log| ==> start <= log[k].at && 1000 * (log[k].at - start) < timeoutMs
  {
    PollsBefore(log, initial, start, start + Ceil(timeoutMs));
    forall k | 0 <= k < |log| ensures 1000 * (log[k].at - start) < timeoutMs {
      CeilIsLeast(timeoutMs, log[k].at - start);
    }
  }

  class Client {
    const world: World
    var clock: int
    var readings: nat
    var saved: Option<string>
    var log: seq<Poll>

    constructor (world: World, clock: int)
      ensures this.world == world && this.clock == clock && readings == 0 && saved == None && log == []
    {
      this.world, this.clock := world, clock;
      readings, saved, log := 0, None, [];
    }

    method Now() returns (t: int)
      modifies `clock, `readings
      ensures t == clock && old(clock) <= clock
    {
      clock := clock + world.passes(readings);
      readings := readings + 1;
      t := clock;
    }

    method Sleep(seconds: nat)
      modifies `clock, `readings
      ensures old(clock) + seconds <= clock
    {
      clock := clock + seconds + world.oversleeps(readings);
      readings := readings + 1;
    }

    ghost predicate Sound(start: int, deadline: int)
      reads this
    {
      && Orderly(log, world.initial, start, deadline) && Records(log, world.answers)
      && forall k :: 0 <= k < |log| ==> !world.aborts(k)
    }

    // The outcome is what the last answer says, and a token is saved just when there is one.
    ghost predicate Ends(r: Outcome, deadline: int)
      reads this
    {
      && saved == (if r.LoggedIn? then Some(r.token) else None)
      && (r.LoggedIn? <==> log != [] && log[|log| - 1].answer.Success?)
      && (r.LoggedIn? ==> log[|log| - 1].answer.token == r.token)
      && (r.Refused? <==> log != [] && log[|log| - 1].answer.Denied?)
      && (r.TimedOut? ==> deadline <= clock)
      && (r.StillPolling? ==> |log| == |world.answers| && !world.aborts(|log|))
      && (r.Aborted? ==> world.aborts(|log|))
    }

    // Between two polls for a code, at the interval in force.
    ghost predicate Waiting(code: nat, interval: nat, start: int, deadline: int)
      reads this
    {
      && Sound(start, deadline) && Ready(log, clock, start) && saved == None
      && code == Expiries(log) && interval == Interval(world.initial, log, code)
    }

    // One poll before the deadline.
    method Ask(code: nat, currentInterval: nat, ghost start: int, deadline: int) returns (answer: Answer, interval: nat)
      requires Waiting(code, currentInterval, start, deadline) && clock < deadline && |log| < |world.answers|
      requires !world.aborts(|log|)
      modifies `log
      ensures Sound(start, deadline)
      ensures answer == world.answers[|old(log)|] && log == old(log) + [NextPoll(old(log), code, clock, answer, interval)]
      ensures interval == Interval(world.initial, log, code)
      ensures Expiries(log) == code + if answer.Expired? then 1 else 0
    {
      answer := world.answers[|log|];
      interval := if answer == Pending(true) then currentInterval + SLOW_DOWN_STEP else currentInterval;
      OneMorePoll(log, world, start, deadline, clock, answer, interval);
      log := log + [NextPoll(log, code, clock, answer, interval)];
    }

    // What one poll comes to: an outcome, an expired code, or a sleep until the next.
    method PollOnce(code: nat, currentInterval: nat, start: int, deadline: int)
      returns (outcome: Option<Outcome>, expired: bool, interval: nat)
      requires Waiting(code, currentInterval, start, deadline) && clock < deadline && |log| < |world.answers|
      requires !world.aborts(|log|)
      modifies this
      ensures outcome.Some? ==> Sound(start, deadline) && Ends(outcome.value, deadline)
      ensures outcome.None? && expired ==> CodeExpired(code, start, deadline)
      ensures outcome.None? && !expired ==> Waiting(code, interval, start, deadline)
      ensures |old(log)| < |log|
    {
      var answer;
      answer, interval := Ask(code, currentInterval, start, deadline);
      outcome, expired := None, answer.Expired?;
      assert log[|log| - 1] == NextPoll(old(log), code, clock, answer, interval);
      if answer.Success? {
        saved := Some(answer.token);
        outcome := Some(LoggedIn(answer.token));
      } else if answer.Denied? {
        outcome := Some(Refused);
      } else if answer.Pending? {
        Sleep(interval);
      }
    }

    ghost predicate CodeExpired(code: nat, start: int, deadline: int)
      reads this
    {
      && Sound(start, deadline) && Ready(log, clock, start) && saved == None
      && log != [] && log[|log| - 1].code == code && Expiries(log) == code + 1
    }

    // Polls for one device code; without an outcome, the code has expired.
    method PollCode(code: nat, start: int, deadline: int) returns (r: Option<Outcome>)
      requires Waiting(code, Max(world.initial(code), 1), start, deadline)
      modifies this
      ensures r.Some? ==> Sound(start, deadline) && Ends(r.value, deadline)
      ensures r.None? ==> CodeExpired(code, start, deadline) && |old(log)| < |log|
    {
      var currentInterval: nat := Max(world.initial(code), 1);
      while true
        invariant Waiting(code, currentInterval, start, deadline) && |old(log)| <= |log|
        decreases |world.answers| - |log|
      {
        if world.aborts(|log|) {
          return Some(Aborted);
        }
        var now := Now();
        if now >= deadline {
          return Some(TimedOut);
        }
        if |log| == |world.answers| {
          return Some(StillPolling);
        }
        var expired;
        r, expired, currentInterval := PollOnce(code, currentInterval, start, deadline);
        if r.Some? || expired {
          return;
        }
      }
    }

    /** The log is orderly whatever the world does, and the outcome is the last answer's; no poll is made
        once the timeout has run out or the signal is raised, and the login times out only after all of it. */
    method Login(timeoutMs: nat) returns (r: Outcome, startedAt: int)
      requires log == [] && saved == None
      modifies this
      ensures old(clock) <= startedAt && Sound(startedAt, startedAt + Ceil(timeoutMs))
      ensures Ends(r, startedAt + Ceil(timeoutMs))
      ensures forall k :: 0 <= k < |log| ==>
        startedAt <= log[k].at && 1000 * (log[k].at - startedAt) < timeoutMs && !world.aborts(k)
      ensures r.TimedOut? ==> timeoutMs <= 1000 * (clock - startedAt)
      ensures r.Aborted? <==> world.aborts(|log|) && !r.LoggedIn? && !r.Refused? && !r.TimedOut?
    {
      startedAt := Now();
      var deadlineAt := startedAt + Ceil(timeoutMs);
      var code := 0;
      while true
        invariant Waiting(code, Max(world.initial(code), 1), startedAt, deadlineAt)
        decreases |world.answers| - |log|
      {
        var outcome := PollCode(code, startedAt, deadlineAt);
        PollsInTime(log, world.initial, startedAt, timeoutMs);
        if outcome.Some? {
          CeilIsLeast(timeoutMs, clock - startedAt);
          return outcome.value, startedAt;
        }
        var now := Now();
        if now >= deadlineAt {
          CeilIsLeast(timeoutMs, now - startedAt);
          return TimedOut, startedAt;
        }
        code := code + 1;
        NewCodeIsFresh(log, world.initial, startedAt, deadlineAt, code);
      }
    }
  }

  // ---------- What an orderly log amounts to ----------

  /** No poll is made at or after the deadline, and each one only after all the sleep before it. */
  lemma {:induction false} SleepComesFirst(log: seq<Poll>, initial: nat -> int, start: int, deadline: int)
    requires Orderly(log, initial, start, deadline) && log != []
    ensures start + Slept(log[..|log| - 1]) <= log[|log| - 1].at < deadline
  {
    var front := log[..|log| - 1];
    if front != [] {
      SleepComesFirst(front, initial, start, deadline);
    }
  }

  lemma {:induction false} PendingsCostSleep(log: seq<Poll>, initial: nat -> int, start: int, deadline: int)
    requires Orderly(log, initial, start, deadline)
    ensures Pendings(log) <= Slept(log)
  {
    if log != [] {
      PendingsCostSleep(log[..|log| - 1], initial, start, deadline);
    }
  }

  /** All pending answers but the last fit the timeout at one second each. */
  lemma PendingsFitTheTimeout(log: seq<Poll>, initial: nat -> int, start: int, timeoutMs: nat)
    requires Orderly(log, initial, start, start + Ceil(timeoutMs))
    ensures Pendings(log) == 0 || 1000 * (Pendings(log) - 1) < timeoutMs
  {
    CeilIsLeast(timeoutMs, Pendings(log) - 1);
    if log != [] {
      SleepComesFirst(log, initial, start, start + Ceil(timeoutMs));
      PendingsCostSleep(log[..|log| - 1], initial, start, start + Ceil(timeoutMs));
    }
  }

  // The last n polls were all told to slow down, for one code.
  predicate EndsInSlowDowns(log: seq<Poll>, n: nat, code: nat) {
    n <= |log| && forall k :: |log| - n <= k < |log| ==> log[k].code == code && log[k].answer == Pending(true)
  }

  function SlowDownSeconds(first: nat, n: nat): nat {
    n * first + SLOW_DOWN_STEP * (n * (n + 1) / 2)
  }

  lemma HalfOfSum(x: nat, n: nat)
    ensures (x + 2 * n) / 2 == x / 2 + n
  {
  }

  lemma Products(first: nat, n: nat)
    requires 0 < n
    ensures n * first == (n - 1) * first + first && n * (n + 1) == (n - 1) * n + 2 * n
  {
  }

  lemma OneMoreSlowDown(first: nat, n: nat)
    requires 0 < n
    ensures SlowDownSeconds(first, n) == SlowDownSeconds(first, n - 1) + first + SLOW_DOWN_STEP * n
  {
    Products(first, n);
    HalfOfSum((n - 1) * n, n);
  }

  lemma LastSlowDown(log: seq<Poll>, initial: nat -> int, start: int, deadline: int, code: nat)
    requires Orderly(log, initial, start, deadline) && EndsInSlowDowns(log, 1, code)
    ensures var front := log[..|log| - 1];
      && SlowDowns(log, code) == SlowDowns(front, code) + 1
      && Slept(log) == Slept(front) + (if initial(code) < 1 then 1 else initial(code)) + 5 * SlowDowns(front, code) + 5
  {
  }

  /** After m slow_down answers to a code whose interval began at i, n more cost
      n * (i + 5m) + 5n(n + 1)/2 seconds of sleep. */
  lemma {:induction false} SlowDownsCost(log: seq<Poll>, initial: nat -> int, start: int, deadline: int, n: nat,
                                         code: nat)
    requires Orderly(log, initial, start, deadline) && EndsInSlowDowns(log, n, code)
    ensures var before := log[..|log| - n];
      && SlowDowns(log, code) == SlowDowns(before, code) + n
      && var i := (if initial(code) < 1 then 1 else initial(code)) + 5 * SlowDowns(before, code);
      Slept(log) == Slept(before) + n * i + 5 * (n * (n + 1) / 2)
  {
    if n == 0 {
      assert log[..|log|] == log;
    } else {
      var front, before := log[..|log| - 1], log[..|log| - n];
      assert front[..|front| - (n - 1)] == before;
      SlowDownsCost(front, initial, start, deadline, n - 1, code);
      LastSlowDown(log, initial, start, deadline, code);
      OneMoreSlowDown((if initial(code) < 1 then 1 else initial(code)) + 5 * SlowDowns(before, code), n);
    }
  }

  /** A code told to slow down from its first poll on: n answers cost n * i + 5n(n + 1)/2 seconds, and all
      but the last of these sleeps fit the timeout. */
  lemma FreshCodeSlowDowns(log: seq<Poll>, initial: nat -> int, start: int, timeoutMs: nat, n: nat, code: nat)
    requires Orderly(log, initial, start, start + Ceil(timeoutMs)) && EndsInSlowDowns(log, n, code) && 0 < n
    requires SlowDowns(log[..|log| - n], code) == 0
    ensures var i := if initial(code) < 1 then 1 else initial(code);
      && Slept(log) - Slept(log[..|log| - n]) == n * i + 5 * (n * (n + 1) / 2)
      && 1000 * ((n - 1) * i + 5 * ((n - 1) * n / 2)) < timeoutMs
  {
    var front := log[..|log| - 1];
    SlowDownsCost(log, initial, start, start + Ceil(timeoutMs), n, code);
    SlowDownsCost(front, initial, start, start + Ceil(timeoutMs), n - 1, code);
    SleepComesFirst(log, initial, start, start + Ceil(timeoutMs));
    assert front[..|front| - (n - 1)] == log[..|log| - n];
    CeilIsLeast(timeoutMs, Slept(front) - Slept(log[..|log| - n]));
  }
}
