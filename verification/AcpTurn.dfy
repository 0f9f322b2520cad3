/** One `session/prompt`: the event handler that turns an agent's events into notifications and
    settles the prompt. */
module AcpTurn {
  import opened Options
  import opened AcpEvents

  const TURN_AGENT_BUSY := "turn.agent_busy"
  const AUTH_LOGIN_REQUIRED := "auth.login_required"
  const PROVIDER_AUTH_ERROR := "provider.auth_error"

  // What reaches the prompt: an event of the session, or the rejection of the call that started the turn.
  datatype Input = Arrives(event: Event) | KickFails(code: Option<string>)

  datatype Outcome = Open | Resolved(reason: StopReason) | AuthRequired | InvalidRequest(message: string) | InternalError

  // ---------- One step, on values ----------

  datatype State = State(
    initial: Option<nat>,
    settled: bool,
    args: map<string, string>,
    created: set<string>,
    ownTurn: bool,
    current: Option<nat>,
    outcome: Outcome)

  predicate IsAuthErrorCode(code: Option<string>) {
    code == Some(AUTH_LOGIN_REQUIRED) || code == Some(PROVIDER_AUTH_ERROR)
  }

  function EndOutcome(event: Event): Outcome
    requires event.TurnEnded?
  {
    if event.reason == Failed && IsAuthErrorCode(event.errorCode) then AuthRequired
    else Resolved(StopReasonOf(event.reason))
  }

  function KickOutcome(code: Option<string>): Outcome {
    if IsAuthErrorCode(code) then AuthRequired else InternalError
  }

  predicate StartsOwnTurn(initial: Option<nat>, event: Event) {
    event.TurnStarted? && FromMain(event) && initial != Some(event.turn)
  }

  function Noted(s: State, event: Event): State {
    s.(ownTurn := s.ownTurn || StartsOwnTurn(s.initial, event),
       current := if TurnOf(event).Some? then TurnOf(event) else s.current)
  }

  function Settle(s: State, outcome: Outcome): State {
    s.(settled := true, args := map[], created := {}, current := None, outcome := outcome)
  }

  function Started(s: State, event: Event): (State, seq<Notification>)
    requires event.ToolCallStarted?
  {
    var id := AcpToolCallId(event.turn, event.call);
    (s.(args := s.args[event.call := event.args], created := s.created + {id}),
     [if id in s.created then ToolCallStartedUpgrade(event) else ToolCallStart(event)] + PlanNotes(event))
  }

  function Streamed(s: State, event: Event): (State, seq<Notification>)
    requires event.ToolCallDelta?
  {
    var id := AcpToolCallId(event.turn, event.call);
    if id !in s.created then
      (s.(args := s.args[event.call := OrEmpty(event.part)], created := s.created + {id}), [ToolCallLazyCreate(event)])
    else
      var text := (if event.call in s.args then s.args[event.call] else "") + OrEmpty(event.part);
      (s.(args := s.args[event.call := text]), [ArgumentsUpdate(event, text)])
  }

  function Dispatched(s: State, event: Event): (State, seq<Notification>) {
    match event
    case Error(_, code, message) =>
      (if code == TURN_AGENT_BUSY && !s.ownTurn then Settle(s, InvalidRequest(message)) else s, [])
    case AssistantDelta(_, _, delta) => (s, [Message(delta)])
    case ThinkingDelta(_, _, delta) => (s, [Thought(delta)])
    case ToolCallStarted(_, _, _, _, _, _, _) => Started(s, event)
    case ToolCallDelta(_, _, _, _, _) => Streamed(s, event)
    case ToolProgress(_, _, _, _) => (s, ProgressNotes(event))
    case ToolResult(_, _, _, _, _) => (s, [ToolResultUpdate(event)])
    case TurnEnded(_, _, _, _) => (Settle(s, EndOutcome(event)), [])
    case _ => (s, [])
  }

  function Step(s: State, input: Input): (State, seq<Notification>) {
    if s.settled then (s, [])
    else
      match input
      case KickFails(code) => (s.(settled := true, outcome := KickOutcome(code)), [])
      case Arrives(event) => if FromMain(event) then Dispatched(Noted(s, event), event) else (s, [])
  }

  // ---------- Runs ----------

  // What one prompt received, and the turn the session was in when it began.
  datatype Run = Run(initial: Option<nat>, inputs: seq<Input>)

  function Begin(initial: Option<nat>): State {
    State(initial, false, map[], {}, false, initial, Open)
  }

  function After(run: Run, n: nat): State
    requires n <= |run.inputs|
  {
    if n == 0 then Begin(run.initial) else Step(After(run, n - 1), run.inputs[n - 1]).0
  }

  function Out(run: Run, k: nat): seq<Notification>
    requires k < |run.inputs|
  {
    Step(After(run, k), run.inputs[k]).1
  }

  function AllNotes(run: Run, n: nat): seq<Notification>
    requires n <= |run.inputs|
  {
    if n == 0 then [] else AllNotes(run, n - 1) + Out(run, n - 1)
  }

  // ---------- The handler ----------

  class Turn {
    const initialActiveTurnId: Option<nat>
    var currentTurnId: Option<nat>
    var settled: bool
    var subscribed: bool
    var argsByToolCall: map<string, string>
    var startedToolCalls: set<string>
    var hasReceivedOwnTurnStarted: bool
    var outcome: Outcome

    ghost predicate Valid()
      reads this
    {
      subscribed <==> !settled
    }

    ghost function Value(): State
      reads this
    {
      State(initialActiveTurnId, settled, argsByToolCall, startedToolCalls, hasReceivedOwnTurnStarted,
            currentTurnId, outcome)
    }

    constructor (current: Option<nat>)
      ensures Valid() && Value() == Begin(current)
    {
      initialActiveTurnId := current;
      currentTurnId := current;
      settled := false;
      subscribed := true;
      argsByToolCall := map[];
      startedToolCalls := {};
      hasReceivedOwnTurnStarted := false;
      outcome := Open;
    }

    method Close(how: Outcome)
      modifies this
      ensures Valid() && Value() == Settle(old(Value()), how)
    {
      settled := true;
      argsByToolCall := map[];
      startedToolCalls := {};
      currentTurnId := None;
      subscribed := false;
      outcome := how;
    }

    method OnToolCallStarted(event: Event) returns (notes: seq<Notification>)
      requires Valid() && event.ToolCallStarted?
      modifies this
      ensures Valid() && (Value(), notes) == Started(old(Value()), event)
    {
      argsByToolCall := argsByToolCall[event.call := event.args];
      var id := AcpToolCallId(event.turn, event.call);
      if id in startedToolCalls {
        notes := [ToolCallStartedUpgrade(event)];
      } else {
        startedToolCalls := startedToolCalls + {id};
        notes := [ToolCallStart(event)];
      }
      assert startedToolCalls == old(startedToolCalls) + {id};
      notes := notes + PlanNotes(event);
    }

    method OnToolCallDelta(event: Event) returns (notes: seq<Notification>)
      requires Valid() && event.ToolCallDelta?
      modifies this
      ensures Valid() && (Value(), notes) == Streamed(old(Value()), event)
    {
      var id := AcpToolCallId(event.turn, event.call);
      if id !in startedToolCalls {
        argsByToolCall := argsByToolCall[event.call := OrEmpty(event.part)];
        startedToolCalls := startedToolCalls + {id};
        return [ToolCallLazyCreate(event)];
      }
      if event.call !in argsByToolCall {
        argsByToolCall := argsByToolCall[event.call := ""];
      }
      var text := argsByToolCall[event.call] + OrEmpty(event.part);
      argsByToolCall := argsByToolCall[event.call := text];
      assert argsByToolCall == old(argsByToolCall)[event.call := text];
      notes := [ArgumentsUpdate(event, text)];
    }

    method OnEvent(event: Event) returns (notes: seq<Notification>)
      requires Valid()
      modifies this
      ensures Valid() && (Value(), notes) == Step(old(Value()), Arrives(event))
    {
      notes := [];
      if !subscribed { return; }
      var fromMain := FromMain(event);
      if event.TurnStarted? && fromMain && (initialActiveTurnId == None || Some(event.turn) != initialActiveTurnId) {
        hasReceivedOwnTurnStarted := true;
      }
      if TurnOf(event).Some? && fromMain {
        currentTurnId := TurnOf(event);
      }
      if !fromMain { return; }
      match event
      case Error(_, code, message) =>
        if code != TURN_AGENT_BUSY || hasReceivedOwnTurnStarted { return; }
        Close(InvalidRequest(message));
      case AssistantDelta(_, _, delta) => notes := [Message(delta)];
      case ThinkingDelta(_, _, delta) => notes := [Thought(delta)];
      case ToolCallStarted(_, _, _, _, _, _, _) => notes := OnToolCallStarted(event);
      case ToolCallDelta(_, _, _, _, _) => notes := OnToolCallDelta(event);
      case ToolProgress(_, _, _, _) => notes := ProgressNotes(event);
      case ToolResult(_, _, _, _, _) => notes := [ToolResultUpdate(event)];
      case TurnEnded(_, _, _, _) => Close(EndOutcome(event));
      case _ =>
    }

    method OnKickFailure(code: Option<string>)
      requires Valid()
      modifies this
      ensures Valid() && (Value(), []) == Step(old(Value()), KickFails(code))
    {
      if settled { return; }
      settled := true;
      subscribed := false;
      outcome := KickOutcome(code);
    }

    method Play(inputs: seq<Input>) returns (notes: seq<Notification>)
      requires Valid() && Value() == Begin(initialActiveTurnId)
      modifies this
      ensures Valid() && Value() == After(Run(initialActiveTurnId, inputs), |inputs|)
      ensures notes == AllNotes(Run(initialActiveTurnId, inputs), |inputs|)
    {
      notes := [];
      ghost var run := Run(initialActiveTurnId, inputs);
      for i := 0 to |inputs|
        invariant Valid() && Value() == After(run, i) && notes == AllNotes(run, i)
      {
        var sent := [];
        match inputs[i] {
          case Arrives(event) => sent := OnEvent(event);
          case KickFails(code) => OnKickFailure(code);
        }
        notes := notes + sent;
      }
    }
  }

  // ---------- What a run means ----------

  // The input that settles a prompt still open: the end of any turn of the main agent, the rejection
  // of the call, or a busy error before a turn other than the one already active has started.
  predicate Settles(run: Run, k: nat)
    requires k < |run.inputs|
  {
    match run.inputs[k]
    case KickFails(_) => true
    case Arrives(event) =>
      FromMain(event)
      && (event.TurnEnded? || (event.Error? && event.code == TURN_AGENT_BUSY && !OwnTurnSeen(run, k)))
  }

  predicate OwnTurnSeen(run: Run, n: nat)
    requires n <= |run.inputs|
  {
    exists k :: 0 <= k < n && run.inputs[k].Arrives? && StartsOwnTurn(run.initial, run.inputs[k].event)
  }

  predicate Live(run: Run, n: nat)
    requires n <= |run.inputs|
  {
    forall k :: 0 <= k < n ==> !Settles(run, k)
  }

  function Verdict(run: Run, k: nat): Outcome
    requires k < |run.inputs| && Settles(run, k)
  {
    match run.inputs[k]
    case KickFails(code) => KickOutcome(code)
    case Arrives(event) => if event.Error? then InvalidRequest(event.message) else EndOutcome(event)
  }

  // The turn of the main agent's last event that names one.
  function LatestTurn(run: Run, n: nat): Option<nat>
    requires n <= |run.inputs|
  {
    if n == 0 then run.initial
    else
      var input := run.inputs[n - 1];
      if input.Arrives? && FromMain(input.event) && TurnOf(input.event).Some? then TurnOf(input.event)
      else LatestTurn(run, n - 1)
  }

  lemma {:induction false} LiveState(run: Run, n: nat)
    requires n <= |run.inputs| && Live(run, n)
    ensures var s := After(run, n);
      && s.initial == run.initial && !s.settled && s.outcome == Open
      && s.ownTurn == OwnTurnSeen(run, n) && s.current == LatestTurn(run, n)
  {
    if 0 < n {
      LiveState(run, n - 1);
      assert !Settles(run, n - 1);
      var own := run.inputs[n - 1].Arrives? && StartsOwnTurn(run.initial, run.inputs[n - 1].event);
      assert OwnTurnSeen(run, n) == (OwnTurnSeen(run, n - 1) || own);
    }
  }

  lemma {:induction false} Frozen(run: Run, j: nat, n: nat)
    requires j <= n <= |run.inputs| && After(run, j).settled
    ensures After(run, n) == After(run, j) && AllNotes(run, n) == AllNotes(run, j)
  {
    if j < n {
      Frozen(run, j, n - 1);
    }
  }

  /** A prompt stays open up to the first input that settles it, takes that input's verdict, and keeps it:
      nothing is sent from then on.  The session's turn is forgotten, except when the call was rejected. */
  lemma SettlesOnce(run: Run, k: nat, n: nat)
    requires k < n <= |run.inputs| && Live(run, k) && Settles(run, k)
    ensures forall j :: 0 <= j <= k ==> After(run, j).outcome == Open
    ensures After(run, n).outcome == Verdict(run, k)
    ensures AllNotes(run, n) == AllNotes(run, k)
    ensures After(run, n).current == if run.inputs[k].KickFails? then LatestTurn(run, k) else None
  {
    forall j | 0 <= j <= k ensures After(run, j).outcome == Open {
      LiveState(run, j);
    }
    LiveState(run, k);
    assert Out(run, k) == [];
    Frozen(run, k + 1, n);
  }

  // After a turn has started and the call is rejected, the session is still in that turn; had the turn
  // ended, it would be in none.
  lemma RejectedCallKeepsItsTurn()
    ensures After(Run(None, [Arrives(TurnStarted(None, 3)), KickFails(None)]), 2).current == Some(3)
    ensures After(Run(None, [Arrives(TurnStarted(None, 3)), Arrives(TurnEnded(None, 3, Failed, None))]), 2).current == None
  {
    var rejected := Run(None, [Arrives(TurnStarted(None, 3)), KickFails(None)]);
    var ended := Run(None, [Arrives(TurnStarted(None, 3)), Arrives(TurnEnded(None, 3, Failed, None))]);
    assert After(rejected, 1) == After(ended, 1) == Noted(Begin(None), TurnStarted(None, 3));
  }

  lemma OpenExactlyWhileLive(run: Run, n: nat)
    requires n <= |run.inputs|
    ensures After(run, n).outcome == Open <==> Live(run, n)
  {
    if Live(run, n) {
      LiveState(run, n);
    } else {
      var k := FirstSettling(run, n);
      SettlesOnce(run, k, n);
    }
  }

  lemma {:induction false} FirstSettling(run: Run, n: nat) returns (k: nat)
    requires n <= |run.inputs| && !Live(run, n)
    ensures k < n && Live(run, k) && Settles(run, k)
  {
    if Live(run, n - 1) {
      k := n - 1;
    } else {
      k := FirstSettling(run, n - 1);
    }
  }

  // ---------- Tool cards ----------

  predicate ToolInput(input: Input) {
    input.Arrives? && FromMain(input.event) && (input.event.ToolCallStarted? || input.event.ToolCallDelta?)
  }

  // The k-th input streams or starts this call of this turn, while the prompt is open.
  predicate Touches(run: Run, k: nat, turn: nat, call: string)
    requires k < |run.inputs|
  {
    Live(run, k) && ToolInput(run.inputs[k]) && run.inputs[k].event.turn == turn && run.inputs[k].event.call == call
  }

  predicate Seen(run: Run, n: nat, turn: nat, call: string)
    requires n <= |run.inputs|
  {
    exists k :: 0 <= k < n && Touches(run, k, turn, call)
  }

  predicate FirstTouch(run: Run, k: nat, turn: nat, call: string)
    requires k < |run.inputs|
  {
    Touches(run, k, turn, call) && !Seen(run, k, turn, call)
  }

  function Creates(notes: seq<Notification>, id: string): nat {
    if notes == [] then 0
    else Creates(notes[..|notes| - 1], id) + if notes[|notes| - 1].Create? && notes[|notes| - 1].id == id then 1 else 0
  }

  lemma {:induction false} CreatesConcat(a: seq<Notification>, b: seq<Notification>, id: string)
    ensures Creates(a + b, id) == Creates(a, id) + Creates(b, id)
  {
    if b == [] {
      assert a + b == a;
    } else {
      CreatesConcat(a, b[..|b| - 1], id);
      assert (a + b)[..|a + b| - 1] == a + b[..|b| - 1];
    }
  }

  lemma SeenStep(run: Run, n: nat, turn: nat, call: string)
    requires 0 < n <= |run.inputs|
    ensures Seen(run, n, turn, call) == (Seen(run, n - 1, turn, call) || Touches(run, n - 1, turn, call))
  {
    if Touches(run, n - 1, turn, call) {
      assert Seen(run, n, turn, call);
    } else if Seen(run, n - 1, turn, call) {
      var k :| 0 <= k < n - 1 && Touches(run, k, turn, call);
      assert 0 <= k < n && Touches(run, k, turn, call);
    }
  }

  // How one input changes the set of ids with a card.
  lemma CreatedStep(run: Run, k: nat)
    requires k < |run.inputs| && Live(run, k) && !Settles(run, k)
    ensures After(run, k + 1).created == if ToolInput(run.inputs[k])
      then After(run, k).created + {AcpToolCallId(run.inputs[k].event.turn, run.inputs[k].event.call)}
      else After(run, k).created
  {
    LiveState(run, k);
  }

  lemma {:induction false} CreatedMeansSeen(run: Run, n: nat, turn: nat, call: string)
    requires n <= |run.inputs| && Live(run, n)
    ensures AcpToolCallId(turn, call) in After(run, n).created <==> Seen(run, n, turn, call)
  {
    if 0 < n {
      CreatedMeansSeen(run, n - 1, turn, call);
      SeenStep(run, n, turn, call);
      CreatedStep(run, n - 1);
      var input := run.inputs[n - 1];
      if ToolInput(input) && AcpToolCallId(input.event.turn, input.event.call) == AcpToolCallId(turn, call) {
        WireIdsAreInjective(input.event.turn, input.event.call, turn, call);
      }
    }
  }

  predicate IsCard(note: Notification, id: string) {
    note.Create? && note.id == id
  }

  lemma CreatesAtHead(notes: seq<Notification>, id: string)
    requires |notes| <= 2 && (|notes| == 2 ==> !notes[1].Create?)
    ensures Creates(notes, id) == if notes != [] && IsCard(notes[0], id) then 1 else 0
  {
    if |notes| == 2 {
      assert notes[..1] == [notes[0]];
    }
    if notes != [] {
      assert [notes[0]][..0] == [];
    }
  }

  // What an input sends: at most one card, sent first, on the first sight of a call.
  lemma CardsSent(run: Run, k: nat)
    requires k < |run.inputs|
    ensures var notes := Out(run, k);
      && |notes| <= 2 && (|notes| == 2 ==> notes[1].Plan?)
      && (!Live(run, k) || !ToolInput(run.inputs[k]) ==> (notes != [] ==> !notes[0].Create?))
  {
    OpenExactlyWhileLive(run, k);
    if Live(run, k) {
      LiveState(run, k);
    } else {
      var j := FirstSettling(run, k);
      LiveState(run, j);
      Frozen(run, j + 1, k);
    }
  }

  // What a tool event sends first: the card if there is none yet, and an update of it otherwise.
  lemma HeadNote(run: Run, k: nat)
    requires k < |run.inputs| && Live(run, k) && ToolInput(run.inputs[k])
    ensures var event := run.inputs[k].event; var id := AcpToolCallId(event.turn, event.call);
      && Out(run, k) != [] && (Out(run, k)[0].Create? || Out(run, k)[0].Update?) && Out(run, k)[0].id == id
      && Out(run, k)[0].Create? == !Seen(run, k, event.turn, event.call)
  {
    LiveState(run, k);
    CreatedMeansSeen(run, k, run.inputs[k].event.turn, run.inputs[k].event.call);
  }

  lemma CreatesIn(run: Run, k: nat, turn: nat, call: string)
    requires k < |run.inputs|
    ensures Creates(Out(run, k), AcpToolCallId(turn, call)) == if FirstTouch(run, k, turn, call) then 1 else 0
  {
    var id, input := AcpToolCallId(turn, call), run.inputs[k];
    CardsSent(run, k);
    CreatesAtHead(Out(run, k), id);
    if Live(run, k) && ToolInput(input) {
      HeadNote(run, k);
      if AcpToolCallId(input.event.turn, input.event.call) == id {
        WireIdsAreInjective(input.event.turn, input.event.call, turn, call);
      }
    }
  }

  lemma CardsGrow(run: Run, k: nat, turn: nat, call: string)
    requires k < |run.inputs|
    ensures Creates(AllNotes(run, k + 1), AcpToolCallId(turn, call))
      == Creates(AllNotes(run, k), AcpToolCallId(turn, call)) + if FirstTouch(run, k, turn, call) then 1 else 0
  {
    CreatesIn(run, k, turn, call);
    CreatesConcat(AllNotes(run, k), Out(run, k), AcpToolCallId(turn, call));
    assert AllNotes(run, k + 1) == AllNotes(run, k) + Out(run, k);
  }

  function FirstTouches(run: Run, n: nat, turn: nat, call: string): nat
    requires n <= |run.inputs|
  {
    if n == 0 then 0
    else FirstTouches(run, n - 1, turn, call) + if FirstTouch(run, n - 1, turn, call) then 1 else 0
  }

  lemma {:induction false} FirstTouchIsOnce(run: Run, n: nat, turn: nat, call: string)
    requires n <= |run.inputs|
    ensures FirstTouches(run, n, turn, call) == if Seen(run, n, turn, call) then 1 else 0
  {
    if 0 < n {
      FirstTouchIsOnce(run, n - 1, turn, call);
      SeenStep(run, n, turn, call);
    }
  }

  lemma {:induction false} CardsAreFirstTouches(run: Run, n: nat, turn: nat, call: string)
    requires n <= |run.inputs|
    ensures Creates(AllNotes(run, n), AcpToolCallId(turn, call)) == FirstTouches(run, n, turn, call)
  {
    if n == 0 {
      assert AllNotes(run, 0) == [];
    } else {
      CardsAreFirstTouches(run, n - 1, turn, call);
      CardsGrow(run, n - 1, turn, call);
    }
  }

  /** Each call of each turn gets exactly one card, and gets it when it is first seen. */
  lemma OneCardPerCall(run: Run, n: nat, turn: nat, call: string)
    requires n <= |run.inputs|
    ensures Creates(AllNotes(run, n), AcpToolCallId(turn, call)) == if Seen(run, n, turn, call) then 1 else 0
  {
    CardsAreFirstTouches(run, n, turn, call);
    FirstTouchIsOnce(run, n, turn, call);
  }

  /** What a delta or a start sends about a call is either its card or an update of a card already sent. */
  lemma UpdatesFollowTheirCard(run: Run, k: nat)
    requires k < |run.inputs| && Live(run, k) && ToolInput(run.inputs[k])
    ensures var event := run.inputs[k].event; var id := AcpToolCallId(event.turn, event.call);
      && Out(run, k) != [] && (Out(run, k)[0].Create? || Out(run, k)[0].Update?) && Out(run, k)[0].id == id
      && Creates(AllNotes(run, k), id) == if Out(run, k)[0].Create? then 0 else 1
  {
    HeadNote(run, k);
    OneCardPerCall(run, k, run.inputs[k].event.turn, run.inputs[k].event.call);
  }

  // ---------- The text a card shows ----------

  // The input that sets the text of a raw id afresh: a start, or the first sight of a call.
  predicate Resets(run: Run, k: nat, call: string)
    requires k < |run.inputs|
  {
    && ToolInput(run.inputs[k]) && run.inputs[k].event.call == call
    && (run.inputs[k].event.ToolCallStarted? || FirstTouch(run, k, run.inputs[k].event.turn, call))
  }

  function LastReset(run: Run, n: nat, call: string): (k: Option<nat>)
    requires n <= |run.inputs|
    ensures k.Some? ==> k.value < n && Resets(run, k.value, call)
    ensures forall j :: 0 <= j < n && (k.Some? ==> k.value < j) ==> !Resets(run, j, call)
  {
    if n == 0 then None else if Resets(run, n - 1, call) then Some(n - 1) else LastReset(run, n - 1, call)
  }

  function PartOf(input: Input): string
    requires ToolInput(input)
  {
    if input.event.ToolCallStarted? then input.event.args else OrEmpty(input.event.part)
  }

  // The parts the inputs from..to add to a raw id.
  function Parts(run: Run, from: nat, to: nat, call: string): string
    requires from <= to <= |run.inputs|
  {
    if from == to then ""
    else
      Parts(run, from, to - 1, call)
      + if ToolInput(run.inputs[to - 1]) && run.inputs[to - 1].event.call == call then PartOf(run.inputs[to - 1]) else ""
  }

  // The text of a raw id: what set it last, and everything added since.
  function Text(run: Run, n: nat, call: string): string
    requires n <= |run.inputs| && LastReset(run, n, call).Some?
  {
    Parts(run, LastReset(run, n, call).value, n, call)
  }

  lemma {:induction false} SeenMeansReset(run: Run, n: nat, turn: nat, call: string)
    requires n <= |run.inputs| && Seen(run, n, turn, call)
    ensures LastReset(run, n, call).Some?
  {
    SeenStep(run, n, turn, call);
    if Seen(run, n - 1, turn, call) {
      SeenMeansReset(run, n - 1, turn, call);
    }
  }

  // How one input changes the accumulated text of a raw id.
  lemma ArgsStep(run: Run, k: nat, call: string)
    requires k < |run.inputs| && Live(run, k) && !Settles(run, k)
    ensures var before, after, input := After(run, k).args, After(run, k + 1).args, run.inputs[k];
      && (call in after <==> call in before || (ToolInput(input) && input.event.call == call))
      && (ToolInput(input) && input.event.call == call ==>
            after[call] == if Resets(run, k, call) || call !in before then PartOf(input) else before[call] + PartOf(input))
      && (call in before && !(ToolInput(input) && input.event.call == call) ==> after[call] == before[call])
  {
    LiveState(run, k);
    var input := run.inputs[k];
    if ToolInput(input) && input.event.call == call {
      CreatedMeansSeen(run, k, input.event.turn, call);
      assert input.event.ToolCallDelta? ==> "" + OrEmpty(input.event.part) == OrEmpty(input.event.part);
    }
  }

  lemma {:induction false} ArgsMeanText(run: Run, n: nat, call: string)
    requires n <= |run.inputs| && Live(run, n)
    ensures call in After(run, n).args <==> LastReset(run, n, call).Some?
    ensures call in After(run, n).args ==> After(run, n).args[call] == Text(run, n, call)
  {
    if 0 < n {
      var input := run.inputs[n - 1];
      ArgsMeanText(run, n - 1, call);
      ArgsStep(run, n - 1, call);
      if Resets(run, n - 1, call) {
        assert Parts(run, n - 1, n, call) == PartOf(input);
      } else if ToolInput(input) && input.event.call == call {
        assert Touches(run, n - 1, input.event.turn, call);
        SeenMeansReset(run, n - 1, input.event.turn, call);
      }
    }
  }

  // The argument text of a note about a tool call: the last entry of its content.
  function Shown(note: Notification): Option<string> {
    if note.Create? && note.content != [] then Some(note.content[|note.content| - 1])
    else if note.Update? && note.newContent.Some? && note.newContent.value != [] then
      Some(note.newContent.value[|note.newContent.value| - 1])
    else None
  }

  lemma StartShows(s: State, event: Event)
    requires event.ToolCallStarted?
    ensures var next := Started(s, event);
      next.1 != [] && event.call in next.0.args && Shown(next.1[0]) == Some(next.0.args[event.call])
  {
    assert Entries(event)[|Entries(event)| - 1] == event.args;
  }

  lemma DeltaShows(s: State, event: Event)
    requires event.ToolCallDelta?
    ensures var next := Streamed(s, event);
      next.1 != [] && event.call in next.0.args && Shown(next.1[0]) == Some(next.0.args[event.call])
  {
  }

  lemma NoteShowsArgs(run: Run, k: nat)
    requires k < |run.inputs| && Live(run, k) && ToolInput(run.inputs[k])
    ensures var call := run.inputs[k].event.call;
      && Out(run, k) != [] && call in After(run, k + 1).args
      && Shown(Out(run, k)[0]) == Some(After(run, k + 1).args[call])
  {
    var event := run.inputs[k].event;
    var s := Noted(After(run, k), event);
    LiveState(run, k);
    if event.ToolCallStarted? {
      StartShows(s, event);
    } else {
      DeltaShows(s, event);
    }
  }

  /** Every delta and start shows the whole text of its raw id: the latest start's arguments or first
      part, followed by every part streamed since. */
  lemma ShownText(run: Run, k: nat)
    requires k < |run.inputs| && Live(run, k) && ToolInput(run.inputs[k])
    ensures var call := run.inputs[k].event.call;
      && Out(run, k) != [] && LastReset(run, k + 1, call).Some?
      && Shown(Out(run, k)[0]) == Some(Text(run, k + 1, call))
  {
    NoteShowsArgs(run, k);
    ArgsMeanText(run, k + 1, run.inputs[k].event.call);
  }

  // ---------- One call's own parts ----------

  function OwnParts(run: Run, n: nat, turn: nat, call: string): string
    requires n <= |run.inputs|
  {
    if n == 0 then ""
    else
      OwnParts(run, n - 1, turn, call)
      + if Touches(run, n - 1, turn, call) then PartOf(run.inputs[n - 1]) else ""
  }

  // From input j to input n only this turn streams the raw id, and no start arrives for it.
  predicate OnlyStreamedBy(run: Run, j: nat, n: nat, turn: nat, call: string)
    requires n <= |run.inputs|
  {
    forall i :: j <= i < n && ToolInput(run.inputs[i]) && run.inputs[i].event.call == call ==>
      run.inputs[i].event.ToolCallDelta? && run.inputs[i].event.turn == turn
  }

  lemma {:induction false} NoPartsUnseen(run: Run, n: nat, turn: nat, call: string)
    requires n <= |run.inputs| && !Seen(run, n, turn, call)
    ensures OwnParts(run, n, turn, call) == ""
  {
    if 0 < n {
      SeenStep(run, n, turn, call);
      NoPartsUnseen(run, n - 1, turn, call);
    }
  }

  lemma {:induction false} OwnTextGrows(run: Run, j: nat, n: nat, turn: nat, call: string)
    requires j < n <= |run.inputs| && Live(run, n)
    requires FirstTouch(run, j, turn, call) && OnlyStreamedBy(run, j + 1, n, turn, call)
    ensures LastReset(run, n, call) == Some(j) && Text(run, n, call) == OwnParts(run, n, turn, call)
  {
    if n == j + 1 {
      NoPartsUnseen(run, j, turn, call);
      assert Parts(run, j, j, call) == "";
    } else {
      OwnTextGrows(run, j, n - 1, turn, call);
      assert Live(run, n - 1);
      assert Seen(run, n - 1, turn, call);
    }
  }

  // The k-th input's note shows all the parts of its own call so far.
  predicate ShowsOwnParts(run: Run, k: nat, turn: nat, call: string)
    requires k < |run.inputs|
  {
    Out(run, k) != [] && Shown(Out(run, k)[0]) == Some(OwnParts(run, k + 1, turn, call))
  }

  /** While one turn at a time streams a raw id, each delta before the start shows all the parts of
      its own call so far. */
  lemma DeltasAccumulate(run: Run, j: nat, k: nat, turn: nat, call: string)
    requires j <= k < |run.inputs|
    requires FirstTouch(run, j, turn, call) && OnlyStreamedBy(run, j + 1, k + 1, turn, call)
    requires Touches(run, k, turn, call)
    ensures ShowsOwnParts(run, k, turn, call)
  {
    assert Live(run, k + 1);
    ShownText(run, k);
    OwnTextGrows(run, j, k + 1, turn, call);
  }

  // ---------- Exactly when a call's own parts are shown ----------

  predicate About(input: Input, call: string) {
    ToolInput(input) && input.event.call == call
  }

  // The parts of this turn can be told from those of the others: only the others' contain the mark.
  predicate Telling(run: Run, j: nat, n: nat, turn: nat, call: string, mark: char)
    requires n <= |run.inputs|
  {
    forall i :: j <= i < n && About(run.inputs[i], call) ==>
      if run.inputs[i].event.turn == turn then PartOf(run.inputs[i]) != "" && mark !in PartOf(run.inputs[i])
      else mark in PartOf(run.inputs[i])
  }

  lemma {:induction false} PartsContain(run: Run, from: nat, to: nat, call: string, i: nat, mark: char)
    requires from <= i < to <= |run.inputs| && About(run.inputs[i], call) && mark in PartOf(run.inputs[i])
    ensures mark in Parts(run, from, to, call)
  {
    if i < to - 1 {
      PartsContain(run, from, to - 1, call, i, mark);
    }
  }

  lemma {:induction false} OwnPartsLack(run: Run, j: nat, n: nat, turn: nat, call: string, mark: char)
    requires j <= n <= |run.inputs| && !Seen(run, j, turn, call) && Telling(run, j, n, turn, call, mark)
    ensures mark !in OwnParts(run, n, turn, call)
  {
    if n == j {
      NoPartsUnseen(run, j, turn, call);
    } else {
      OwnPartsLack(run, j, n - 1, turn, call, mark);
    }
  }

  lemma {:induction false} OwnPartsLengthen(run: Run, r: nat, n: nat, turn: nat, call: string)
    requires r <= n <= |run.inputs|
    ensures |OwnParts(run, r, turn, call)| <= |OwnParts(run, n, turn, call)|
  {
    if r < n {
      OwnPartsLengthen(run, r, n - 1, turn, call);
    }
  }

  // Where this turn alone is at work, the parts of the raw id are its own.
  lemma {:induction false} PartsAreOwn(run: Run, r: nat, n: nat, turn: nat, call: string)
    requires r <= n <= |run.inputs| && Live(run, n)
    requires forall i :: r <= i < n && About(run.inputs[i], call) ==> run.inputs[i].event.turn == turn
    ensures |OwnParts(run, n, turn, call)| == |OwnParts(run, r, turn, call)| + |Parts(run, r, n, call)|
  {
    if r < n {
      PartsAreOwn(run, r, n - 1, turn, call);
      assert Live(run, n - 1);
    }
  }

  predicate OwnOnly(run: Run, r: nat, n: nat, turn: nat, call: string)
    requires n <= |run.inputs|
  {
    forall i :: r <= i < n && About(run.inputs[i], call) ==> run.inputs[i].event.turn == turn
  }

  // If the raw id is this turn's alone since its last reset and was not all along, that reset came later.
  lemma LaterReset(run: Run, j: nat, r: nat, n: nat, turn: nat, call: string)
    requires j < n <= |run.inputs| && FirstTouch(run, j, turn, call) && !OnlyStreamedBy(run, j + 1, n, turn, call)
    requires LastReset(run, n, call) == Some(r) && OwnOnly(run, r, n, turn, call)
    ensures j < r
  {
    assert Resets(run, j, call);
    forall i | j < i < n && About(run.inputs[i], call) && run.inputs[i].event.ToolCallStarted? ensures i <= r {
      assert Resets(run, i, call);
    }
  }

  lemma TextShorter(run: Run, j: nat, n: nat, turn: nat, call: string, mark: char)
    requires j < n <= |run.inputs| && Live(run, n) && FirstTouch(run, j, turn, call)
    requires Telling(run, j, n, turn, call, mark) && !OnlyStreamedBy(run, j + 1, n, turn, call)
    requires LastReset(run, n, call).Some? && OwnOnly(run, LastReset(run, n, call).value, n, turn, call)
    ensures |Text(run, n, call)| < |OwnParts(run, n, turn, call)|
  {
    var r := LastReset(run, n, call).value;
    LaterReset(run, j, r, n, turn, call);
    PartsAreOwn(run, r, n, turn, call);
    OwnPartsLengthen(run, j + 1, r, turn, call);
    assert |OwnParts(run, j + 1, turn, call)| > 0;
  }

  lemma TextMarked(run: Run, j: nat, n: nat, turn: nat, call: string, mark: char)
    requires j < n <= |run.inputs| && FirstTouch(run, j, turn, call) && Telling(run, j, n, turn, call, mark)
    requires LastReset(run, n, call).Some? && !OwnOnly(run, LastReset(run, n, call).value, n, turn, call)
    ensures mark in Text(run, n, call)
  {
    var r := LastReset(run, n, call).value;
    assert Resets(run, j, call);
    var i :| r <= i < n && About(run.inputs[i], call) && run.inputs[i].event.turn != turn;
    PartsContain(run, r, n, call, i, mark);
  }

  lemma TextDiffers(run: Run, j: nat, n: nat, turn: nat, call: string, mark: char)
    requires j < n <= |run.inputs| && Live(run, n) && FirstTouch(run, j, turn, call)
    requires Telling(run, j, n, turn, call, mark) && !OnlyStreamedBy(run, j + 1, n, turn, call)
    requires LastReset(run, n, call).Some?
    ensures Text(run, n, call) != OwnParts(run, n, turn, call)
  {
    if OwnOnly(run, LastReset(run, n, call).value, n, turn, call) {
      TextShorter(run, j, n, turn, call, mark);
    } else {
      TextMarked(run, j, n, turn, call, mark);
      OwnPartsLack(run, j, n, turn, call, mark);
    }
  }

  lemma ShowsMore(run: Run, j: nat, k: nat, turn: nat, call: string, mark: char)
    requires j <= k < |run.inputs| && FirstTouch(run, j, turn, call) && Touches(run, k, turn, call)
    requires Telling(run, j, k + 1, turn, call, mark) && !OnlyStreamedBy(run, j + 1, k + 1, turn, call)
    ensures !ShowsOwnParts(run, k, turn, call)
  {
    assert Live(run, k + 1);
    ShownText(run, k);
    TextDiffers(run, j, k + 1, turn, call, mark);
  }

  /** Where the parts can be told apart, a note shows the parts of its own call if and only if since that
      call's first sight no other turn used the raw id and no start came for it. */
  lemma ShowsOwnPartsExactly(run: Run, j: nat, k: nat, turn: nat, call: string, mark: char)
    requires j <= k < |run.inputs| && FirstTouch(run, j, turn, call) && Touches(run, k, turn, call)
    requires Telling(run, j, k + 1, turn, call, mark)
    ensures ShowsOwnParts(run, k, turn, call) <==> OnlyStreamedBy(run, j + 1, k + 1, turn, call)
  {
    if OnlyStreamedBy(run, j + 1, k + 1, turn, call) {
      DeltasAccumulate(run, j, k, turn, call);
    } else {
      ShowsMore(run, j, k, turn, call, mark);
    }
  }

  // Runs that differ at most in the text of their parts and arguments.
  predicate SameInput(a: Input, b: Input) {
    if ToolInput(a) then
      && ToolInput(b) && a.event.turn == b.event.turn && a.event.call == b.event.call
      && (a.event.ToolCallDelta? <==> b.event.ToolCallDelta?)
    else a == b
  }

  predicate SameShape(a: Run, b: Run) {
    && a.initial == b.initial && |a.inputs| == |b.inputs|
    && forall k :: 0 <= k < |a.inputs| ==> SameInput(a.inputs[k], b.inputs[k])
  }

  lemma SameSettling(a: Run, b: Run, k: nat)
    requires SameShape(a, b) && k < |a.inputs|
    ensures Settles(a, k) == Settles(b, k)
  {
    assert forall i :: 0 <= i <= k ==> SameInput(a.inputs[i], b.inputs[i]);
  }

  lemma SameLife(a: Run, b: Run, n: nat)
    requires SameShape(a, b) && n <= |a.inputs|
    ensures Live(a, n) == Live(b, n)
  {
    forall k | 0 <= k < n ensures Settles(a, k) == Settles(b, k) {
      SameSettling(a, b, k);
    }
  }

  lemma SameTouches(a: Run, b: Run, k: nat, turn: nat, call: string)
    requires SameShape(a, b) && k < |a.inputs|
    ensures Touches(a, k, turn, call) == Touches(b, k, turn, call)
    ensures FirstTouch(a, k, turn, call) == FirstTouch(b, k, turn, call)
  {
    forall i | 0 <= i <= k ensures Touches(a, i, turn, call) == Touches(b, i, turn, call) {
      SameLife(a, b, i);
      assert SameInput(a.inputs[i], b.inputs[i]);
    }
  }

  lemma SameStreaming(a: Run, b: Run, j: nat, n: nat, turn: nat, call: string)
    requires SameShape(a, b) && n <= |a.inputs|
    ensures OnlyStreamedBy(a, j, n, turn, call) == OnlyStreamedBy(b, j, n, turn, call)
  {
    assert forall i :: 0 <= i < n ==> SameInput(a.inputs[i], b.inputs[i]);
  }

  // The run with `o` for every text of this turn and `m` for every other.
  function MarkedInput(input: Input, turn: nat): Input {
    var text := if ToolInput(input) && input.event.turn == turn then "o" else "m";
    if !ToolInput(input) then input
    else if input.event.ToolCallDelta? then Arrives(input.event.(part := Some(text)))
    else Arrives(input.event.(args := text))
  }

  function MarkedRun(run: Run, turn: nat): (marked: Run)
    ensures SameShape(run, marked)
    ensures forall k :: 0 <= k < |run.inputs| && ToolInput(run.inputs[k]) ==>
      PartOf(marked.inputs[k]) == if run.inputs[k].event.turn == turn then "o" else "m"
  {
    Run(run.initial, seq(|run.inputs|, k requires 0 <= k < |run.inputs| => MarkedInput(run.inputs[k], turn)))
  }

  /** Whatever the texts are, a note shows the parts of its own call, if and only if since that call's
      first sight no other turn used the raw id and no start came for it. */
  lemma OwnPartsWhateverTheTexts(run: Run, j: nat, k: nat, turn: nat, call: string)
    requires j <= k < |run.inputs| && FirstTouch(run, j, turn, call) && Touches(run, k, turn, call)
    ensures OnlyStreamedBy(run, j + 1, k + 1, turn, call)
      <==> forall other :: SameShape(run, other) ==> ShowsOwnParts(other, k, turn, call)
  {
    if OnlyStreamedBy(run, j + 1, k + 1, turn, call) {
      forall other | SameShape(run, other) ensures ShowsOwnParts(other, k, turn, call) {
        SameTouches(run, other, j, turn, call);
        SameTouches(run, other, k, turn, call);
        SameStreaming(run, other, j + 1, k + 1, turn, call);
        DeltasAccumulate(other, j, k, turn, call);
      }
    } else {
      var marked := MarkedRun(run, turn);
      SameTouches(run, marked, j, turn, call);
      SameTouches(run, marked, k, turn, call);
      SameStreaming(run, marked, j + 1, k + 1, turn, call);
      ShowsOwnPartsExactly(marked, j, k, turn, call, 'm');
    }
  }

  function Streams(turn: nat, call: string, part: string): Input {
    Arrives(ToolCallDelta(None, turn, call, None, Some(part)))
  }

  function SharedRun(): Run {
    Run(None, [Streams(1, "c", "a"), Streams(2, "c", "b"), Streams(1, "c", "x")])
  }

  lemma SharedText()
    ensures Live(SharedRun(), 3) && OwnParts(SharedRun(), 3, 1, "c") == "ax"
  {
    var run := SharedRun();
    assert Touches(run, 0, 1, "c") && !Touches(run, 1, 1, "c") && Touches(run, 2, 1, "c");
    assert OwnParts(run, 1, 1, "c") == "a" && OwnParts(run, 2, 1, "c") == "a";
  }

  // Two turns streaming one raw id at once mix their texts: the accumulator is kept by raw id alone.
  lemma TurnsSharingARawId()
    ensures Live(SharedRun(), 3) && OwnParts(SharedRun(), 3, 1, "c") == "ax"
    ensures Out(SharedRun(), 2) == [ArgumentsUpdate(SharedRun().inputs[2].event, "bx")]
    ensures !OnlyStreamedBy(SharedRun(), 1, 3, 1, "c") && !ShowsOwnParts(SharedRun(), 2, 1, "c")
  {
    var run := SharedRun();
    SharedText();
    assert About(run.inputs[1], "c") && run.inputs[1].event.turn == 2;
    assert run.inputs[0] == Streams(1, "c", "a") && run.inputs[1] == Streams(2, "c", "b");
    var s1, s2 := After(run, 1), After(run, 2);
    assert s1.args == map["c" := "a"] && s1.created == {AcpToolCallId(1, "c")};
    if AcpToolCallId(2, "c") in s1.created {
      WireIdsAreInjective(2, "c", 1, "c");
    }
    assert s2.args["c"] == "b" && AcpToolCallId(1, "c") in s2.created && "b" + "x" == "bx";
  }

  // ---------- Events of other agents ----------

  predicate Foreign(input: Input) {
    input.Arrives? && !FromMain(input.event)
  }

  function WithoutForeign(inputs: seq<Input>): seq<Input> {
    if inputs == [] then []
    else
      WithoutForeign(inputs[..|inputs| - 1])
      + if Foreign(inputs[|inputs| - 1]) then [] else [inputs[|inputs| - 1]]
  }

  lemma {:induction false} OnPrefix(run: Run, longer: Run, n: nat)
    requires run.initial == longer.initial && n <= |run.inputs| && n <= |longer.inputs|
    requires forall k :: 0 <= k < n ==> run.inputs[k] == longer.inputs[k]
    ensures After(run, n) == After(longer, n) && AllNotes(run, n) == AllNotes(longer, n)
  {
    if 0 < n {
      OnPrefix(run, longer, n - 1);
    }
  }

  // The state a prompt ends in and all it sent.
  function Result(initial: Option<nat>, inputs: seq<Input>): (State, seq<Notification>) {
    (After(Run(initial, inputs), |inputs|), AllNotes(Run(initial, inputs), |inputs|))
  }

  function Extended(result: (State, seq<Notification>), input: Input): (State, seq<Notification>) {
    (Step(result.0, input).0, result.1 + Step(result.0, input).1)
  }

  lemma OneMore(initial: Option<nat>, inputs: seq<Input>, input: Input)
    ensures Result(initial, inputs + [input]) == Extended(Result(initial, inputs), input)
  {
    var n, run, more := |inputs|, Run(initial, inputs), Run(initial, inputs + [input]);
    OnPrefix(run, more, n);
    assert After(more, n + 1) == Step(After(more, n), input).0;
    assert AllNotes(more, n + 1) == AllNotes(more, n) + Out(more, n);
  }

  lemma ForeignStep(result: (State, seq<Notification>), input: Input)
    requires Foreign(input)
    ensures Extended(result, input) == result
  {
    assert result.1 + [] == result.1;
  }

  lemma WithoutForeignStep(inputs: seq<Input>, input: Input)
    ensures WithoutForeign(inputs + [input]) == WithoutForeign(inputs) + if Foreign(input) then [] else [input]
  {
    assert (inputs + [input])[..|inputs|] == inputs;
  }

  /** Deleting the events of every other agent changes neither the notifications, nor the outcome, nor
      the session's current turn. */
  lemma {:induction false} ForeignEventsAreInvisible(initial: Option<nat>, inputs: seq<Input>)
    ensures Result(initial, WithoutForeign(inputs)) == Result(initial, inputs)
  {
    if inputs != [] {
      var front, last := inputs[..|inputs| - 1], inputs[|inputs| - 1];
      assert inputs == front + [last];
      ForeignEventsAreInvisible(initial, front);
      OneMore(initial, front, last);
      WithoutForeignStep(front, last);
      if Foreign(last) {
        ForeignStep(Result(initial, front), last);
        assert WithoutForeign(front) + [] == WithoutForeign(front);
      } else {
        OneMore(initial, WithoutForeign(front), last);
      }
    }
  }
}
