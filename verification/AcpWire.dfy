/** What one prompt puts on the wire, told by the fields of what it received. */
module AcpWire {
  import opened Options
  import opened AcpEvents
  import opened AcpTurn
  import opened AcpWords

  // ---------- Which inputs count ----------

  // An event that names no agent or names the main one.
  predicate OfMain(input: Input) {
    input.Arrives? && (input.event.agent == None || input.event.agent == Some("main"))
  }

  // A turn starts that was not already active when the prompt began.
  predicate NewTurn(run: Run, k: nat)
    requires k < |run.inputs|
  {
    && OfMain(run.inputs[k]) && run.inputs[k].event.TurnStarted?
    && (run.initial == None || run.inputs[k].event.turn != run.initial.value)
  }

  predicate Ends(run: Run, k: nat)
    requires k < |run.inputs|
  {
    || run.inputs[k].KickFails?
    || (OfMain(run.inputs[k]) && run.inputs[k].event.TurnEnded?)
    || (&& OfMain(run.inputs[k]) && run.inputs[k].event.Error? && run.inputs[k].event.code == "turn.agent_busy"
        && forall i :: 0 <= i < k ==> !NewTurn(run, i))
  }

  predicate StillOpen(run: Run, n: nat)
    requires n <= |run.inputs|
  {
    forall k :: 0 <= k < n ==> !Ends(run, k)
  }

  lemma EndsSettles(run: Run, k: nat)
    requires k < |run.inputs|
    ensures Ends(run, k) == Settles(run, k)
  {
    forall i | 0 <= i < k
      ensures NewTurn(run, i) == (run.inputs[i].Arrives? && StartsOwnTurn(run.initial, run.inputs[i].event))
    {
    }
    assert OwnTurnSeen(run, k) <==> exists i :: 0 <= i < k && NewTurn(run, i);
  }

  lemma OpenIsLive(run: Run, n: nat)
    requires n <= |run.inputs|
    ensures StillOpen(run, n) == Live(run, n)
  {
    forall k | 0 <= k < n ensures Ends(run, k) == Settles(run, k) {
      EndsSettles(run, k);
    }
  }

  // An input that can have an effect: the main agent's, while the prompt is open.
  predicate Heard(run: Run, k: nat)
    requires k < |run.inputs|
  {
    StillOpen(run, k) && OfMain(run.inputs[k])
  }

  lemma SettledAfterEnd(run: Run, k: nat)
    requires k <= |run.inputs|
    ensures After(run, k).settled <==> !StillOpen(run, k)
  {
    OpenIsLive(run, k);
    if Live(run, k) {
      LiveState(run, k);
    } else {
      var j := FirstSettling(run, k);
      LiveState(run, j);
      Frozen(run, j + 1, k);
    }
  }

  lemma HeardState(run: Run, k: nat)
    requires k < |run.inputs|
    ensures Heard(run, k) ==>
      Out(run, k) == Dispatched(Noted(After(run, k), run.inputs[k].event), run.inputs[k].event).1
    ensures !Heard(run, k) ==> Out(run, k) == []
  {
    SettledAfterEnd(run, k);
    StepByAgent(After(run, k), run.inputs[k]);
  }

  lemma StepByAgent(s: State, input: Input)
    ensures !s.settled && OfMain(input) ==> Step(s, input) == Dispatched(Noted(s, input.event), input.event)
    ensures s.settled || !OfMain(input) ==> Step(s, input).1 == []
  {
  }

  // ---------- The agent's own words ----------

  // What a voice is given to say by one input that is heard.
  function Delta(run: Run, k: nat, voice: Voice): string
    requires k < |run.inputs|
  {
    if !Heard(run, k) then ""
    else
      match run.inputs[k].event
      case AssistantDelta(_, _, delta) => if voice == Answer then delta else ""
      case ThinkingDelta(_, _, delta) => if voice == Reasoning then delta else ""
      case _ => ""
  }

  function Deltas(run: Run, n: nat, voice: Voice): string
    requires n <= |run.inputs|
  {
    if n == 0 then "" else Deltas(run, n - 1, voice) + Delta(run, n - 1, voice)
  }

  lemma WordsSent(run: Run, k: nat, voice: Voice)
    requires k < |run.inputs|
    ensures Words(Out(run, k), voice) == Delta(run, k, voice)
  {
    HeardState(run, k);
    if Heard(run, k) {
      DispatchedWords(Noted(After(run, k), run.inputs[k].event), run.inputs[k].event, voice);
    }
  }

  lemma RestIsWordless(s: State, event: Event)
    requires !event.AssistantDelta? && !event.ThinkingDelta?
    ensures forall note <- Dispatched(s, event).1 :: note.Create? || note.Update? || note.Plan?
  {
  }

  lemma DispatchedWords(s: State, event: Event, voice: Voice)
    ensures Words(Dispatched(s, event).1, voice) ==
            match event
            case AssistantDelta(_, _, delta) => if voice == Answer then delta else ""
            case ThinkingDelta(_, _, delta) => if voice == Reasoning then delta else ""
            case _ => ""
  {
    if event.AssistantDelta? || event.ThinkingDelta? {
      OneWord(Dispatched(s, event).1[0], voice);
    } else {
      RestIsWordless(s, event);
      WordlessSay(Dispatched(s, event).1, voice);
    }
  }

  lemma WordsGrow(run: Run, k: nat, voice: Voice)
    requires k < |run.inputs|
    ensures Words(AllNotes(run, k + 1), voice) == Words(AllNotes(run, k), voice) + Delta(run, k, voice)
  {
    WordsSent(run, k, voice);
    assert AllNotes(run, k + 1) == AllNotes(run, k) + Out(run, k);
    WordsOfSum(AllNotes(run, k), Out(run, k), voice);
  }

  // The client has heard what the first n inputs say, and nothing else.
  ghost predicate Heeded(run: Run, n: nat, voice: Voice) {
    n <= |run.inputs| && Words(AllNotes(run, n), voice) == Deltas(run, n, voice)
  }

  lemma HeededNext(run: Run, k: nat, voice: Voice)
    requires k < |run.inputs| && Heeded(run, k, voice)
    ensures Heeded(run, k + 1, voice)
  {
    WordsGrow(run, k, voice);
  }

  lemma NothingHeeded(run: Run, voice: Voice)
    ensures Heeded(run, 0, voice)
  {
  }

  /** The answer the client reads is the main agent's answer, whole and in order, and so is the reasoning;
      nothing is said in the user's name. */
  lemma {:induction false} WordsArriveInOrder(run: Run, n: nat, voice: Voice)
    requires n <= |run.inputs|
    ensures Words(AllNotes(run, n), voice) == Deltas(run, n, voice)
  {
    NothingHeeded(run, voice);
    var k: nat := 0;
    while k < n
      invariant k <= n && Heeded(run, k, voice)
    {
      HeededNext(run, k, voice);
      k := k + 1;
    }
  }

  // ---------- Tools ----------

  /** A result ends its call: failed if and only if it is an error, with the output as the whole content. */
  lemma ResultIsSent(run: Run, k: nat)
    requires k < |run.inputs| && Heard(run, k) && run.inputs[k].event.ToolResult?
    ensures |Out(run, k)| == 1 && Out(run, k)[0].Update?
    ensures var event, note := run.inputs[k].event, Out(run, k)[0];
      && note.id == AcpToolCallId(event.turn, event.call)
      && (note.newStatus == Some(Failure) <==> event.isError) && (note.newStatus == Some(Done) <==> !event.isError)
      && note.newContent == Some([event.output]) && note.output == Some(event.output)
      && note.newTitle == None && note.newKind == None && note.newInput == None
  {
    HeardState(run, k);
  }

  /** Progress changes the title and nothing else, and is silent when it says nothing. */
  lemma ProgressIsSent(run: Run, k: nat)
    requires k < |run.inputs| && Heard(run, k) && run.inputs[k].event.ToolProgress?
    ensures var event, notes := run.inputs[k].event, Out(run, k);
      if event.status == None || event.status == Some("") then notes == []
      else
        && |notes| == 1 && notes[0].Update? && notes[0].id == AcpToolCallId(event.turn, event.call)
        && notes[0].newTitle == event.status && notes[0].newKind == None && notes[0].newStatus == None
        && notes[0].newContent == None && notes[0].newInput == None && notes[0].output == None
  {
    HeardState(run, k);
  }

  // The content of a started call: its display entry, if any, and then its arguments.
  predicate Shows(content: seq<string>, event: Event)
    requires event.ToolCallStarted?
  {
    && content != [] && content[|content| - 1] == event.args
    && content[..|content| - 1] == if event.display.Some? && event.display.value.entry.Some?
         then [event.display.value.entry.value] else []
  }

  lemma EntriesShow(event: Event)
    requires event.ToolCallStarted?
    ensures Shows(Entries(event), event)
  {
  }

  /** A start names, describes and fills the card, whether it creates it or finds it there, and then
      sends the plan, if any. */
  lemma StartIsSent(run: Run, k: nat)
    requires k < |run.inputs| && Heard(run, k) && run.inputs[k].event.ToolCallStarted?
    ensures Out(run, k) != [] && (Out(run, k)[0].Create? || Out(run, k)[0].Update?)
    ensures var event, note := run.inputs[k].event, Out(run, k)[0];
      var title := if event.description.Some? then event.description.value else event.title;
      if note.Create? then
        && note.title == title && KindFits(note.kind, event.title) && note.status == InProgress
        && Shows(note.content, event) && note.rawInput == Some(event.args)
      else
        && note.newTitle == Some(title) && note.newKind.Some? && KindFits(note.newKind.value, event.title)
        && note.newStatus == Some(InProgress) && note.newContent.Some? && Shows(note.newContent.value, event)
        && note.newInput == Some(event.args) && note.output == None
    ensures var event := run.inputs[k].event;
      Out(run, k)[1..] ==
      if event.display.Some? && event.display.value.plan.Some? then [Plan(event.display.value.plan.value)] else []
  {
    HeardState(run, k);
    EntriesShow(run.inputs[k].event);
    InferredKindFits(run.inputs[k].event.title);
  }

  /** The first delta of a call makes a pending card with what is known by then; a later one only
      replaces the text. */
  lemma DeltaIsSent(run: Run, k: nat)
    requires k < |run.inputs| && Heard(run, k) && run.inputs[k].event.ToolCallDelta?
    ensures |Out(run, k)| == 1 && (Out(run, k)[0].Create? || Out(run, k)[0].Update?)
    ensures var event, note := run.inputs[k].event, Out(run, k)[0];
      if note.Create? then
        && note.title == (if event.name.Some? then event.name.value else "tool")
        && KindFits(note.kind, if event.name.Some? then event.name.value else "")
        && note.status == Status.Pending && note.rawInput == None
        && note.content == [if event.part.Some? then event.part.value else ""]
      else
        && note.newStatus == Some(InProgress) && note.newContent.Some? && |note.newContent.value| == 1
        && note.newTitle == None && note.newKind == None && note.newInput == None && note.output == None
  {
    HeardState(run, k);
    InferredKindFits(OrEmpty(run.inputs[k].event.name));
  }

  /** Nothing else is sent. */
  lemma RestIsSilent(run: Run, k: nat)
    requires k < |run.inputs|
    requires Heard(run, k) ==> var event := run.inputs[k].event;
      event.TurnStarted? || event.TurnEnded? || event.Error? || event.Other?
    ensures Out(run, k) == []
  {
    HeardState(run, k);
  }

  // ---------- The verdict ----------

  predicate AuthCode(code: Option<string>) {
    code in {Some("auth.login_required"), Some("provider.auth_error")}
  }

  /** How a prompt ends, from the input that ends it. */
  lemma VerdictByFields(run: Run, k: nat, n: nat)
    requires k < n <= |run.inputs| && StillOpen(run, k) && Ends(run, k)
    ensures var input, outcome := run.inputs[k], After(run, n).outcome;
      match input
      case KickFails(code) => outcome == if AuthCode(code) then AuthRequired else InternalError
      case Arrives(Error(_, _, message)) => outcome == InvalidRequest(message)
      case Arrives(TurnEnded(_, _, Cancelled, _)) => outcome == Resolved(CancelledTurn)
      case Arrives(TurnEnded(_, _, Completed, _)) => outcome == Resolved(EndTurn)
      case Arrives(TurnEnded(_, _, Failed, code)) =>
        outcome == if AuthCode(code) then AuthRequired else Resolved(EndTurn)
      case _ => true
  {
    OpenIsLive(run, k);
    EndsSettles(run, k);
    SettlesOnce(run, k, n);
  }

  lemma OpenUntilTheEnd(run: Run, n: nat)
    requires n <= |run.inputs|
    ensures After(run, n).outcome == Open <==> StillOpen(run, n)
  {
    OpenIsLive(run, n);
    OpenExactlyWhileLive(run, n);
  }

  // ---------- The turn the session is in ----------

  // The k-th input is an event of the main agent that names this turn.
  predicate Names(run: Run, k: nat, turn: nat)
    requires k < |run.inputs|
  {
    && OfMain(run.inputs[k]) && !run.inputs[k].event.Error?
    && if run.inputs[k].event.Other? then run.inputs[k].event.turnIfAny == Some(turn) else run.inputs[k].event.turn == turn
  }

  predicate NamesNone(run: Run, k: nat)
    requires k < |run.inputs|
  {
    OfMain(run.inputs[k]) ==>
      run.inputs[k].event.Error? || (run.inputs[k].event.Other? && run.inputs[k].event.turnIfAny == None)
  }

  predicate NoneNamedBetween(run: Run, k: int, n: nat)
    requires n <= |run.inputs| && -1 <= k
  {
    forall j :: k < j < n ==> NamesNone(run, j)
  }

  // The last turn named before n is this one.
  predicate LastNamed(run: Run, n: nat, turn: nat)
    requires n <= |run.inputs|
  {
    exists k :: 0 <= k < n && Names(run, k, turn) && NoneNamedBetween(run, k, n)
  }

  /** While a prompt is open the session is in the turn named last, or in the one it began in. */
  lemma {:induction false} InTheTurnNamedLast(run: Run, n: nat, turn: nat)
    requires n <= |run.inputs| && StillOpen(run, n)
    ensures After(run, n).current == Some(turn) <==>
      LastNamed(run, n, turn) || (run.initial == Some(turn) && NoneNamedBetween(run, -1, n))
  {
    OpenIsLive(run, n);
    LiveState(run, n);
    if 0 < n {
      InTheTurnNamedLast(run, n - 1, turn);
      OpenIsLive(run, n - 1);
      LiveState(run, n - 1);
      if NamesNone(run, n - 1) {
        if LastNamed(run, n - 1, turn) {
          var k :| 0 <= k < n - 1 && Names(run, k, turn) && NoneNamedBetween(run, k, n - 1);
          assert Names(run, k, turn) && NoneNamedBetween(run, k, n);
        }
      } else {
        assert NoneNamedBetween(run, n - 1, n);
      }
    }
  }
}
