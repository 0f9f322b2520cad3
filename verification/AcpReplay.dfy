/** The replay of a stored conversation to a client that loads the session. */
module AcpReplay {
  import opened Options
  import opened AcpEvents
  import opened AcpWords

  datatype Content = Text(text: string) | Think(text: string) | Media

  datatype Call = Call(id: string, name: string, args: string)

  datatype Stored =
    | User(content: seq<Content>)
    | Assistant(content: seq<Content>, calls: seq<Call>)
    | Tool(call: Option<string>, output: string, isError: bool)
    | System

  // ---------- What a message is replayed as ----------

  function UserNote(part: Content): seq<Notification> {
    if part.Text? && part.text != "" then [UserMessage(part.text)] else []
  }

  function AssistantNote(part: Content): seq<Notification> {
    if part.Text? && part.text != "" then [Message(part.text)]
    else if part.Think? && part.text != "" then [Thought(part.text)]
    else []
  }

  // What the first n parts of a user's or an assistant's message are replayed as.
  function ContentNotes(user: bool, content: seq<Content>, n: nat): seq<Notification>
    requires n <= |content|
  {
    if n == 0 then []
    else ContentNotes(user, content, n - 1) + if user then UserNote(content[n - 1]) else AssistantNote(content[n - 1])
  }

  function CardOf(turn: nat, call: Call): Notification {
    ToolCallStart(ToolCallStarted(None, turn, call.id, call.name, None, call.args, None))
  }

  function Cards(turn: nat, calls: seq<Call>, n: nat): (notes: seq<Notification>)
    requires n <= |calls|
    ensures |notes| == n && forall k :: 0 <= k < n ==> notes[k] == CardOf(turn, calls[k])
  {
    if n == 0 then [] else Cards(turn, calls, n - 1) + [CardOf(turn, calls[n - 1])]
  }

  // The assistant messages so far, which number the turns.
  function Turns(history: seq<Stored>, n: nat): nat
    requires n <= |history|
  {
    if n == 0 then 0 else Turns(history, n - 1) + if history[n - 1].Assistant? then 1 else 0
  }

  predicate Among(calls: seq<Call>, n: nat, id: string)
    requires n <= |calls|
  {
    exists k :: 0 <= k < n && calls[k].id == id
  }

  predicate Issues(message: Stored, id: string) {
    message.Assistant? && Among(message.calls, |message.calls|, id)
  }

  // The last message before n that made this call.
  function Issuer(history: seq<Stored>, n: nat, id: string): (i: Option<nat>)
    requires n <= |history|
    ensures i.Some? ==> i.value < n && Issues(history[i.value], id)
    ensures forall k :: 0 <= k < n && (i.Some? ==> i.value < k) ==> !Issues(history[k], id)
  {
    if n == 0 then None else if Issues(history[n - 1], id) then Some(n - 1) else Issuer(history, n - 1, id)
  }

  function ResultNotes(history: seq<Stored>, m: nat): seq<Notification>
    requires m < |history| && history[m].Tool?
  {
    var message := history[m];
    if message.call.None? || message.call.value == "" then []
    else
      var issuer := Issuer(history, m, message.call.value);
      if issuer.None? then []
      else
        [Update(AcpToolCallId(Turns(history, issuer.value + 1), message.call.value), None, None,
                Some(if message.isError then Failure else Done), Some([message.output]), None, None)]
  }

  function Replayed(history: seq<Stored>, m: nat): seq<Notification>
    requires m < |history|
  {
    match history[m]
    case User(content) => ContentNotes(true, content, |content|)
    case Assistant(content, calls) => ContentNotes(false, content, |content|) + Cards(Turns(history, m + 1), calls, |calls|)
    case Tool(_, _, _) => ResultNotes(history, m)
    case System => []
  }

  function AllReplayed(history: seq<Stored>, n: nat): seq<Notification>
    requires n <= |history|
  {
    if n == 0 then [] else AllReplayed(history, n - 1) + Replayed(history, n - 1)
  }

  predicate IsResultOf(message: Stored, id: string) {
    message.Tool? && message.call == Some(id) && id != ""
  }

  predicate LastIssues(history: seq<Stored>, i: nat, m: nat, id: string) {
    i < m <= |history| && Issues(history[i], id) && forall j :: i < j < m ==> !Issues(history[j], id)
  }

  // The card of a call: its name, its kind, and its arguments as the whole content.
  predicate IsCardOf(note: Notification, call: Call) {
    && note.Create? && note.title == call.name && KindFits(note.kind, call.name) && note.status == InProgress
    && note.content == [call.args] && note.rawInput == Some(call.args)
  }

  lemma CardFits(turn: nat, call: Call)
    ensures IsCardOf(CardOf(turn, call), call)
  {
    InferredKindFits(call.name);
  }

  lemma CardIsReplayed(history: seq<Stored>, i: nat, id: string) returns (k: nat, call: Call)
    requires i < |history| && Issues(history[i], id)
    ensures k < |Replayed(history, i)| && Replayed(history, i)[k].Create?
    ensures call in history[i].calls && call.id == id && IsCardOf(Replayed(history, i)[k], call)
    ensures Replayed(history, i)[k].id == AcpToolCallId(Turns(history, i + 1), id)
  {
    var Assistant(content, calls) := history[i];
    var n :| 0 <= n < |calls| && calls[n].id == id;
    k, call := |ContentNotes(false, content, |content|)| + n, calls[n];
    CardFits(Turns(history, i + 1), call);
    assert Replayed(history, i)[k] == Cards(Turns(history, i + 1), calls, |calls|)[n];
  }

  /** A replayed result updates the card of the last message that made its call, which was sent before it:
      to failed if and only if it is an error, with its output as the whole content. */
  lemma ResultsFollowTheirCard(history: seq<Stored>, i: nat, m: nat, id: string) returns (k: nat, call: Call)
    requires m < |history| && IsResultOf(history[m], id) && LastIssues(history, i, m, id)
    ensures k < |Replayed(history, i)| && Replayed(history, i)[k].Create?
    ensures call in history[i].calls && call.id == id && IsCardOf(Replayed(history, i)[k], call)
    ensures |Replayed(history, m)| == 1 && Replayed(history, m)[0].Update?
    ensures var note := Replayed(history, m)[0];
      && note.id == Replayed(history, i)[k].id && note.newContent == Some([history[m].output])
      && (note.newStatus == Some(Failure) <==> history[m].isError)
      && (note.newStatus == Some(Done) <==> !history[m].isError)
      && note.newTitle == None && note.newKind == None && note.newInput == None
  {
    k, call := CardIsReplayed(history, i, id);
    assert Issuer(history, m, id) == Some(i);
  }

  /** A result whose call was never made is not sent. */
  lemma UnknownResultsAreSkipped(history: seq<Stored>, m: nat, id: string)
    requires m < |history| && IsResultOf(history[m], id) && forall i :: 0 <= i < m ==> !Issues(history[i], id)
    ensures Replayed(history, m) == []
  {
    assert Issuer(history, m, id).None?;
  }

  lemma {:induction false} TurnsGrow(history: seq<Stored>, i: nat, j: nat)
    requires i <= j <= |history|
    ensures Turns(history, i) <= Turns(history, j)
  {
    if i < j {
      TurnsGrow(history, i, j - 1);
    }
  }

  /** Two messages share no card, whatever raw ids their calls carry. */
  lemma CardsOfDifferentMessagesDiffer(history: seq<Stored>, i: nat, j: nat, id: string, id': string)
    requires i < j < |history| && history[i].Assistant? && history[j].Assistant?
    ensures AcpToolCallId(Turns(history, i + 1), id) != AcpToolCallId(Turns(history, j + 1), id')
  {
    TurnsGrow(history, i + 1, j);
    if AcpToolCallId(Turns(history, i + 1), id) == AcpToolCallId(Turns(history, j + 1), id') {
      WireIdsAreInjective(Turns(history, i + 1), id, Turns(history, j + 1), id');
    }
  }

  // ---------- The words ----------

  // What a stored message says in a voice: its texts, and its reasoning, in order.
  function TextOf(message: Stored, part: Content, voice: Voice): string {
    match part
    case Text(text) => if voice == (if message.User? then Prompt else Answer) then text else ""
    case Think(text) => if voice == Reasoning && message.Assistant? then text else ""
    case Media => ""
  }

  function TextsOf(message: Stored, n: nat, voice: Voice): string
    requires (message.User? || message.Assistant?) && n <= |message.content|
  {
    if n == 0 then "" else TextsOf(message, n - 1, voice) + TextOf(message, message.content[n - 1], voice)
  }

  function StoredText(message: Stored, voice: Voice): string {
    if message.User? || message.Assistant? then TextsOf(message, |message.content|, voice) else ""
  }

  function StoredWords(history: seq<Stored>, n: nat, voice: Voice): string
    requires n <= |history|
  {
    if n == 0 then "" else StoredWords(history, n - 1, voice) + StoredText(history[n - 1], voice)
  }

  lemma NoteSays(message: Stored, part: Content, voice: Voice)
    ensures message.User? ==> Words(UserNote(part), voice) == TextOf(message, part, voice)
    ensures message.Assistant? ==> Words(AssistantNote(part), voice) == TextOf(message, part, voice)
  {
    if part.Text? {
      OneWord(UserMessage(part.text), voice);
      OneWord(Message(part.text), voice);
    } else if part.Think? {
      OneWord(Thought(part.text), voice);
    }
  }

  // The first n parts of a message are replayed in full.
  ghost predicate Says(message: Stored, n: nat, voice: Voice)
    requires message.User? || message.Assistant?
  {
    && n <= |message.content|
    && Words(ContentNotes(message.User?, message.content, n), voice) == TextsOf(message, n, voice)
  }

  lemma SaysNext(message: Stored, n: nat, voice: Voice)
    requires (message.User? || message.Assistant?) && n < |message.content| && Says(message, n, voice)
    ensures Says(message, n + 1, voice)
  {
    var part := message.content[n];
    NoteSays(message, part, voice);
    WordsOfMore(ContentNotes(message.User?, message.content, n),
                if message.User? then UserNote(part) else AssistantNote(part), voice, TextOf(message, part, voice));
  }

  lemma ContentSays(message: Stored, voice: Voice)
    requires message.User? || message.Assistant?
    ensures Says(message, |message.content|, voice)
  {
    var n: nat := 0;
    while n < |message.content|
      invariant Says(message, n, voice)
    {
      SaysNext(message, n, voice);
      n := n + 1;
    }
  }

  lemma MessageSays(history: seq<Stored>, m: nat, voice: Voice)
    requires m < |history|
    ensures Words(Replayed(history, m), voice) == StoredText(history[m], voice)
  {
    match history[m]
    case User(_) => ContentSays(history[m], voice);
    case Assistant(content, calls) =>
      var cards := Cards(Turns(history, m + 1), calls, |calls|);
      ContentSays(history[m], voice);
      WordlessSay(cards, voice);
      WordsOfSum(ContentNotes(false, content, |content|), cards, voice);
    case Tool(_, _, _) => WordlessSay(Replayed(history, m), voice);
    case System =>
  }

  lemma ReplayGrows(history: seq<Stored>, m: nat, voice: Voice)
    requires m < |history|
    ensures Words(AllReplayed(history, m + 1), voice)
      == Words(AllReplayed(history, m), voice) + StoredText(history[m], voice)
  {
    MessageSays(history, m, voice);
    WordsOfMore(AllReplayed(history, m), Replayed(history, m), voice, StoredText(history[m], voice));
  }

  // The client has read what the first n messages say.
  ghost predicate Kept(history: seq<Stored>, n: nat, voice: Voice) {
    n <= |history| && Words(AllReplayed(history, n), voice) == StoredWords(history, n, voice)
  }

  lemma KeptNone(history: seq<Stored>, voice: Voice)
    ensures Kept(history, 0, voice)
  {
  }

  lemma KeptNext(history: seq<Stored>, m: nat, voice: Voice)
    requires m < |history| && Kept(history, m, voice)
    ensures Kept(history, m + 1, voice)
  {
    ReplayGrows(history, m, voice);
  }

  /** The client reads every stored text, in order, in the voice that said it, and nothing else. */
  lemma {:induction false} ReplayKeepsTheWords(history: seq<Stored>, n: nat, voice: Voice)
    requires n <= |history|
    ensures Words(AllReplayed(history, n), voice) == StoredWords(history, n, voice)
  {
    KeptNone(history, voice);
    var m: nat := 0;
    while m < n
      invariant m <= n && Kept(history, m, voice)
    {
      KeptNext(history, m, voice);
      m := m + 1;
    }
  }

  // ---------- The replay ----------

  ghost predicate BookedAt(turns: map<string, nat>, history: seq<Stored>, n: nat, id: string)
    requires n <= |history|
  {
    && (id in turns <==> Issuer(history, n, id).Some?)
    && (id in turns ==> turns[id] == Turns(history, Issuer(history, n, id).value + 1))
  }

  // Each call made so far is booked under the turn of the last message that made it.
  ghost predicate Booked(turns: map<string, nat>, history: seq<Stored>, n: nat) {
    n <= |history| && forall id :: BookedAt(turns, history, n, id)
  }

  // The map after some of a turn's calls are booked.
  ghost predicate BooksCalls(turns: map<string, nat>, before: map<string, nat>, turn: nat, calls: seq<Call>, n: nat) {
    n <= |calls| && forall id :: BooksCall(turns, before, turn, calls, n, id)
  }

  ghost predicate BooksCall(turns: map<string, nat>, before: map<string, nat>, turn: nat, calls: seq<Call>, n: nat,
                            id: string)
    requires n <= |calls|
  {
    && (id in turns <==> id in before || Among(calls, n, id))
    && (id in turns ==> turns[id] == if Among(calls, n, id) then turn else before[id])
  }

  lemma AmongNext(calls: seq<Call>, n: nat, id: string)
    requires n < |calls|
    ensures Among(calls, n + 1, id) == (Among(calls, n, id) || calls[n].id == id)
  {
    if calls[n].id == id {
      assert Among(calls, n + 1, id);
    }
  }

  lemma BooksOneMore(turns: map<string, nat>, before: map<string, nat>, turn: nat, calls: seq<Call>, n: nat)
    requires n < |calls| && BooksCalls(turns, before, turn, calls, n)
    ensures BooksCalls(turns[calls[n].id := turn], before, turn, calls, n + 1)
  {
    var more, next := turns[calls[n].id := turn], n + 1;
    forall id ensures BooksCall(more, before, turn, calls, next, id) {
      AmongNext(calls, n, id);
      assert BooksCall(turns, before, turn, calls, n, id);
    }
  }

  lemma BookedNext(turns: map<string, nat>, before: map<string, nat>, history: seq<Stored>, m: nat)
    requires m < |history| && Booked(before, history, m)
    requires history[m].Assistant? ==>
      BooksCalls(turns, before, Turns(history, m + 1), history[m].calls, |history[m].calls|)
    requires !history[m].Assistant? ==> turns == before
    ensures Booked(turns, history, m + 1)
  {
    var next := m + 1;
    forall id ensures BookedAt(turns, history, next, id) {
      assert BookedAt(before, history, m, id);
      if history[m].Assistant? {
        assert BooksCall(turns, before, Turns(history, m + 1), history[m].calls, |history[m].calls|, id);
      }
    }
  }

  class Replay {
    var turnId: nat
    var toolCallTurnIds: map<string, nat>

    constructor ()
      ensures turnId == 0 && toolCallTurnIds == map[]
    {
      turnId, toolCallTurnIds := 0, map[];
    }

    method ReplayUser(content: seq<Content>) returns (notes: seq<Notification>)
      ensures notes == ContentNotes(true, content, |content|)
    {
      notes := [];
      for i := 0 to |content|
        invariant notes == ContentNotes(true, content, i)
      {
        notes := notes + UserNote(content[i]);
      }
    }

    method ReplayAssistant(content: seq<Content>) returns (notes: seq<Notification>)
      ensures notes == ContentNotes(false, content, |content|)
    {
      notes := [];
      for i := 0 to |content|
        invariant notes == ContentNotes(false, content, i)
      {
        notes := notes + AssistantNote(content[i]);
      }
    }

    method ReplayCalls(calls: seq<Call>) returns (notes: seq<Notification>)
      modifies `toolCallTurnIds
      ensures notes == Cards(turnId, calls, |calls|)
      ensures BooksCalls(toolCallTurnIds, old(toolCallTurnIds), turnId, calls, |calls|)
    {
      notes := [];
      for i := 0 to |calls|
        invariant notes == Cards(turnId, calls, i)
        invariant BooksCalls(toolCallTurnIds, old(toolCallTurnIds), turnId, calls, i)
      {
        BooksOneMore(toolCallTurnIds, old(toolCallTurnIds), turnId, calls, i);
        toolCallTurnIds := toolCallTurnIds[calls[i].id := turnId];
        notes := notes + [CardOf(turnId, calls[i])];
      }
    }

    method ReplayMessage(history: seq<Stored>, m: nat) returns (notes: seq<Notification>)
      requires m < |history| && turnId == Turns(history, m) && Booked(toolCallTurnIds, history, m)
      modifies this
      ensures turnId == Turns(history, m + 1) && Booked(toolCallTurnIds, history, m + 1)
      ensures notes == Replayed(history, m)
    {
      notes := [];
      match history[m] {
        case User(content) =>
          notes := ReplayUser(content);
        case Assistant(content, calls) =>
          turnId := turnId + 1;
          notes := ReplayAssistant(content);
          var cards := ReplayCalls(calls);
          notes := notes + cards;
        case Tool(call, output, isError) =>
          assert call.Some? ==> BookedAt(toolCallTurnIds, history, m, call.value);
          if call.Some? && call.value != "" && call.value in toolCallTurnIds {
            notes := [Update(AcpToolCallId(toolCallTurnIds[call.value], call.value), None, None,
                             Some(if isError then Failure else Done), Some([output]), None, None)];
          }
        case System =>
      }
      BookedNext(toolCallTurnIds, old(toolCallTurnIds), history, m);
    }

    method ReplayHistory(history: seq<Stored>) returns (notes: seq<Notification>)
      requires turnId == 0 && toolCallTurnIds == map[]
      modifies this
      ensures notes == AllReplayed(history, |history|)
    {
      notes := [];
      for m := 0 to |history|
        invariant turnId == Turns(history, m) && Booked(toolCallTurnIds, history, m)
        invariant notes == AllReplayed(history, m)
      {
        var sent := ReplayMessage(history, m);
        notes := notes + sent;
      }
    }
  }
}
