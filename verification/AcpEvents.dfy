/** The events an agent session emits, the notifications the ACP client receives, and the mapping
    between the two. */
module AcpEvents {
  import opened Options

  datatype TurnEndReason = Completed | Cancelled | Failed

  // What a tool's display block renders to: an entry of a tool card, a plan.
  datatype Display = Display(entry: Option<string>, plan: Option<string>)

  datatype Event =
    | TurnStarted(agent: Option<string>, turn: nat)
    | TurnEnded(agent: Option<string>, turn: nat, reason: TurnEndReason, errorCode: Option<string>)
    | Error(agent: Option<string>, code: string, message: string)
    | AssistantDelta(agent: Option<string>, turn: nat, delta: string)
    | ThinkingDelta(agent: Option<string>, turn: nat, delta: string)
    | ToolCallStarted(agent: Option<string>, turn: nat, call: string, title: string, description: Option<string>,
                      args: string, display: Option<Display>)
    | ToolCallDelta(agent: Option<string>, turn: nat, call: string, name: Option<string>, part: Option<string>)
    | ToolProgress(agent: Option<string>, turn: nat, call: string, status: Option<string>)
    | ToolResult(agent: Option<string>, turn: nat, call: string, output: string, isError: bool)
    | Other(agent: Option<string>, turnIfAny: Option<nat>)

  datatype StopReason = EndTurn | CancelledTurn

  datatype ToolKind = Read | Edit | Execute | Fetch | Think | OtherTool

  datatype Status = Pending | InProgress | Done | Failure

  datatype Notification =
    | Message(text: string)
    | Thought(text: string)
    | UserMessage(text: string)
    | Create(id: string, title: string, kind: ToolKind, status: Status, content: seq<string>, rawInput: Option<string>)
    | Update(id: string, newTitle: Option<string>, newKind: Option<ToolKind>, newStatus: Option<Status>,
             newContent: Option<seq<string>>, newInput: Option<string>, output: Option<string>)
    | Plan(entries: string)

  const MAIN_AGENT_ID := "main"

  predicate FromMain(event: Event) {
    event.agent == None || event.agent == Some(MAIN_AGENT_ID)
  }

  function TurnOf(event: Event): Option<nat> {
    if event.Error? then None else if event.Other? then event.turnIfAny else Some(event.turn)
  }

  function OrEmpty(part: Option<string>): string {
    if part.Some? then part.value else ""
  }

  function StopReasonOf(reason: TurnEndReason): StopReason {
    if reason == Cancelled then CancelledTurn else EndTurn
  }

  function InferToolKind(name: string): ToolKind {
    if name in ["Read", "Glob", "Grep"] then Read
    else if name in ["Write", "Edit"] then Edit
    else if name in ["Bash", "Terminal"] then Execute
    else if name == "WebFetch" || name == "WebSearch" then Fetch
    else if name == "Think" then ToolKind.Think
    else OtherTool
  }

  // ---------- Wire ids ----------

  function Digit(d: nat): char
    requires d < 10
  {
    "0123456789"[d]
  }

  function Decimal(n: nat): (s: string)
    ensures s != "" && ':' !in s
  {
    if n < 10 then [Digit(n)] else Decimal(n / 10) + [Digit(n % 10)]
  }

  function AcpToolCallId(turn: nat, call: string): string {
    Decimal(turn) + ":" + call
  }

  lemma {:induction false} DecimalIsInjective(m: nat, n: nat)
    requires Decimal(m) == Decimal(n)
    ensures m == n
    decreases m
  {
    var s, t := Decimal(m), Decimal(n);
    assert s[|s| - 1] == Digit(m % 10) && t[|t| - 1] == Digit(n % 10);
    if 10 <= m && 10 <= n {
      assert s[..|s| - 1] == Decimal(m / 10) && t[..|t| - 1] == Decimal(n / 10);
      DecimalIsInjective(m / 10, n / 10);
    }
  }

  /** Two tool calls share a wire id only if they are the same call of the same turn. */
  lemma WireIdsAreInjective(turn: nat, call: string, turn': nat, call': string)
    requires AcpToolCallId(turn, call) == AcpToolCallId(turn', call')
    ensures turn == turn' && call == call'
  {
    var s, d, d' := AcpToolCallId(turn, call), Decimal(turn), Decimal(turn');
    assert s[|d|] == ':' && s[|d'|] == ':' && s[..|d|] == d && s[..|d'|] == d';
    assert forall k :: 0 <= k < |d| ==> s[k] == d[k] != ':';
    assert forall k :: 0 <= k < |d'| ==> s[k] == d'[k] != ':';
    assert |d| == |d'|;
    DecimalIsInjective(turn, turn');
    assert s[|d| + 1..] == call && s[|d'| + 1..] == call';
  }

  // ---------- Notifications ----------

  function Entries(event: Event): seq<string>
    requires event.ToolCallStarted?
  {
    (if event.display.Some? && event.display.value.entry.Some? then [event.display.value.entry.value] else [])
    + [event.args]
  }

  function Title(event: Event): string
    requires event.ToolCallStarted?
  {
    if event.description.Some? then event.description.value else event.title
  }

  function ToolCallStart(event: Event): Notification
    requires event.ToolCallStarted?
  {
    Create(AcpToolCallId(event.turn, event.call), Title(event), InferToolKind(event.title), InProgress,
           Entries(event), Some(event.args))
  }

  function ToolCallStartedUpgrade(event: Event): Notification
    requires event.ToolCallStarted?
  {
    Update(AcpToolCallId(event.turn, event.call), Some(Title(event)), Some(InferToolKind(event.title)),
           Some(InProgress), Some(Entries(event)), Some(event.args), None)
  }

  function PlanNotes(event: Event): seq<Notification>
    requires event.ToolCallStarted?
  {
    if event.display.Some? && event.display.value.plan.Some? then [Plan(event.display.value.plan.value)] else []
  }

  function ToolCallLazyCreate(event: Event): Notification
    requires event.ToolCallDelta?
  {
    Create(AcpToolCallId(event.turn, event.call), if event.name.Some? then event.name.value else "tool",
           InferToolKind(OrEmpty(event.name)), Status.Pending, [OrEmpty(event.part)], None)
  }

  // The update of a later delta shows the whole text accumulated so far.
  function ArgumentsUpdate(event: Event, text: string): Notification
    requires event.ToolCallDelta?
  {
    Update(AcpToolCallId(event.turn, event.call), None, None, Some(InProgress), Some([text]), None, None)
  }

  function ProgressNotes(event: Event): seq<Notification>
    requires event.ToolProgress?
  {
    if event.status == None || event.status == Some("") then []
    else [Update(AcpToolCallId(event.turn, event.call), event.status, None, None, None, None, None)]
  }

  function ToolResultUpdate(event: Event): Notification
    requires event.ToolResult?
  {
    Update(AcpToolCallId(event.turn, event.call), None, None, Some(if event.isError then Failure else Done),
           Some([event.output]), None, Some(event.output))
  }
}
