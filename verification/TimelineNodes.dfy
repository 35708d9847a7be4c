/**
 The rows of a conversation transcript and the events that make them.
 */
module TimelineNodes {
  import opened DecimalText
  import opened Options
  import opened TurnLedger

  // ---- rows ----

  datatype Attachment = Attachment(name: string, isImage: bool)

  datatype UserBody = UserBody(
    markdown: string,
    attachments: seq<Attachment>,
    images: seq<string>,
    rpcId: Option<string>,
    source: Option<string>)

  datatype Timing = Timing(stepStart: Option<int>, firstToken: Option<int>, completed: Option<int>)

  // The process-local stream a row is fed by; a durable settlement clears it.
  datatype Live = Live(attempt: Option<string>, lastIndex: Option<int>, startedAfter: Option<int>)

  const NOT_LIVE := Live(None, None, None)

  datatype Prose = Prose(markdown: string, streaming: bool)

  datatype Message = Message(
    markdown: string,
    streaming: bool,
    sequence: Option<int>,
    turn: Option<int>,
    step: Option<int>,
    turnCompleted: bool,
    turnUsage: Option<Normalized>,
    modelLabel: Option<string>,
    usage: Option<TokenUsage>,
    images: Option<seq<string>>,
    timing: Option<Timing>,
    interrupted: bool,
    live: Live,
    reasoning: Option<Prose>)

  datatype ToolStatus = Queued | Running | Completed | Failed | Cancelled

  datatype Preparation = Preparation(attemptId: string, updateIndex: int)

  datatype ToolCall = ToolCall(
    name: string,
    category: string,
    title: string,
    status: ToolStatus,
    turn: Option<int>,
    step: Option<int>,
    parentCallId: Option<string>,
    inputSummary: Option<string>,
    outputSummary: Option<string>,
    metadata: map<string, string>,
    preparation: Option<Preparation>)

  datatype Compaction = Compaction(
    phase: string, summary: Option<string>, replacedCount: Option<int>, estimatedTokens: Option<int>)

  datatype RetryState = RetryWaiting | RetryBegun | RetryCancelled

  datatype Retry = Retry(
    sequence: Option<int>, turn: int, step: int, attempt: int, state: RetryState,
    delayMs: Option<int>, maxRetries: Option<int>, message: Option<string>)

  datatype EndReason =
    | TurnCompleted | TurnAborted | TurnBlocked | TurnError | TurnMaxTokens | TurnInterrupted | TurnUnknown

  datatype Terminal = Terminal(turn: int, sequence: int, reason: EndReason, failure: Option<string>)

  datatype Level = Info | Warning | Error

  // Rows the reducer only ever replaces whole; `sequence` and `turn` are those of a deliverables row.
  datatype Card = Card(kind: string, sequence: Option<int>, turn: Option<int>, content: string)

  datatype Body =
    | User(user: UserBody)
    | Assistant(message: Message)
    | Reasoning(prose: Prose, live: Live)
    | Tool(tool: ToolCall, toolSequence: Option<int>)
    | Compacting(compaction: Compaction)
    | Retrying(retry: Retry)
    | Ended(terminal: Terminal)
    | Notice(level: Level, text: string)
    | RawEvent(eventSequence: Option<int>, name: string, payload: string)
    | Other(card: Card)

  datatype Node = Node(id: string, body: Body)

  // ---- events ----

  datatype Channel = Text | Thinking

  datatype Transient = Transient(
    attemptId: Option<string>, index: Option<int>, sequence: Option<int>, startedAfter: Option<int>)

  datatype Delta = Delta(
    channel: Channel, messageId: string, delta: string, turn: Option<int>, step: Option<int>, time: Option<int>,
    transient: Transient)

  datatype Completion = Completion(
    messageId: string, turn: Option<int>, step: Option<int>, time: Option<int>,
    markdown: Option<string>, reasoning: Option<string>, modelLabel: Option<string>,
    usage: Option<TokenUsage>, images: Option<seq<string>>, interrupted: bool)

  datatype Preparing = Preparing(turn: int, step: int, callId: string, toolName: string, attemptId: string,
                                 updateIndex: int)

  datatype RetrySignal = RetrySignal(
    turn: int, step: int, id: string, attempt: int, begun: bool,
    delayMs: Option<int>, maxRetries: Option<int>, message: Option<string>)

  datatype CommandPhase = NoPhase | CommandRun | CommandDone

  datatype CommandMode = PlanMode | PermissionMode

  datatype NoticeEvent = NoticeEvent(
    level: Level, text: string, mode: Option<CommandMode>, commandId: Option<string>,
    phase: CommandPhase, commandInput: Option<string>)

  datatype Event =
    | TurnStarted(turn: int)
    | TurnEnded(turn: int, reason: EndReason, failure: Option<string>)
    | UserMessage(messageId: string, user: UserBody)
    | StepStarted(turn: int, step: int, time: Option<int>)
    | MessageDelta(delta: Delta)
    | MessageCompleted(completion: Completion)
    | AssistantAttempt(turn: int, step: int, usage: Option<TokenUsage>)
    | StepEnded(turn: int, step: int)
    | ToolPreparing(preparing: Preparing)
    | ToolUpdated(callId: string, tool: ToolCall)
    | CardUpdated(id: string, card: Card)
    | CompactionUpdated(compactionId: string, compaction: Compaction)
    | ModelRetry(retry: RetrySignal)
    | ConnectionLost(cause: string)
    | Noticed(notice: NoticeEvent)
    | UnknownEvent(name: string, payload: string)
    | Subscribed(controlBaseline: Option<bool>)
    | SessionOnly
    | Unhandled

  datatype Input = Input(sequence: int, event: Event, advances: bool, sessionId: Option<string>)

  // ---- text ----

  predicate IsSpace(c: char) {
    || '\t' <= c <= '\r' || c == ' '
    || c == '\U{A0}' || c == '\U{1680}' || '\U{2000}' <= c <= '\U{200A}'
    || c == '\U{2028}' || c == '\U{2029}' || c == '\U{202F}' || c == '\U{205F}' || c == '\U{3000}' || c == '\U{FEFF}'
  }

  predicate IsBlank(s: string) {
    forall i :: 0 <= i < |s| ==> IsSpace(s[i])
  }

  // Inner runs of white space become one space; leading and trailing ones go.
  function Collapse(s: string): string {
    if s == [] then ""
    else
      var rest := Collapse(s[..|s| - 1]);
      var last := s[|s| - 1];
      if IsSpace(last) then rest
      else if |s| > 1 && IsSpace(s[|s| - 2]) && rest != "" then rest + [' ', last]
      else rest + [last]
  }

  function Decimal(n: int): string {
    PrintInt(n)
  }
}
