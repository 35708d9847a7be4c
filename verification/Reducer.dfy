/**
 One transition of the transcript reducer, as a function of the state and the event.
 */
module Reducer {
  import opened NodeLookup
  import opened Options
  import opened Runs
  import opened TimelineNodes
  import opened TurnClosure
  import opened TurnLedger
  import opened TurnState
  import opened Usage

  datatype State = State(
    sessionId: Option<string>,
    nodes: seq<Node>,
    lastSequence: int,
    changeStart: Option<nat>,
    changeBase: Option<seq<Node>>,
    eventCount: Option<nat>,
    commandModes: map<string, CommandMode>,
    tokenUsage: Option<TokenUsage>,
    turns: Turns)

  // The rows a transition leaves, and from where on they may differ.
  datatype Arranged = Arranged(nodes: seq<Node>, start: Option<nat>)

  function Lower(start: Option<nat>, index: nat): Option<nat> {
    if start.Some? && start.value < index then start else Some(index)
  }

  function Or<T>(first: Option<T>, second: Option<T>): Option<T> {
    if first.Some? then first else second
  }

  // ---- live text ----

  predicate IsTransient(d: Delta) {
    d.transient.attemptId.Some? && d.transient.index.Some?
  }

  // A new subscription counts its frames from one: its first frame starts the row over.
  predicate IsTransientBaselineRestart(d: Delta, live: Live) {
    d.transient.attemptId.Some? && d.transient.sequence == Some(1) && live.attempt == d.transient.attemptId
      && live.lastIndex.Some?
  }

  predicate IsRepeated(d: Delta, live: Live) {
    && IsTransient(d) && live.attempt == d.transient.attemptId && live.lastIndex.Some?
    && d.transient.index.value <= live.lastIndex.value && !IsTransientBaselineRestart(d, live)
  }

  predicate Replaces(d: Delta, live: Live) {
    && IsTransient(d)
    && (IsTransientBaselineRestart(d, live) || (live.attempt.Some? && live.attempt != d.transient.attemptId))
  }

  function LiveAfter(d: Delta, live: Live): Live {
    if IsTransient(d) then
      Live(d.transient.attemptId, d.transient.index, Or(d.transient.startedAfter, live.startedAfter))
    else live
  }

  function NewRow(d: Delta, timing: Option<Timing>, closed: bool): Message {
    var blank :=
      Message("", false, None, d.turn, d.step, false, None, None, None, None, timing, false, LiveAfter(d, NOT_LIVE),
              None);
    match d.channel
    case Text => blank.(markdown := d.delta, streaming := !closed)
    case Thinking => blank.(reasoning := Some(Prose(d.delta, !closed)))
  }

  function ReasoningText(reasoning: Option<Prose>): string {
    match reasoning
    case Some(prose) => prose.markdown
    case None => ""
  }

  function ExtendedMessage(m: Message, d: Delta, timing: Option<Timing>, closed: bool): Message {
    var startsOver := Replaces(d, m.live);
    var moved := m.(
      turn := Or(d.turn, m.turn), step := Or(d.step, m.step),
      turnCompleted := d.turn.None? && m.turnCompleted,
      timing := Or(timing, m.timing),
      interrupted := !startsOver && m.interrupted,
      live := LiveAfter(d, m.live));
    match d.channel
    case Text =>
      moved.(markdown := if startsOver then d.delta else m.markdown + d.delta,
      streaming := !closed,
      reasoning := if startsOver then None else Quiet(m.reasoning))
    case Thinking =>
      moved.(markdown := if startsOver then "" else m.markdown,
      reasoning := Some(Prose((if startsOver then "" else ReasoningText(m.reasoning)) + d.delta, !closed)))
  }

  function ExtendedRow(node: Node, d: Delta, timing: Option<Timing>, closed: bool): Node {
    match node.body
    case Assistant(m) =>
      if IsRepeated(d, m.live) then node else node.(body := Assistant(ExtendedMessage(m, d, timing, closed)))
    case Reasoning(prose, live) =>
      if d.channel.Text? then
        Node(d.messageId,
             Assistant(NewRow(d, timing, closed).(
               reasoning := if Replaces(d, live) then None else Some(Prose(prose.markdown, false)))))
      else if IsRepeated(d, live) then node
      else
        node.(body := Reasoning(
          Prose(if Replaces(d, live) then d.delta else prose.markdown + d.delta, !closed), LiveAfter(d, live)))
    case _ => node
  }

  predicate TurnIsClosed(turns: Turns, turn: Option<int>) {
    turn.Some? && turn.value in turns.closed
  }

  // A late event of a closed turn first takes back what the turn's end had marked.
  function Unmarked(nodes: seq<Node>, turns: Turns, turn: Option<int>): seq<Node> {
    if TurnIsClosed(turns, turn) then TailInvalidated(nodes, turn.value) else nodes
  }

  function PlaceDelta(nodes: seq<Node>, start: Option<nat>, turns: Turns, d: Delta): Arranged {
    var closed := TurnIsClosed(turns, d.turn);
    var rows := Unmarked(nodes, turns, d.turn);
    var from: Option<nat> := if closed then Some(0) else start;
    if d.delta == "" then Arranged(rows, from)
    else
      var timing := NoteFirstToken(turns.timings, d.turn, d.step, d.time);
      var index := ConversationIndex(rows, d.messageId, d.turn, d.step, IsTransient(d));
      if index < 0 then Arranged(rows + [Node(d.messageId, Assistant(NewRow(d, timing, closed)))], Lower(from, |rows|))
      else Arranged(rows[index := ExtendedRow(rows[index], d, timing, closed)], Lower(from, index))
  }

  // ---- settled text ----

  predicate SaysNothing(c: Completion) {
    c.markdown.None? && c.reasoning.None? && c.modelLabel.None? && c.images.None?
  }

  function Settle(m: Message, keepLive: bool): Message {
    if keepLive then m else m.(live := NOT_LIVE)
  }

  function Quoted(reasoning: Option<string>): Option<Prose> {
    match reasoning
    case Some(markdown) => Some(Prose(markdown, false))
    case None => None
  }

  function CompletedRow(c: Completion, sequence: int, timing: Option<Timing>): Message {
    Message(c.markdown.GetOr(""), false, Some(sequence), c.turn, c.step, false, None, c.modelLabel, c.usage, c.images,
            timing, c.interrupted, NOT_LIVE, Quoted(c.reasoning))
  }

  function CompletedOver(node: Node, c: Completion, input: Input, timing: Option<Timing>, closed: bool): Node {
    match node.body
    case Assistant(m) =>
      Node(c.messageId, Assistant(Settle(m.(
        markdown := c.markdown.GetOr(m.markdown),
        streaming := false,
        sequence := Some(input.sequence),
        turn := Or(c.turn, m.turn), step := Or(c.step, m.step),
        turnCompleted := !closed && m.turnCompleted,
        modelLabel := Or(c.modelLabel, m.modelLabel),
        usage := Or(c.usage, m.usage),
        images := Or(c.images, m.images),
        timing := Or(timing, m.timing),
        interrupted := c.interrupted || m.interrupted,
        reasoning := Or(Quoted(c.reasoning), Quiet(m.reasoning))), !input.advances)))
    case Reasoning(prose, live) =>
      Node(c.messageId, Assistant(CompletedRow(c, input.sequence, timing).(
        interrupted := !SaysNothing(c) && c.interrupted,
        live := if !input.advances && live.attempt.Some? then live else NOT_LIVE,
        reasoning := Some(Prose(c.reasoning.GetOr(prose.markdown), false)))))
    case _ => node
  }

  function PlaceCompletion(nodes: seq<Node>, start: Option<nat>, turns: Turns, c: Completion, input: Input): Arranged {
    var closed := TurnIsClosed(turns, c.turn);
    var rows := Unmarked(nodes, turns, c.turn);
    var from: Option<nat> := if closed then Some(0) else start;
    var timing := CompleteTiming(turns.timings, c.turn, c.step, c.time);
    var index := ConversationIndex(rows, c.messageId, c.turn, c.step, false);
    if index >= 0 then Arranged(rows[index := CompletedOver(rows[index], c, input, timing, closed)], Lower(from, index))
    else if c.markdown.Some? || c.reasoning.Some? || c.images.Some? then
      Arranged(rows + [Node(c.messageId, Assistant(CompletedRow(c, input.sequence, timing)))], Lower(from, |rows|))
    else Arranged(rows, Lower(from, |rows|))
  }

  // ---- the other rows ----

  function PlaceUser(nodes: seq<Node>, start: Option<nat>, messageId: string, user: UserBody): Arranged {
    var optimistic := OptimisticUser(nodes, user);
    if optimistic >= 0 then Arranged(nodes[optimistic := Node(messageId, User(user))], Lower(start, optimistic))
    else Arranged(Upserted(nodes, Node(messageId, User(user))), Lower(start, UpsertPosition(nodes, messageId)))
  }

  function RemoveAttempt(nodes: seq<Node>, start: Option<nat>, turns: Turns, turn: int, step: int,
                         sequence: int): Arranged {
    var rows := Unmarked(nodes, turns, Some(turn));
    var index := LastIndex(rows, AttemptAt(turn, step, sequence));
    if index < 0 then Arranged(rows, start) else Arranged(Without(rows, index), Lower(start, index))
  }

  function StepEndedRow(node: Node, turn: int, step: int, sequence: int): Node {
    match node.body
    case Assistant(m) =>
      if m.turn == Some(turn) && m.step == Some(step) && Streams(m) then
        node.(body := Assistant(m.(streaming := false, sequence := Some(sequence), reasoning := Quiet(m.reasoning))))
      else node
    case Retrying(r) =>
      if r.turn == turn && r.step == step && r.state.RetryWaiting? then
        node.(body := Retrying(r.(state := RetryCancelled)))
      else node
    case _ => node
  }

  function StepEndedRows(nodes: seq<Node>, turn: int, step: int, sequence: int): (r: seq<Node>)
    ensures |r| == |nodes|
    ensures forall i :: 0 <= i < |r| ==> r[i] == StepEndedRow(nodes[i], turn, step, sequence)
  {
    seq(|nodes|, i requires 0 <= i < |nodes| => StepEndedRow(nodes[i], turn, step, sequence))
  }

  function PreviewOf(p: Preparing): Node {
    Node(p.callId,
         Tool(ToolCall(p.toolName, "tool", p.toolName, Queued, Some(p.turn), Some(p.step), None, None, None, map[],
                       Some(Preparation(p.attemptId, p.updateIndex))), None))
  }

  // A call that is already known, or a newer preview of it, wins over an older preview.
  predicate PreviewIsStale(nodes: seq<Node>, p: Preparing) {
    var index := LastIndex(nodes, ToolWithId(p.callId));
    index >= 0
    && var known := nodes[index].body.tool.preparation;
       known.None? || (known.value.attemptId == p.attemptId && known.value.updateIndex >= p.updateIndex)
  }

  function MergeTool(previous: ToolCall, next: ToolCall): ToolCall {
    ToolCall(
      if next.name == "unknown-tool" then previous.name else next.name,
      if next.category == "tool" then previous.category else next.category,
      if next.title == "Tool" then previous.title else next.title,
      next.status,
      Or(next.turn, previous.turn), Or(next.step, previous.step), Or(next.parentCallId, previous.parentCallId),
      Or(next.inputSummary, previous.inputSummary), Or(next.outputSummary, previous.outputSummary),
      previous.metadata + next.metadata,
      next.preparation)
  }

  function PlaceTool(nodes: seq<Node>, turns: Turns, callId: string, tool: ToolCall, sequence: int): seq<Node> {
    var rows := Unmarked(nodes, turns, tool.turn);
    var next := CloseLateTool(tool, turns.closed);
    var index := LastIndex(rows, ToolWithId(callId));
    if index >= 0 then rows[index := Node(callId, Tool(MergeTool(rows[index].body.tool, next), Some(sequence)))]
    else Upserted(rows, Node(callId, Tool(next, Some(sequence))))
  }

  function MergeCompaction(previous: Compaction, next: Compaction): Compaction {
    Compaction(next.phase, Or(next.summary, previous.summary), Or(next.replacedCount, previous.replacedCount),
               Or(next.estimatedTokens, previous.estimatedTokens))
  }

  function PlaceCompaction(nodes: seq<Node>, compactionId: string, compaction: Compaction): seq<Node> {
    var id := "compaction:" + compactionId;
    var index := LastIndex(nodes, CompactionWithId(id));
    if index >= 0 then nodes[index := Node(id, Compacting(MergeCompaction(nodes[index].body.compaction, compaction)))]
    else Upserted(nodes, Node(id, Compacting(compaction)))
  }

  function RetryRow(previous: Option<Retry>, r: RetrySignal, closed: bool, sequence: int): Retry {
    var known :=
      if previous.Some? then previous.value else Retry(None, r.turn, r.step, 0, RetryWaiting, None, None, None);
    Retry(Some(sequence), r.turn, r.step,
          if r.attempt > known.attempt then r.attempt else known.attempt,
          if closed then RetryCancelled else if r.begun then RetryBegun else RetryWaiting,
          Or(r.delayMs, known.delayMs), Or(r.maxRetries, known.maxRetries), Or(r.message, known.message))
  }

  function PlaceRetry(nodes: seq<Node>, turns: Turns, r: RetrySignal, sequence: int): seq<Node> {
    var rows := Unmarked(nodes, turns, Some(r.turn));
    var id := "retry:" + r.id;
    var index := LastIndex(rows, RetryWithId(id));
    var closed := r.turn in turns.closed;
    if index < 0 then rows + [Node(id, Retrying(RetryRow(None, r, closed, sequence)))]
    else rows[index := Node(id, Retrying(RetryRow(Some(rows[index].body.retry), r, closed, sequence)))]
  }

  // ---- notices and command modes ----

  function ModeOf(modes: map<string, CommandMode>, n: NoticeEvent): Option<CommandMode> {
    if n.mode.Some? then n.mode
    else if n.commandId.Some? && n.commandId.value in modes then Some(modes[n.commandId.value])
    else None
  }

  function ModesAfter(modes: map<string, CommandMode>, n: NoticeEvent): map<string, CommandMode> {
    if n.commandId.None? then modes
    else if n.phase.CommandRun? && ModeOf(modes, n).Some? then modes[n.commandId.value := ModeOf(modes, n).value]
    else if n.phase.CommandDone? then modes - {n.commandId.value}
    else modes
  }

  const STARTED_SUFFIX := " started."

  predicate AnnouncesStart(text: string) {
    |text| >= |STARTED_SUFFIX| && text[|text| - |STARTED_SUFFIX|..] == STARTED_SUFFIX
  }

  function PlaceNotice(nodes: seq<Node>, modes: map<string, CommandMode>, n: NoticeEvent, sequence: int): seq<Node> {
    var modeCommand := ModeOf(modes, n).Some?;
    var rows :=
      if n.commandInput.Some? && !modeCommand then
        Upserted(nodes,
                 Node("command-input:" + Decimal(sequence),
                      Other(Card("command-input", None, None, n.commandInput.value))))
      else nodes;
    if (modeCommand && n.level.Info?) || (n.level.Error? && HasTurnFailureWithText(rows, n.text))
       || (n.level.Info? && AnnouncesStart(n.text)) then rows
    else Upserted(rows, Node("notice:" + Decimal(sequence), TimelineNodes.Notice(n.level, n.text)))
  }

  // ---- the transition ----

  predicate MayChangeNodes(state: State, event: Event) {
    match event
    case Subscribed(baseline) =>
      baseline == Some(false) && exists i :: 0 <= i < |state.nodes| && IsPreview(state.nodes[i])
    case SessionOnly => false
    case TurnStarted(turn) => turn in state.turns.closed
    case StepStarted(turn, _, _) => turn in state.turns.closed
    case MessageDelta(d) => d.delta != "" || TurnIsClosed(state.turns, d.turn)
    case _ => true
  }

  function RawEventNode(input: Input): Node
    requires input.event.UnknownEvent?
  {
    Node("event:" + Decimal(input.sequence) + ":" + input.event.name,
         RawEvent(Some(input.sequence), input.event.name, input.event.payload))
  }

  function CardNode(id: string, card: Card, sequence: int): Node {
    Node(id, Other(card.(sequence := if card.kind == "deliverables" then Some(sequence) else None)))
  }

  function TurnUsageAtEnd(turns: Turns, turn: int, reason: EndReason): Option<Normalized> {
    if reason.TurnCompleted? then CompleteTurnUsage(EntryOf(turns.usage, turn)) else None
  }

  // Events that leave the hint where retired previews put it.
  function RowsAfter(nodes: seq<Node>, turns: Turns, modes: map<string, CommandMode>, input: Input): seq<Node> {
    match input.event
    case TurnStarted(turn) => TailInvalidated(nodes, turn)
    case TurnEnded(turn, reason, failure) =>
      TurnClosed(nodes, turn, reason, failure, input.sequence, TurnUsageAtEnd(turns, turn, reason))
    case StepStarted(turn, _, _) => Unmarked(nodes, turns, Some(turn))
    case StepEnded(turn, step) => StepEndedRows(Unmarked(nodes, turns, Some(turn)), turn, step, input.sequence)
    case ToolPreparing(p) =>
      if p.turn in turns.closed || PreviewIsStale(nodes, p) then nodes else Upserted(nodes, PreviewOf(p))
    case ToolUpdated(callId, tool) => PlaceTool(nodes, turns, callId, tool, input.sequence)
    case CardUpdated(id, card) => Upserted(nodes, CardNode(id, card, input.sequence))
    case CompactionUpdated(id, compaction) => PlaceCompaction(nodes, id, compaction)
    case ModelRetry(r) => PlaceRetry(nodes, turns, r, input.sequence)
    case ConnectionLost(cause) =>
      Upserted(nodes, Node("connection:" + Decimal(input.sequence), TimelineNodes.Notice(Error, cause)))
    case Noticed(n) => PlaceNotice(nodes, modes, n, input.sequence)
    case UnknownEvent(_, _) => Inserted(nodes, RawEventNode(input))
    case _ => nodes
  }

  // What the event does to the rows that are left once the previews it retires are gone.
  function Arrange(nodes: seq<Node>, start: Option<nat>, turns: Turns, modes: map<string, CommandMode>,
                   input: Input): Arranged {
    match input.event
    case UserMessage(messageId, user) => PlaceUser(nodes, start, messageId, user)
    case MessageDelta(d) => PlaceDelta(nodes, start, turns, d)
    case MessageCompleted(c) => PlaceCompletion(nodes, start, turns, c, input)
    case AssistantAttempt(turn, step, _) => RemoveAttempt(nodes, start, turns, turn, step, input.sequence)
    case _ => Arranged(RowsAfter(nodes, turns, modes, input), start)
  }

  // Retired previews first; a start nobody lowered is the first row.
  function NodesAfter(state: State, input: Input): Arranged {
    var kept := Retained(state.nodes, input.event);
    var arranged := Arrange(kept, FirstRetired(state.nodes, input.event), state.turns, state.commandModes, input);
    Arranged(arranged.nodes, Some(arranged.start.GetOr(0)))
  }

  function EventCountAfter(state: State, input: Input): Option<nat> {
    if input.event.UnknownEvent? then
      Some(state.eventCount.GetOr(CountEventNodes(state.nodes))
           + if InsertCounts(Retained(state.nodes, input.event), RawEventNode(input)) then 1 else 0)
    else state.eventCount
  }

  function TokenUsageAfter(state: State, event: Event): Option<TokenUsage> {
    if event.MessageCompleted? && event.completion.usage.Some? then
      Some(AddTokenUsage(state.tokenUsage, event.completion.usage.value))
    else state.tokenUsage
  }

  // Already applied, or of another session: such an event must not even move the cursor.
  predicate Ignored(state: State, input: Input) {
    || (input.advances && input.sequence <= state.lastSequence)
    || (state.sessionId.Some? && input.sessionId.Some? && input.sessionId != state.sessionId)
  }

  function Reduce(state: State, input: Input): State {
    if Ignored(state, input) then state
    else
      var changes := MayChangeNodes(state, input.event);
      var arranged := NodesAfter(state, input);
      State(
        Or(state.sessionId, input.sessionId),
        if changes then arranged.nodes else state.nodes,
        if input.advances then input.sequence else state.lastSequence,
        if changes then arranged.start else state.changeStart,
        if changes then Some(state.nodes) else if state.changeStart.None? then None else state.changeBase,
        EventCountAfter(state, input),
        if input.event.Noticed? then ModesAfter(state.commandModes, input.event.notice) else state.commandModes,
        TokenUsageAfter(state, input.event),
        Track(state.turns, input.event))
  }

  function ReduceAll(state: State, inputs: seq<Input>): State {
    Run(Reduce, state, inputs)
  }
}
