/**
 The row a live stream writes to, and the events that leave it alone: whatever else happens in the session between two
 frames, the next frame finds the same row with the same text.
 */
module StreamRows {
  import opened Filtering
  import opened NodeLookup
  import opened Options
  import opened Reducer
  import opened TimelineNodes
  import opened TurnClosure
  import opened TurnLedger
  import opened TurnState

  // One attempt's stream of one message.
  datatype Stream = Stream(
    messageId: string, attempt: string, turn: Option<int>, step: Option<int>, sessionId: Option<string>)

  predicate FrameOf(s: Stream, d: Delta) {
    && d.messageId == s.messageId && d.turn == s.turn && d.step == s.step
    && d.transient.attemptId == Some(s.attempt) && d.transient.index.Some? && d.transient.sequence.Some?
  }

  predicate Delivers(s: Stream, input: Input) {
    && input.event.MessageDelta? && FrameOf(s, input.event.delta)
    && !input.advances && input.sessionId == s.sessionId
  }

  predicate Accepts(state: State, s: Stream) {
    && !TurnIsClosed(state.turns, s.turn)
    && (state.sessionId.None? || s.sessionId.None? || state.sessionId == s.sessionId)
  }

  function RowIndex(nodes: seq<Node>, s: Stream): int {
    ConversationIndex(nodes, s.messageId, s.turn, s.step, true)
  }

  // ---- what an event must leave alone ----

  // The ids an event may write a row under, apart from those of messages.
  function WrittenIds(input: Input): set<string> {
    match input.event
    case TurnEnded(turn, _, _) => {TerminalId(turn)}
    case UserMessage(messageId, _) => {messageId}
    case ToolPreparing(p) => {p.callId}
    case ToolUpdated(callId, _) => {callId}
    case CardUpdated(id, _) => {id}
    case CompactionUpdated(id, _) => {"compaction:" + id}
    case ConnectionLost(_) => {"connection:" + Decimal(input.sequence)}
    case Noticed(_) => {"command-input:" + Decimal(input.sequence), "notice:" + Decimal(input.sequence)}
    case UnknownEvent(_, _) => {RawEventNode(input).id}
    case _ => {}
  }

  // A lookup at that turn and step cannot end at a row of the stream's own turn and step.
  predicate Elsewhere(s: Stream, turn: Option<int>, step: Option<int>) {
    if turn.None? || step.None? then s.turn.None? || s.step.None?
    else (s.turn.Some? && s.turn != turn) || (s.step.Some? && s.step != step)
  }

  predicate AnotherMessage(s: Stream, row: string, messageId: string) {
    messageId != row && messageId != s.messageId
  }

  /**
   Of the stream's session or of none, and neither the end of its turn, nor a message, a completion or a late attempt in
   its place, nor a row under the id of its row.
   */
  predicate Aside(s: Stream, row: string, input: Input) {
    && (input.sessionId.None? || s.sessionId.None? || input.sessionId == s.sessionId)
    && row !in WrittenIds(input)
    && match input.event
       case TurnEnded(turn, _, _) => s.turn != Some(turn)
       case MessageDelta(d) => AnotherMessage(s, row, d.messageId) && Elsewhere(s, d.turn, d.step)
       case MessageCompleted(c) => AnotherMessage(s, row, c.messageId) && Elsewhere(s, c.turn, c.step)
       case AssistantAttempt(turn, step, _) => Elsewhere(s, Some(turn), Some(step))
       case _ => true
  }

  // ---- the row and what it says ----

  datatype Speech = Speech(markdown: string, reasoning: string, live: Live)

  function SpeechOf(m: Message): Speech {
    Speech(m.markdown, ReasoningText(m.reasoning), m.live)
  }

  predicate Speaks(node: Node, s: Stream, row: string, speech: Speech) {
    && node.id == row && node.body.Assistant?
    && var m := node.body.message;
       && SpeechOf(m) == speech && m.live.attempt.Some?
       && (s.turn.Some? ==> m.turn == s.turn) && (s.step.Some? ==> m.step == s.step)
  }

  // The stream's next frame will find that row.
  predicate RowHolds(nodes: seq<Node>, s: Stream, row: string, speech: Speech) {
    var p := RowIndex(nodes, s);
    p >= 0 && Speaks(nodes[p], s, row, speech)
  }

  // ---- the last row that matches ----

  function LastNode(nodes: seq<Node>, query: Query): Option<Node> {
    var i := LastIndex(nodes, query);
    if i < 0 then None else Some(nodes[i])
  }

  lemma {:induction false} LastOfTwo(a: seq<Node>, b: seq<Node>, query: Query)
    ensures LastNode(a + b, query) == if LastNode(b, query).Some? then LastNode(b, query) else LastNode(a, query)
    decreases |b|
  {
    if b == [] {
      assert a + b == a;
    } else {
      assert (a + b)[..|a + b| - 1] == a + b[..|b| - 1];
      LastOfTwo(a, b[..|b| - 1], query);
    }
  }

  lemma LastOfOne(node: Node, query: Query)
    ensures LastNode([node], query) == if Matches(query, node) then Some(node) else None
  {
    assert [node][..0] == [];
  }

  lemma LastPushed(nodes: seq<Node>, node: Node, query: Query)
    ensures LastNode(nodes + [node], query) == if Matches(query, node) then Some(node) else LastNode(nodes, query)
  {
    LastOfTwo(nodes, [node], query);
    LastOfOne(node, query);
  }

  // With one row in the middle.
  lemma LastAround(a: seq<Node>, node: Node, b: seq<Node>, query: Query)
    ensures LastNode(a + [node] + b, query)
            == if LastNode(b, query).Some? then LastNode(b, query)
               else if Matches(query, node) then Some(node)
               else LastNode(a, query)
  {
    LastOfTwo(a + [node], b, query);
    LastPushed(a, node, query);
  }

  lemma {:induction false} LastKept(nodes: seq<Node>, drop: Node -> bool, query: Query)
    requires forall i :: 0 <= i < |nodes| && drop(nodes[i]) ==> !Matches(query, nodes[i])
    ensures LastNode(Kept(nodes, drop), query) == LastNode(nodes, query)
    decreases |nodes|
  {
    if nodes != [] {
      var init, last := nodes[..|nodes| - 1], nodes[|nodes| - 1];
      LastKept(init, drop, query);
      assert nodes == init + [last];
      LastPushed(init, last, query);
      if drop(last) {
        assert Kept(nodes, drop) == Kept(init, drop);
      } else {
        assert Kept(nodes, drop) == Kept(init, drop) + [last];
        LastPushed(Kept(init, drop), last, query);
      }
    }
  }

  // ---- the two lookups of a stream ----

  function ByMessage(s: Stream): Query {
    Conversation(s.messageId, true)
  }

  predicate HasPlace(s: Stream) {
    s.turn.Some? && s.step.Some?
  }

  function ByPlace(s: Stream): Query
    requires HasPlace(s)
  {
    OpenAt(s.turn.value, s.step.value)
  }

  lemma HoldsByLookup(nodes: seq<Node>, s: Stream, row: string, speech: Speech)
    ensures RowHolds(nodes, s, row, speech)
            <==> var exact := LastNode(nodes, ByMessage(s));
                 if exact.Some? then Speaks(exact.value, s, row, speech)
                 else HasPlace(s) && LastNode(nodes, ByPlace(s)).Some?
                      && Speaks(LastNode(nodes, ByPlace(s)).value, s, row, speech)
  {
  }

  // What finds the new row found the old one already.
  predicate NoNewFind(s: Stream, was: Node, now: Node) {
    && (Matches(ByMessage(s), now) ==> Matches(ByMessage(s), was))
    && (HasPlace(s) && Matches(ByPlace(s), now) ==> Matches(ByPlace(s), was))
  }

  predicate Hidden(s: Stream, node: Node) {
    !Matches(ByMessage(s), node) && (HasPlace(s) ==> !Matches(ByPlace(s), node))
  }

  predicate IsConversation(node: Node) {
    node.body.Assistant? || node.body.Reasoning?
  }

  // ---- edits that leave the row alone ----

  lemma InsertedAside(a: seq<Node>, node: Node, b: seq<Node>, s: Stream, row: string, speech: Speech)
    requires RowHolds(a + b, s, row, speech) && Hidden(s, node)
    ensures RowHolds(a + [node] + b, s, row, speech)
  {
    HoldsByLookup(a + b, s, row, speech);
    HoldsByLookup(a + [node] + b, s, row, speech);
    LastOfTwo(a, b, ByMessage(s));
    LastAround(a, node, b, ByMessage(s));
    if HasPlace(s) {
      LastOfTwo(a, b, ByPlace(s));
      LastAround(a, node, b, ByPlace(s));
    }
  }

  lemma AppendedAside(nodes: seq<Node>, node: Node, s: Stream, row: string, speech: Speech)
    requires RowHolds(nodes, s, row, speech) && Hidden(s, node)
    ensures RowHolds(nodes + [node], s, row, speech)
  {
    assert nodes + [] == nodes && nodes + [node] + [] == nodes + [node];
    InsertedAside(nodes, node, [], s, row, speech);
  }

  lemma ReplacedBetween(a: seq<Node>, was: Node, now: Node, b: seq<Node>, s: Stream, row: string, speech: Speech)
    requires RowHolds(a + [was] + b, s, row, speech) && !Speaks(was, s, row, speech) && NoNewFind(s, was, now)
    ensures RowHolds(a + [now] + b, s, row, speech)
  {
    HoldsByLookup(a + [was] + b, s, row, speech);
    HoldsByLookup(a + [now] + b, s, row, speech);
    LastAround(a, was, b, ByMessage(s));
    LastAround(a, now, b, ByMessage(s));
    if HasPlace(s) {
      LastAround(a, was, b, ByPlace(s));
      LastAround(a, now, b, ByPlace(s));
    }
  }

  lemma ReplacedAside(nodes: seq<Node>, i: nat, node: Node, s: Stream, row: string, speech: Speech)
    requires RowHolds(nodes, s, row, speech) && i < |nodes| && !Speaks(nodes[i], s, row, speech)
    requires NoNewFind(s, nodes[i], node)
    ensures RowHolds(nodes[i := node], s, row, speech)
  {
    assert nodes == nodes[..i] + [nodes[i]] + nodes[i + 1..];
    assert nodes[i := node] == nodes[..i] + [node] + nodes[i + 1..];
    ReplacedBetween(nodes[..i], nodes[i], node, nodes[i + 1..], s, row, speech);
  }

  lemma RemovedBetween(a: seq<Node>, was: Node, b: seq<Node>, s: Stream, row: string, speech: Speech)
    requires RowHolds(a + [was] + b, s, row, speech) && !Speaks(was, s, row, speech)
    ensures RowHolds(a + b, s, row, speech)
  {
    HoldsByLookup(a + [was] + b, s, row, speech);
    HoldsByLookup(a + b, s, row, speech);
    LastAround(a, was, b, ByMessage(s));
    LastOfTwo(a, b, ByMessage(s));
    if HasPlace(s) {
      LastAround(a, was, b, ByPlace(s));
      LastOfTwo(a, b, ByPlace(s));
    }
  }

  lemma RemovedAside(nodes: seq<Node>, i: nat, s: Stream, row: string, speech: Speech)
    requires RowHolds(nodes, s, row, speech) && i < |nodes| && !Speaks(nodes[i], s, row, speech)
    ensures RowHolds(Without(nodes, i), s, row, speech)
  {
    assert nodes == nodes[..i] + [nodes[i]] + nodes[i + 1..];
    RemovedBetween(nodes[..i], nodes[i], nodes[i + 1..], s, row, speech);
  }

  lemma KeptAside(nodes: seq<Node>, drop: Node -> bool, s: Stream, row: string, speech: Speech)
    requires RowHolds(nodes, s, row, speech)
    requires forall i :: 0 <= i < |nodes| && drop(nodes[i]) ==> !IsConversation(nodes[i])
    ensures RowHolds(Kept(nodes, drop), s, row, speech)
  {
    HoldsByLookup(nodes, s, row, speech);
    HoldsByLookup(Kept(nodes, drop), s, row, speech);
    LastKept(nodes, drop, ByMessage(s));
    if HasPlace(s) {
      LastKept(nodes, drop, ByPlace(s));
    }
  }

  // Rows rewritten one by one, none of them to be found anew, and the stream's own still saying the same.
  lemma RewrittenAside(nodes: seq<Node>, after: seq<Node>, s: Stream, row: string, speech: Speech)
    requires RowHolds(nodes, s, row, speech) && |after| == |nodes|
    requires forall i :: 0 <= i < |nodes| ==> NoNewFind(s, nodes[i], after[i])
    requires forall i :: 0 <= i < |nodes| && Speaks(nodes[i], s, row, speech) ==> Speaks(after[i], s, row, speech)
    ensures RowHolds(after, s, row, speech)
  {
    var p := RowIndex(nodes, s);
    var exact := LastIndex(nodes, ByMessage(s));
    if exact >= 0 {
      LastIndexIs(after, ByMessage(s), p);
    } else {
      LastIndexIs(after, ByMessage(s), -1);
      LastIndexIs(after, ByPlace(s), p);
    }
  }

  lemma UpsertedAside(nodes: seq<Node>, node: Node, s: Stream, row: string, speech: Speech)
    requires RowHolds(nodes, s, row, speech) && node.id != row && !IsConversation(node)
    ensures RowHolds(Upserted(nodes, node), s, row, speech)
  {
    var index := LastIndex(nodes, AnyWithId(node.id));
    if index < 0 {
      AppendedAside(nodes, node, s, row, speech);
    } else {
      ReplacedAside(nodes, index, node, s, row, speech);
    }
  }

  lemma InsertedRowAside(nodes: seq<Node>, node: Node, s: Stream, row: string, speech: Speech)
    requires RowHolds(nodes, s, row, speech) && node.id != row && !IsConversation(node)
    ensures RowHolds(Inserted(nodes, node), s, row, speech)
  {
    var existing := FirstWithId(nodes, node.id, 0);
    if existing >= 0 {
      ReplacedAside(nodes, existing, node, s, row, speech);
    } else if NodeSequence(node).None? || FirstLater(nodes, NodeSequence(node).value, 0) < 0 {
      AppendedAside(nodes, node, s, row, speech);
    } else {
      var later := FirstLater(nodes, NodeSequence(node).value, 0);
      assert nodes == nodes[..later] + nodes[later..];
      InsertedAside(nodes[..later], node, nodes[later..], s, row, speech);
    }
  }

  // ---- the rewriting of a turn's or a step's rows ----

  lemma UnmarkedAside(nodes: seq<Node>, turns: Turns, turn: Option<int>, s: Stream, row: string, speech: Speech)
    requires RowHolds(nodes, s, row, speech)
    ensures RowHolds(Unmarked(nodes, turns, turn), s, row, speech)
  {
    RewrittenAside(nodes, Unmarked(nodes, turns, turn), s, row, speech);
  }

  lemma InvalidatedAside(nodes: seq<Node>, turn: int, s: Stream, row: string, speech: Speech)
    requires RowHolds(nodes, s, row, speech)
    ensures RowHolds(TailInvalidated(nodes, turn), s, row, speech)
  {
    RewrittenAside(nodes, TailInvalidated(nodes, turn), s, row, speech);
  }

  lemma SettledAside(nodes: seq<Node>, turn: int, reason: EndReason, sequence: int, s: Stream, row: string,
                     speech: Speech)
    requires RowHolds(nodes, s, row, speech)
    ensures RowHolds(SettledRows(nodes, turn, reason, sequence), s, row, speech)
  {
    RewrittenAside(nodes, SettledRows(nodes, turn, reason, sequence), s, row, speech);
  }

  lemma StepEndedAside(nodes: seq<Node>, turn: int, step: int, sequence: int, s: Stream, row: string, speech: Speech)
    requires RowHolds(nodes, s, row, speech)
    ensures RowHolds(StepEndedRows(nodes, turn, step, sequence), s, row, speech)
  {
    RewrittenAside(nodes, StepEndedRows(nodes, turn, step, sequence), s, row, speech);
  }

  lemma MarkedAside(nodes: seq<Node>, turn: int, reason: EndReason, usage: Option<Normalized>, s: Stream, row: string,
                    speech: Speech)
    requires RowHolds(nodes, s, row, speech)
    ensures RowHolds(Marked(nodes, turn, reason, usage), s, row, speech)
  {
    RewrittenAside(nodes, Marked(nodes, turn, reason, usage), s, row, speech);
  }

  lemma TerminalAside(nodes: seq<Node>, turn: int, reason: EndReason, failure: Option<string>, sequence: int,
                      s: Stream, row: string, speech: Speech)
    requires RowHolds(nodes, s, row, speech) && row != TerminalId(turn)
    ensures RowHolds(WithTerminal(nodes, turn, reason, failure, sequence), s, row, speech)
  {
    if !reason.TurnCompleted? {
      var node := Node(TerminalId(turn), Ended(Terminal(turn, sequence, reason, failure)));
      UpsertedAside(nodes, node, s, row, speech);
      KeptAside(Upserted(nodes, node), ClaimedBy(TextKey(failure.GetOr(""))), s, row, speech);
    }
  }

  lemma TurnClosedAside(nodes: seq<Node>, turn: int, reason: EndReason, failure: Option<string>, sequence: int,
                        usage: Option<Normalized>, s: Stream, row: string, speech: Speech)
    requires RowHolds(nodes, s, row, speech) && row != TerminalId(turn)
    ensures RowHolds(TurnClosed(nodes, turn, reason, failure, sequence, usage), s, row, speech)
  {
    var settled := SettledRows(nodes, turn, reason, sequence);
    SettledAside(nodes, turn, reason, sequence, s, row, speech);
    TerminalAside(settled, turn, reason, failure, sequence, s, row, speech);
    MarkedAside(WithTerminal(settled, turn, reason, failure, sequence), turn, reason, usage, s, row, speech);
  }

  // ---- the arms ----

  lemma UserAside(nodes: seq<Node>, start: Option<nat>, messageId: string, user: UserBody, s: Stream, row: string,
                  speech: Speech)
    requires RowHolds(nodes, s, row, speech) && messageId != row
    ensures RowHolds(PlaceUser(nodes, start, messageId, user).nodes, s, row, speech)
  {
    var optimistic := OptimisticUser(nodes, user);
    if optimistic >= 0 {
      ReplacedAside(nodes, optimistic, Node(messageId, User(user)), s, row, speech);
    } else {
      UpsertedAside(nodes, Node(messageId, User(user)), s, row, speech);
    }
  }

  // The lookup of another message elsewhere does not end at the stream's row.
  lemma FindsAnother(nodes: seq<Node>, messageId: string, turn: Option<int>, step: Option<int>, openOnly: bool,
                     s: Stream, row: string, speech: Speech)
    requires AnotherMessage(s, row, messageId) && Elsewhere(s, turn, step)
    ensures var q := ConversationIndex(nodes, messageId, turn, step, openOnly);
            q >= 0 ==> !Speaks(nodes[q], s, row, speech)
                       && (nodes[q].id == messageId || (turn.Some? && step.Some? && nodes[q].body.Assistant?
                                                        && IsOpen(nodes[q])))
  {
  }

  lemma DeltaAside(nodes: seq<Node>, start: Option<nat>, turns: Turns, d: Delta, s: Stream, row: string, speech: Speech)
    requires RowHolds(nodes, s, row, speech)
    requires AnotherMessage(s, row, d.messageId) && Elsewhere(s, d.turn, d.step)
    ensures RowHolds(PlaceDelta(nodes, start, turns, d).nodes, s, row, speech)
  {
    var closed := TurnIsClosed(turns, d.turn);
    var rows := Unmarked(nodes, turns, d.turn);
    UnmarkedAside(nodes, turns, d.turn, s, row, speech);
    if d.delta != "" {
      var timing := NoteFirstToken(turns.timings, d.turn, d.step, d.time);
      var q := ConversationIndex(rows, d.messageId, d.turn, d.step, IsTransient(d));
      if q < 0 {
        AppendedAside(rows, Node(d.messageId, Assistant(NewRow(d, timing, closed))), s, row, speech);
      } else {
        FindsAnother(rows, d.messageId, d.turn, d.step, IsTransient(d), s, row, speech);
        ExtendedElsewhere(rows[q], d, timing, closed, s);
        ReplacedAside(rows, q, ExtendedRow(rows[q], d, timing, closed), s, row, speech);
      }
    }
  }

  lemma ExtendedElsewhere(node: Node, d: Delta, timing: Option<Timing>, closed: bool, s: Stream)
    requires d.messageId != s.messageId && Elsewhere(s, d.turn, d.step)
    requires node.id == d.messageId || (node.body.Assistant? && IsOpen(node))
    ensures NoNewFind(s, node, ExtendedRow(node, d, timing, closed))
  {
  }

  lemma CompletedElsewhere(node: Node, c: Completion, input: Input, timing: Option<Timing>, closed: bool, s: Stream)
    requires c.messageId != s.messageId && Elsewhere(s, c.turn, c.step)
    ensures NoNewFind(s, node, CompletedOver(node, c, input, timing, closed))
  {
  }

  lemma CompletionAside(nodes: seq<Node>, start: Option<nat>, turns: Turns, c: Completion, input: Input, s: Stream,
                        row: string, speech: Speech)
    requires RowHolds(nodes, s, row, speech)
    requires AnotherMessage(s, row, c.messageId) && Elsewhere(s, c.turn, c.step)
    ensures RowHolds(PlaceCompletion(nodes, start, turns, c, input).nodes, s, row, speech)
  {
    var closed := TurnIsClosed(turns, c.turn);
    var rows := Unmarked(nodes, turns, c.turn);
    UnmarkedAside(nodes, turns, c.turn, s, row, speech);
    var timing := CompleteTiming(turns.timings, c.turn, c.step, c.time);
    var q := ConversationIndex(rows, c.messageId, c.turn, c.step, false);
    if q >= 0 {
      FindsAnother(rows, c.messageId, c.turn, c.step, false, s, row, speech);
      CompletedElsewhere(rows[q], c, input, timing, closed, s);
      ReplacedAside(rows, q, CompletedOver(rows[q], c, input, timing, closed), s, row, speech);
    } else if c.markdown.Some? || c.reasoning.Some? || c.images.Some? {
      AppendedAside(rows, Node(c.messageId, Assistant(CompletedRow(c, input.sequence, timing))), s, row, speech);
    }
  }

  lemma AttemptAside(nodes: seq<Node>, start: Option<nat>, turns: Turns, turn: int, step: int, sequence: int,
                     s: Stream, row: string, speech: Speech)
    requires RowHolds(nodes, s, row, speech) && Elsewhere(s, Some(turn), Some(step))
    ensures RowHolds(RemoveAttempt(nodes, start, turns, turn, step, sequence).nodes, s, row, speech)
  {
    var rows := Unmarked(nodes, turns, Some(turn));
    UnmarkedAside(nodes, turns, Some(turn), s, row, speech);
    var index := LastIndex(rows, AttemptAt(turn, step, sequence));
    if index >= 0 {
      RemovedAside(rows, index, s, row, speech);
    }
  }

  lemma ToolAside(nodes: seq<Node>, turns: Turns, callId: string, tool: ToolCall, sequence: int, s: Stream, row: string,
                  speech: Speech)
    requires RowHolds(nodes, s, row, speech) && callId != row
    ensures RowHolds(PlaceTool(nodes, turns, callId, tool, sequence), s, row, speech)
  {
    var rows := Unmarked(nodes, turns, tool.turn);
    UnmarkedAside(nodes, turns, tool.turn, s, row, speech);
    var next := CloseLateTool(tool, turns.closed);
    var index := LastIndex(rows, ToolWithId(callId));
    if index >= 0 {
      var node := Node(callId, Tool(MergeTool(rows[index].body.tool, next), Some(sequence)));
      ReplacedAside(rows, index, node, s, row, speech);
    } else {
      UpsertedAside(rows, Node(callId, Tool(next, Some(sequence))), s, row, speech);
    }
  }

  lemma CompactionAside(nodes: seq<Node>, compactionId: string, compaction: Compaction, s: Stream, row: string,
                        speech: Speech)
    requires RowHolds(nodes, s, row, speech) && row != "compaction:" + compactionId
    ensures RowHolds(PlaceCompaction(nodes, compactionId, compaction), s, row, speech)
  {
    var id := "compaction:" + compactionId;
    var index := LastIndex(nodes, CompactionWithId(id));
    if index >= 0 {
      var node := Node(id, Compacting(MergeCompaction(nodes[index].body.compaction, compaction)));
      ReplacedAside(nodes, index, node, s, row, speech);
    } else {
      UpsertedAside(nodes, Node(id, Compacting(compaction)), s, row, speech);
    }
  }

  lemma RetryAside(nodes: seq<Node>, turns: Turns, r: RetrySignal, sequence: int, s: Stream, row: string,
                   speech: Speech)
    requires RowHolds(nodes, s, row, speech)
    ensures RowHolds(PlaceRetry(nodes, turns, r, sequence), s, row, speech)
  {
    var rows := Unmarked(nodes, turns, Some(r.turn));
    UnmarkedAside(nodes, turns, Some(r.turn), s, row, speech);
    var id := "retry:" + r.id;
    var index := LastIndex(rows, RetryWithId(id));
    var closed := r.turn in turns.closed;
    if index < 0 {
      AppendedAside(rows, Node(id, Retrying(RetryRow(None, r, closed, sequence))), s, row, speech);
    } else {
      var node := Node(id, Retrying(RetryRow(Some(rows[index].body.retry), r, closed, sequence)));
      ReplacedAside(rows, index, node, s, row, speech);
    }
  }

  lemma NoticeAside(nodes: seq<Node>, modes: map<string, CommandMode>, n: NoticeEvent, sequence: int, s: Stream,
                    row: string, speech: Speech)
    requires RowHolds(nodes, s, row, speech)
    requires row != "command-input:" + Decimal(sequence) && row != "notice:" + Decimal(sequence)
    ensures RowHolds(PlaceNotice(nodes, modes, n, sequence), s, row, speech)
  {
    var card := Card("command-input", None, None, n.commandInput.GetOr(""));
    var input := Node("command-input:" + Decimal(sequence), Other(card));
    var notice := Node("notice:" + Decimal(sequence), TimelineNodes.Notice(n.level, n.text));
    UpsertedAside(nodes, input, s, row, speech);
    UpsertedAside(nodes, notice, s, row, speech);
    UpsertedAside(Upserted(nodes, input), notice, s, row, speech);
  }

  // ---- any such event ----

  lemma TurnRowsAside(nodes: seq<Node>, turns: Turns, modes: map<string, CommandMode>, input: Input, s: Stream,
                      row: string, speech: Speech)
    requires RowHolds(nodes, s, row, speech) && Aside(s, row, input)
    requires input.event.TurnStarted? || input.event.TurnEnded? || input.event.StepStarted? || input.event.StepEnded?
             || input.event.ModelRetry?
    ensures RowHolds(RowsAfter(nodes, turns, modes, input), s, row, speech)
  {
    match input.event
    case TurnStarted(turn) => InvalidatedAside(nodes, turn, s, row, speech);
    case TurnEnded(turn, reason, failure) =>
      var usage := TurnUsageAtEnd(turns, turn, reason);
      TurnClosedAside(nodes, turn, reason, failure, input.sequence, usage, s, row, speech);
    case StepStarted(turn, _, _) => UnmarkedAside(nodes, turns, Some(turn), s, row, speech);
    case StepEnded(turn, step) =>
      UnmarkedAside(nodes, turns, Some(turn), s, row, speech);
      StepEndedAside(Unmarked(nodes, turns, Some(turn)), turn, step, input.sequence, s, row, speech);
    case ModelRetry(r) => RetryAside(nodes, turns, r, input.sequence, s, row, speech);
  }

  lemma OtherRowsAside(nodes: seq<Node>, turns: Turns, modes: map<string, CommandMode>, input: Input, s: Stream,
                       row: string, speech: Speech)
    requires RowHolds(nodes, s, row, speech) && Aside(s, row, input)
    requires !input.event.TurnStarted? && !input.event.TurnEnded? && !input.event.StepStarted?
             && !input.event.StepEnded? && !input.event.ModelRetry?
    ensures RowHolds(RowsAfter(nodes, turns, modes, input), s, row, speech)
  {
    match input.event
    case ToolPreparing(p) => UpsertedAside(nodes, PreviewOf(p), s, row, speech);
    case ToolUpdated(callId, tool) => ToolAside(nodes, turns, callId, tool, input.sequence, s, row, speech);
    case CardUpdated(id, card) => UpsertedAside(nodes, CardNode(id, card, input.sequence), s, row, speech);
    case CompactionUpdated(id, compaction) => CompactionAside(nodes, id, compaction, s, row, speech);
    case ConnectionLost(cause) =>
      var node := Node("connection:" + Decimal(input.sequence), TimelineNodes.Notice(Error, cause));
      UpsertedAside(nodes, node, s, row, speech);
    case Noticed(n) => NoticeAside(nodes, modes, n, input.sequence, s, row, speech);
    case UnknownEvent(_, _) => InsertedRowAside(nodes, RawEventNode(input), s, row, speech);
    case _ =>
  }

  lemma RowsAside(nodes: seq<Node>, turns: Turns, modes: map<string, CommandMode>, input: Input, s: Stream, row: string,
                  speech: Speech)
    requires RowHolds(nodes, s, row, speech) && Aside(s, row, input)
    ensures RowHolds(RowsAfter(nodes, turns, modes, input), s, row, speech)
  {
    if input.event.TurnStarted? || input.event.TurnEnded? || input.event.StepStarted? || input.event.StepEnded?
       || input.event.ModelRetry? {
      TurnRowsAside(nodes, turns, modes, input, s, row, speech);
    } else {
      OtherRowsAside(nodes, turns, modes, input, s, row, speech);
    }
  }

  lemma ArrangedAside(nodes: seq<Node>, start: Option<nat>, turns: Turns, modes: map<string, CommandMode>, input: Input,
                      s: Stream, row: string, speech: Speech)
    requires RowHolds(nodes, s, row, speech) && Aside(s, row, input)
    ensures RowHolds(Arrange(nodes, start, turns, modes, input).nodes, s, row, speech)
  {
    match input.event
    case UserMessage(messageId, user) => UserAside(nodes, start, messageId, user, s, row, speech);
    case MessageDelta(d) => DeltaAside(nodes, start, turns, d, s, row, speech);
    case MessageCompleted(c) => CompletionAside(nodes, start, turns, c, input, s, row, speech);
    case AssistantAttempt(turn, step, _) =>
      AttemptAside(nodes, start, turns, turn, step, input.sequence, s, row, speech);
    case _ => RowsAside(nodes, turns, modes, input, s, row, speech);
  }

  // The previews an event retires are no conversation.
  lemma RetainedAside(nodes: seq<Node>, event: Event, s: Stream, row: string, speech: Speech)
    requires RowHolds(nodes, s, row, speech)
    ensures RowHolds(Retained(nodes, event), s, row, speech)
  {
    KeptAside(nodes, RetiredBy(event), s, row, speech);
  }

  lemma NodesAside(state: State, input: Input, s: Stream, row: string, speech: Speech)
    requires RowHolds(state.nodes, s, row, speech) && Aside(s, row, input)
    ensures RowHolds(NodesAfter(state, input).nodes, s, row, speech)
  {
    var kept, first := Retained(state.nodes, input.event), FirstRetired(state.nodes, input.event);
    RetainedAside(state.nodes, input.event, s, row, speech);
    ArrangedAside(kept, first, state.turns, state.commandModes, input, s, row, speech);
  }

  lemma StillAccepts(state: State, input: Input, s: Stream, row: string)
    requires Accepts(state, s) && Aside(s, row, input)
    ensures Accepts(Reduce(state, input), s)
  {
  }

  // Whatever the session does aside, the stream's row is found again and says the same.
  lemma AsideKeepsRow(state: State, input: Input, s: Stream, row: string, speech: Speech)
    requires Accepts(state, s) && RowHolds(state.nodes, s, row, speech) && Aside(s, row, input)
    ensures Accepts(Reduce(state, input), s) && RowHolds(Reduce(state, input).nodes, s, row, speech)
  {
    StillAccepts(state, input, s, row);
    NodesAside(state, input, s, row, speech);
  }
}
