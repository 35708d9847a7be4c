/**
 Closed turns stay closed: over every run, no row of a closed turn streams, none of its tools waits,
 and at most one of its rows is the one to continue from.
 */
module ClosedTurns {
  import opened Filtering
  import opened NodeLookup
  import opened Options
  import opened Reducer
  import opened Runs
  import opened TimelineNodes
  import opened TurnClosure
  import opened TurnLedger
  import opened TurnState

  // The turn each message belongs to.
  type Home = string -> int

  // Deltas, completions and tool updates say which turn they are of, a message always the same one.
  predicate Scoped(event: Event, home: Home) {
    match event
    case MessageDelta(d) => d.turn == Some(home(d.messageId))
    case MessageCompleted(c) => c.turn == Some(home(c.messageId))
    case ToolUpdated(_, tool) => tool.turn.Some?
    case _ => true
  }

  predicate RowSettled(node: Node, closed: set<int>, home: Home) {
    match node.body
    case Assistant(m) => m.turn == Some(home(node.id)) && (home(node.id) in closed ==> !Streams(m))
    case Tool(tool, _) =>
      tool.turn.Some? && tool.turn.value in closed ==> !tool.status.Queued? && !tool.status.Running?
    case _ => true
  }

  function Completions(nodes: seq<Node>, turn: int): nat {
    if nodes == [] then 0
    else Completions(nodes[..|nodes| - 1], turn) + if ContinuesFrom(nodes[|nodes| - 1], turn) then 1 else 0
  }

  predicate RowsSettled(nodes: seq<Node>, closed: set<int>, home: Home) {
    forall i :: 0 <= i < |nodes| ==> RowSettled(nodes[i], closed, home)
  }

  predicate OneCompletionEach(nodes: seq<Node>, closed: set<int>) {
    forall turn :: turn in closed ==> Completions(nodes, turn) <= 1
  }

  predicate ClosedTurnsHold(nodes: seq<Node>, closed: set<int>, home: Home) {
    RowsSettled(nodes, closed, home) && OneCompletionEach(nodes, closed)
  }

  // ---- counting completions ----

  lemma {:induction false} CompletionsAppend(a: seq<Node>, b: seq<Node>, turn: int)
    ensures Completions(a + b, turn) == Completions(a, turn) + Completions(b, turn)
    decreases |b|
  {
    if b == [] {
      assert a + b == a;
    } else {
      assert (a + b)[..|a + b| - 1] == a + b[..|b| - 1];
      CompletionsAppend(a, b[..|b| - 1], turn);
    }
  }

  lemma CompletionsOne(node: Node, turn: int)
    ensures Completions([node], turn) == if ContinuesFrom(node, turn) then 1 else 0
  {
    assert [node][..0] == [];
  }

  lemma {:induction false} CompletionsMonotone(a: seq<Node>, b: seq<Node>, turn: int)
    requires |a| == |b| && forall i :: 0 <= i < |a| && ContinuesFrom(b[i], turn) ==> ContinuesFrom(a[i], turn)
    ensures Completions(b, turn) <= Completions(a, turn)
    decreases |a|
  {
    if a != [] {
      CompletionsMonotone(a[..|a| - 1], b[..|b| - 1], turn);
    }
  }

  lemma {:induction false} CompletionsKept(nodes: seq<Node>, drop: Node -> bool, turn: int)
    ensures Completions(Kept(nodes, drop), turn) <= Completions(nodes, turn)
    decreases |nodes|
  {
    if nodes != [] {
      var init, last := nodes[..|nodes| - 1], nodes[|nodes| - 1];
      CompletionsKept(init, drop, turn);
      CompletionsAppend(Kept(init, drop), if drop(last) then [] else [last], turn);
      CompletionsOne(last, turn);
    }
  }

  // Where only one position can be completed, at most one is.
  lemma {:induction false} CompletionsAtMost(nodes: seq<Node>, turn: int, only: int)
    requires forall i :: 0 <= i < |nodes| && ContinuesFrom(nodes[i], turn) ==> i == only
    ensures Completions(nodes, turn) <= if 0 <= only < |nodes| then 1 else 0
    decreases |nodes|
  {
    if nodes != [] {
      CompletionsAtMost(nodes[..|nodes| - 1], turn, only);
    }
  }

  // ---- what the row operations keep ----

  predicate Plain(node: Node) {
    node.body.Assistant? ==> !node.body.message.turnCompleted
  }

  lemma MappedRows(a: seq<Node>, b: seq<Node>, closed: set<int>, home: Home)
    requires ClosedTurnsHold(a, closed, home) && |a| == |b| && RowsSettled(b, closed, home)
    requires forall i, turn :: 0 <= i < |a| && ContinuesFrom(b[i], turn) && turn in closed ==> ContinuesFrom(a[i], turn)
    ensures ClosedTurnsHold(b, closed, home)
  {
    forall turn | turn in closed ensures Completions(b, turn) <= 1 {
      CompletionsMonotone(a, b, turn);
    }
  }

  lemma ReplacedRow(nodes: seq<Node>, index: nat, node: Node, closed: set<int>, home: Home)
    requires ClosedTurnsHold(nodes, closed, home) && index < |nodes| && RowSettled(node, closed, home)
    requires forall turn :: turn in closed && ContinuesFrom(node, turn) ==> ContinuesFrom(nodes[index], turn)
    ensures ClosedTurnsHold(nodes[index := node], closed, home)
  {
    MappedRows(nodes, nodes[index := node], closed, home);
  }

  lemma JoinedRows(a: seq<Node>, node: Node, b: seq<Node>, closed: set<int>, home: Home)
    requires ClosedTurnsHold(a + b, closed, home) && RowSettled(node, closed, home) && Plain(node)
    ensures ClosedTurnsHold(a + [node] + b, closed, home)
  {
    var all := a + [node] + b;
    forall i | 0 <= i < |all| ensures RowSettled(all[i], closed, home) {
      assert i < |a| ==> all[i] == (a + b)[i];
      assert i > |a| ==> all[i] == (a + b)[i - 1];
    }
    forall turn | turn in closed ensures Completions(all, turn) <= 1 {
      CompletionsAppend(a + [node], b, turn);
      CompletionsAppend(a, [node], turn);
      CompletionsAppend(a, b, turn);
      CompletionsOne(node, turn);
    }
  }

  lemma AppendedRow(nodes: seq<Node>, node: Node, closed: set<int>, home: Home)
    requires ClosedTurnsHold(nodes, closed, home) && RowSettled(node, closed, home) && Plain(node)
    ensures ClosedTurnsHold(nodes + [node], closed, home)
  {
    assert nodes + [] == nodes && nodes + [node] + [] == nodes + [node];
    JoinedRows(nodes, node, [], closed, home);
  }

  lemma UpsertedRow(nodes: seq<Node>, node: Node, closed: set<int>, home: Home)
    requires ClosedTurnsHold(nodes, closed, home) && RowSettled(node, closed, home) && Plain(node)
    ensures ClosedTurnsHold(Upserted(nodes, node), closed, home)
  {
    var index := LastIndex(nodes, AnyWithId(node.id));
    if index < 0 {
      AppendedRow(nodes, node, closed, home);
    } else {
      ReplacedRow(nodes, index, node, closed, home);
    }
  }

  lemma InsertedRow(nodes: seq<Node>, node: Node, closed: set<int>, home: Home)
    requires ClosedTurnsHold(nodes, closed, home) && RowSettled(node, closed, home) && Plain(node)
    ensures ClosedTurnsHold(Inserted(nodes, node), closed, home)
  {
    var existing := FirstWithId(nodes, node.id, 0);
    if existing >= 0 {
      ReplacedRow(nodes, existing, node, closed, home);
    } else if NodeSequence(node).None? {
      AppendedRow(nodes, node, closed, home);
    } else {
      var later := FirstLater(nodes, NodeSequence(node).value, 0);
      if later < 0 {
        AppendedRow(nodes, node, closed, home);
      } else {
        assert nodes[..later] + nodes[later..] == nodes;
        JoinedRows(nodes[..later], node, nodes[later..], closed, home);
      }
    }
  }

  lemma KeptSettled(nodes: seq<Node>, drop: Node -> bool, closed: set<int>, home: Home)
    requires RowsSettled(nodes, closed, home)
    ensures RowsSettled(Kept(nodes, drop), closed, home)
  {
    var kept := Kept(nodes, drop);
    forall i | 0 <= i < |kept| ensures RowSettled(kept[i], closed, home) {
      KeptMembers(nodes, drop, kept[i]);
    }
  }

  lemma KeptRows(nodes: seq<Node>, drop: Node -> bool, closed: set<int>, home: Home)
    requires ClosedTurnsHold(nodes, closed, home)
    ensures ClosedTurnsHold(Kept(nodes, drop), closed, home)
  {
    var kept := Kept(nodes, drop);
    KeptSettled(nodes, drop, closed, home);
    forall turn | turn in closed ensures Completions(kept, turn) <= 1 {
      CompletionsKept(nodes, drop, turn);
    }
  }

  lemma RemovedRow(nodes: seq<Node>, index: nat, closed: set<int>, home: Home)
    requires ClosedTurnsHold(nodes, closed, home) && index < |nodes|
    ensures ClosedTurnsHold(Without(nodes, index), closed, home)
  {
    assert nodes == nodes[..index] + [nodes[index]] + nodes[index + 1..];
    forall turn | turn in closed ensures Completions(Without(nodes, index), turn) <= 1 {
      CompletionsAppend(nodes[..index] + [nodes[index]], nodes[index + 1..], turn);
      CompletionsAppend(nodes[..index], [nodes[index]], turn);
      CompletionsAppend(nodes[..index], nodes[index + 1..], turn);
    }
  }

  lemma UnmarkedRows(nodes: seq<Node>, turns: Turns, turn: Option<int>, home: Home)
    requires ClosedTurnsHold(nodes, turns.closed, home)
    ensures ClosedTurnsHold(Unmarked(nodes, turns, turn), turns.closed, home)
  {
    MappedRows(nodes, Unmarked(nodes, turns, turn), turns.closed, home);
  }

  // ---- one event ----

  lemma DeltaKeeps(nodes: seq<Node>, start: Option<nat>, turns: Turns, d: Delta, home: Home)
    requires ClosedTurnsHold(nodes, turns.closed, home) && d.turn == Some(home(d.messageId))
    ensures ClosedTurnsHold(PlaceDelta(nodes, start, turns, d).nodes, turns.closed, home)
  {
    var rows := Unmarked(nodes, turns, d.turn);
    UnmarkedRows(nodes, turns, d.turn, home);
    if d.delta != "" {
      var timing := NoteFirstToken(turns.timings, d.turn, d.step, d.time);
      var closed := TurnIsClosed(turns, d.turn);
      var index := ConversationIndex(rows, d.messageId, d.turn, d.step, IsTransient(d));
      if index < 0 {
        AppendedRow(rows, Node(d.messageId, Assistant(NewRow(d, timing, closed))), turns.closed, home);
      } else {
        ExtendedRowSettled(rows[index], d, timing, turns, home);
        ReplacedRow(rows, index, ExtendedRow(rows[index], d, timing, closed), turns.closed, home);
      }
    }
  }

  lemma ExtendedRowSettled(node: Node, d: Delta, timing: Option<Timing>, turns: Turns, home: Home)
    requires RowSettled(node, turns.closed, home) && d.turn == Some(home(d.messageId))
    requires node.id == d.messageId || (node.body.Assistant? && node.body.message.turn == d.turn)
    ensures var row := ExtendedRow(node, d, timing, TurnIsClosed(turns, d.turn));
            RowSettled(row, turns.closed, home) && (row == node || Plain(row))
  {
  }

  lemma CompletionKeeps(nodes: seq<Node>, start: Option<nat>, turns: Turns, c: Completion, input: Input, home: Home)
    requires ClosedTurnsHold(nodes, turns.closed, home) && c.turn == Some(home(c.messageId))
    ensures ClosedTurnsHold(PlaceCompletion(nodes, start, turns, c, input).nodes, turns.closed, home)
  {
    var rows := Unmarked(nodes, turns, c.turn);
    UnmarkedRows(nodes, turns, c.turn, home);
    var timing := CompleteTiming(turns.timings, c.turn, c.step, c.time);
    var index := ConversationIndex(rows, c.messageId, c.turn, c.step, false);
    if index >= 0 {
      var row := CompletedOver(rows[index], c, input, timing, TurnIsClosed(turns, c.turn));
      assert RowSettled(row, turns.closed, home);
      ReplacedRow(rows, index, row, turns.closed, home);
    } else {
      AppendedRow(rows, Node(c.messageId, Assistant(CompletedRow(c, input.sequence, timing))), turns.closed, home);
    }
  }

  lemma UserKeeps(nodes: seq<Node>, start: Option<nat>, messageId: string, user: UserBody, closed: set<int>, home: Home)
    requires ClosedTurnsHold(nodes, closed, home)
    ensures ClosedTurnsHold(PlaceUser(nodes, start, messageId, user).nodes, closed, home)
  {
    var node := Node(messageId, User(user));
    var optimistic := OptimisticUser(nodes, user);
    if optimistic >= 0 {
      ReplacedRow(nodes, optimistic, node, closed, home);
    } else {
      UpsertedRow(nodes, node, closed, home);
    }
  }

  lemma ToolKeeps(nodes: seq<Node>, turns: Turns, callId: string, tool: ToolCall, sequence: int, home: Home)
    requires ClosedTurnsHold(nodes, turns.closed, home) && tool.turn.Some?
    ensures ClosedTurnsHold(PlaceTool(nodes, turns, callId, tool, sequence), turns.closed, home)
  {
    var rows := Unmarked(nodes, turns, tool.turn);
    UnmarkedRows(nodes, turns, tool.turn, home);
    var next := CloseLateTool(tool, turns.closed);
    var index := LastIndex(rows, ToolWithId(callId));
    if index >= 0 {
      ReplacedRow(rows, index, Node(callId, Tool(MergeTool(rows[index].body.tool, next), Some(sequence))), turns.closed,
                  home);
    } else {
      UpsertedRow(rows, Node(callId, Tool(next, Some(sequence))), turns.closed, home);
    }
  }

  lemma RetryKeeps(nodes: seq<Node>, turns: Turns, r: RetrySignal, sequence: int, home: Home)
    requires ClosedTurnsHold(nodes, turns.closed, home)
    ensures ClosedTurnsHold(PlaceRetry(nodes, turns, r, sequence), turns.closed, home)
  {
    var rows := Unmarked(nodes, turns, Some(r.turn));
    UnmarkedRows(nodes, turns, Some(r.turn), home);
    var id := "retry:" + r.id;
    var index := LastIndex(rows, RetryWithId(id));
    var closed := r.turn in turns.closed;
    if index < 0 {
      AppendedRow(rows, Node(id, Retrying(RetryRow(None, r, closed, sequence))), turns.closed, home);
    } else {
      ReplacedRow(rows, index, Node(id, Retrying(RetryRow(Some(rows[index].body.retry), r, closed, sequence))),
                  turns.closed, home);
    }
  }

  lemma NoticeKeeps(nodes: seq<Node>, modes: map<string, CommandMode>, n: NoticeEvent, sequence: int, closed: set<int>,
                    home: Home)
    requires ClosedTurnsHold(nodes, closed, home)
    ensures ClosedTurnsHold(PlaceNotice(nodes, modes, n, sequence), closed, home)
  {
    var rows := nodes;
    if n.commandInput.Some? && ModeOf(modes, n).None? {
      var node :=
        Node("command-input:" + Decimal(sequence), Other(Card("command-input", None, None, n.commandInput.value)));
      rows := Upserted(nodes, node);
      UpsertedRow(nodes, node, closed, home);
    }
    UpsertedRow(rows, Node("notice:" + Decimal(sequence), TimelineNodes.Notice(n.level, n.text)), closed, home);
  }

  lemma CompactionKeeps(nodes: seq<Node>, id: string, compaction: Compaction, closed: set<int>, home: Home)
    requires ClosedTurnsHold(nodes, closed, home)
    ensures ClosedTurnsHold(PlaceCompaction(nodes, id, compaction), closed, home)
  {
    var full := "compaction:" + id;
    var index := LastIndex(nodes, CompactionWithId(full));
    if index >= 0 {
      ReplacedRow(nodes, index, Node(full, Compacting(MergeCompaction(nodes[index].body.compaction, compaction))),
                  closed, home);
    } else {
      UpsertedRow(nodes, Node(full, Compacting(compaction)), closed, home);
    }
  }

  lemma StepEndKeeps(nodes: seq<Node>, turns: Turns, turn: int, step: int, sequence: int, home: Home)
    requires ClosedTurnsHold(nodes, turns.closed, home)
    ensures ClosedTurnsHold(StepEndedRows(Unmarked(nodes, turns, Some(turn)), turn, step, sequence), turns.closed, home)
  {
    var rows := Unmarked(nodes, turns, Some(turn));
    UnmarkedRows(nodes, turns, Some(turn), home);
    MappedRows(rows, StepEndedRows(rows, turn, step, sequence), turns.closed, home);
  }

  lemma AttemptKeeps(nodes: seq<Node>, start: Option<nat>, turns: Turns, turn: int, step: int, sequence: int,
                     home: Home)
    requires ClosedTurnsHold(nodes, turns.closed, home)
    ensures ClosedTurnsHold(RemoveAttempt(nodes, start, turns, turn, step, sequence).nodes, turns.closed, home)
  {
    var rows := Unmarked(nodes, turns, Some(turn));
    UnmarkedRows(nodes, turns, Some(turn), home);
    var index := LastIndex(rows, AttemptAt(turn, step, sequence));
    if index >= 0 {
      RemovedRow(rows, index, turns.closed, home);
    }
  }

  lemma TerminalKeeps(nodes: seq<Node>, turn: int, reason: EndReason, failure: Option<string>, sequence: int,
                      closed: set<int>, home: Home)
    requires ClosedTurnsHold(nodes, closed, home)
    ensures ClosedTurnsHold(WithTerminal(nodes, turn, reason, failure, sequence), closed, home)
  {
    var node := Node(TerminalId(turn), Ended(Terminal(turn, sequence, reason, failure)));
    UpsertedRow(nodes, node, closed, home);
    if !reason.TurnCompleted? && reason.TurnError? && failure.Some? {
      KeptRows(Upserted(nodes, node), ClaimedBy(TextKey(failure.value)), closed, home);
    }
  }

  // Rows that are settled for the turn are settled once it counts as closed, however often it completed.
  lemma SettlingKeeps(nodes: seq<Node>, turn: int, reason: EndReason, sequence: int, closed: set<int>, home: Home)
    requires ClosedTurnsHold(nodes, closed, home)
    ensures RowsSettled(SettledRows(nodes, turn, reason, sequence), closed + {turn}, home)
    ensures OneCompletionEach(SettledRows(nodes, turn, reason, sequence), closed - {turn})
  {
    var rows := SettledRows(nodes, turn, reason, sequence);
    forall t | t in closed - {turn} ensures Completions(rows, t) <= 1 {
      CompletionsMonotone(nodes, rows, t);
    }
  }

  lemma MarkingKeeps(nodes: seq<Node>, turn: int, reason: EndReason, usage: Option<Normalized>, closed: set<int>,
                     home: Home)
    requires RowsSettled(nodes, closed + {turn}, home) && OneCompletionEach(nodes, closed - {turn})
    ensures ClosedTurnsHold(Marked(nodes, turn, reason, usage), closed + {turn}, home)
  {
    var marked := Marked(nodes, turn, reason, usage);
    forall t | t in closed + {turn} ensures Completions(marked, t) <= 1 {
      if t == turn {
        CompletionsAtMost(marked, turn, ClosingIndex(nodes, turn));
      } else {
        CompletionsMonotone(nodes, marked, t);
      }
    }
  }

  lemma EndKeeps(nodes: seq<Node>, turn: int, reason: EndReason, failure: Option<string>, sequence: int,
                 usage: Option<Normalized>,
                 closed: set<int>, home: Home)
    requires ClosedTurnsHold(nodes, closed, home)
    ensures ClosedTurnsHold(TurnClosed(nodes, turn, reason, failure, sequence, usage), closed + {turn}, home)
  {
    var settled := SettledRows(nodes, turn, reason, sequence);
    SettlingKeeps(nodes, turn, reason, sequence, closed, home);
    TerminalAllRows(settled, turn, reason, failure, sequence, closed, home);
    MarkingKeeps(WithTerminal(settled, turn, reason, failure, sequence), turn, reason, usage, closed, home);
  }

  lemma TerminalRows(nodes: seq<Node>, turn: int, reason: EndReason, failure: Option<string>, sequence: int,
                     closed: set<int>, home: Home)
    requires RowsSettled(nodes, closed, home)
    ensures RowsSettled(WithTerminal(nodes, turn, reason, failure, sequence), closed, home)
  {
    var ended := Upserted(nodes, Node(TerminalId(turn), Ended(Terminal(turn, sequence, reason, failure))));
    assert RowsSettled(ended, closed, home);
    if !reason.TurnCompleted? && reason.TurnError? && failure.Some? {
      KeptSettled(ended, ClaimedBy(TextKey(failure.value)), closed, home);
    }
  }

  lemma TerminalAllRows(nodes: seq<Node>, turn: int, reason: EndReason, failure: Option<string>, sequence: int,
                        closed: set<int>, home: Home)
    requires RowsSettled(nodes, closed + {turn}, home) && OneCompletionEach(nodes, closed - {turn})
    ensures RowsSettled(WithTerminal(nodes, turn, reason, failure, sequence), closed + {turn}, home)
    ensures OneCompletionEach(WithTerminal(nodes, turn, reason, failure, sequence), closed - {turn})
  {
    TerminalRows(nodes, turn, reason, failure, sequence, closed + {turn}, home);
    FewerClosed(nodes, closed - {turn}, closed + {turn}, home);
    TerminalKeeps(nodes, turn, reason, failure, sequence, closed - {turn}, home);
  }

  lemma FewerClosed(nodes: seq<Node>, fewer: set<int>, closed: set<int>, home: Home)
    requires RowsSettled(nodes, closed, home) && fewer <= closed
    ensures RowsSettled(nodes, fewer, home)
  {
  }

  predicate TurnRow(event: Event) {
    event.TurnStarted? || event.StepStarted? || event.StepEnded? || event.ToolPreparing? || event.ToolUpdated?
  }

  lemma TurnRowsKeep(nodes: seq<Node>, turns: Turns, modes: map<string, CommandMode>, input: Input, home: Home)
    requires ClosedTurnsHold(nodes, turns.closed, home) && Scoped(input.event, home)
    requires TurnRow(input.event)
    ensures ClosedTurnsHold(RowsAfter(nodes, turns, modes, input), ClosedAfter(turns, input.event), home)
  {
    match input.event
    case TurnStarted(turn) => MappedRows(nodes, TailInvalidated(nodes, turn), ClosedAfter(turns, input.event), home);
    case StepStarted(turn, _, _) => UnmarkedRows(nodes, turns, Some(turn), home);
    case StepEnded(turn, step) => StepEndKeeps(nodes, turns, turn, step, input.sequence, home);
    case ToolPreparing(p) =>
      if p.turn !in turns.closed {
        UpsertedRow(nodes, PreviewOf(p), turns.closed, home);
      }
    case ToolUpdated(callId, tool) => ToolKeeps(nodes, turns, callId, tool, input.sequence, home);
    case _ =>
  }

  lemma RowsKeep(nodes: seq<Node>, turns: Turns, modes: map<string, CommandMode>, input: Input, home: Home)
    requires ClosedTurnsHold(nodes, turns.closed, home)
    requires !input.event.TurnEnded? && !TurnRow(input.event)
    ensures ClosedTurnsHold(RowsAfter(nodes, turns, modes, input), ClosedAfter(turns, input.event), home)
  {
    match input.event
    case CardUpdated(id, card) => UpsertedRow(nodes, CardNode(id, card, input.sequence), turns.closed, home);
    case CompactionUpdated(id, compaction) => CompactionKeeps(nodes, id, compaction, turns.closed, home);
    case ModelRetry(r) => RetryKeeps(nodes, turns, r, input.sequence, home);
    case ConnectionLost(cause) =>
      UpsertedRow(nodes, Node("connection:" + Decimal(input.sequence), TimelineNodes.Notice(Error, cause)),
                  turns.closed, home);
    case Noticed(n) => NoticeKeeps(nodes, modes, n, input.sequence, turns.closed, home);
    case UnknownEvent(_, _) => InsertedRow(nodes, RawEventNode(input), turns.closed, home);
    case _ =>
  }

  lemma ArrangeKeeps(nodes: seq<Node>, start: Option<nat>, turns: Turns, modes: map<string, CommandMode>, input: Input,
                     home: Home)
    requires ClosedTurnsHold(nodes, turns.closed, home) && Scoped(input.event, home)
    ensures ClosedTurnsHold(Arrange(nodes, start, turns, modes, input).nodes, ClosedAfter(turns, input.event), home)
  {
    match input.event
    case UserMessage(messageId, user) => UserKeeps(nodes, start, messageId, user, turns.closed, home);
    case MessageDelta(d) => DeltaKeeps(nodes, start, turns, d, home);
    case MessageCompleted(c) => CompletionKeeps(nodes, start, turns, c, input, home);
    case AssistantAttempt(turn, step, _) => AttemptKeeps(nodes, start, turns, turn, step, input.sequence, home);
    case TurnEnded(turn, reason, failure) =>
      EndKeeps(nodes, turn, reason, failure, input.sequence, TurnUsageAtEnd(turns, turn, reason), turns.closed, home);
    case _ =>
      if TurnRow(input.event) {
        TurnRowsKeep(nodes, turns, modes, input, home);
      } else {
        RowsKeep(nodes, turns, modes, input, home);
      }
  }

  lemma StepKeeps(state: State, input: Input, home: Home)
    requires ClosedTurnsHold(state.nodes, state.turns.closed, home) && Scoped(input.event, home)
    ensures var next := Reduce(state, input);
            ClosedTurnsHold(next.nodes, next.turns.closed, home)
  {
    if !Ignored(state, input) && MayChangeNodes(state, input.event) {
      KeptRows(state.nodes, RetiredBy(input.event), state.turns.closed, home);
      ArrangeKeeps(Retained(state.nodes, input.event), FirstRetired(state.nodes, input.event), state.turns,
                   state.commandModes,
                   input, home);
    }
  }

  // The main result: it holds in every state of every run.
  lemma ClosedTurnsStayClosed(state: State, inputs: seq<Input>, home: Home)
    requires ClosedTurnsHold(state.nodes, state.turns.closed, home)
    requires forall i :: 0 <= i < |inputs| ==> Scoped(inputs[i].event, home)
    ensures var last := ReduceAll(state, inputs);
            ClosedTurnsHold(last.nodes, last.turns.closed, home)
  {
    var holds := (s: State, past: seq<Input>) => ClosedTurnsHold(s.nodes, s.turns.closed, home);
    forall s: State, past: seq<Input>, input: Input | holds(s, past) && Scoped(input.event, home)
      ensures holds(Reduce(s, input), past + [input])
    {
      StepKeeps(s, input, home);
    }
    RunKeeps(Reduce, holds, (input: Input) => Scoped(input.event, home), state, inputs, 0);
  }

  lemma {:induction false} CompletedOnce(nodes: seq<Node>, turn: int, i: nat)
    requires i < |nodes| && ContinuesFrom(nodes[i], turn)
    ensures Completions(nodes, turn) >= 1
    decreases |nodes|
  {
    if i < |nodes| - 1 {
      CompletedOnce(nodes[..|nodes| - 1], turn, i);
    }
  }

  // What the count says of rows.
  lemma {:induction false} CompletedTwice(nodes: seq<Node>, turn: int, i: nat, j: nat)
    requires i < j < |nodes| && ContinuesFrom(nodes[i], turn) && ContinuesFrom(nodes[j], turn)
    ensures Completions(nodes, turn) >= 2
    decreases |nodes|
  {
    if j < |nodes| - 1 {
      CompletedTwice(nodes[..|nodes| - 1], turn, i, j);
    } else {
      CompletedOnce(nodes[..|nodes| - 1], turn, i);
    }
  }
}
