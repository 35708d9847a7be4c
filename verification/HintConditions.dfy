/**
 When the change hint of the other events is right: exactly when nothing is rewritten before it. The hint is where the
 first retired preview was, and no arm but those of `ChangeHints` lowers it for what it rewrites.
 */
module HintConditions {
  import opened ChangeHints
  import opened Filtering
  import opened NodeLookup
  import opened Options
  import opened Reducer
  import opened TimelineNodes
  import opened TurnClosure
  import opened TurnLedger
  import opened TurnState

  predicate MarkedInTurn(node: Node, turn: int) {
    OfTurn(node, turn) && (node.body.message.turnCompleted || node.body.message.turnUsage.Some?)
  }

  predicate LosesMark(node: Node, turns: Turns, turn: int) {
    turn in turns.closed && MarkedInTurn(node, turn)
  }

  // ---- what each arm rewrites ----

  // A streaming row of the turn, or a tool of it that never settled.
  predicate Settles(node: Node, turn: int) {
    || (OfTurn(node, turn) && Streams(node.body.message))
    || (node.body.Tool? && node.body.tool.turn == Some(turn)
        && (node.body.tool.status.Queued? || node.body.tool.status.Running?))
  }

  // A streaming row of the step, or a retry of it that is waiting.
  predicate StopsWithStep(node: Node, turn: int, step: int) {
    || (OfTurn(node, turn) && node.body.message.step == Some(step) && Streams(node.body.message))
    || (node.body.Retrying? && node.body.retry.turn == turn && node.body.retry.step == step
        && node.body.retry.state.RetryWaiting?)
  }

  // The row the upsert of `node` finds, unless it is that very row.
  predicate ReplacedBy(nodes: seq<Node>, node: Node, i: nat)
    requires i < |nodes|
  {
    i == LastIndex(nodes, AnyWithId(node.id)) && nodes[i] != node
  }

  function TerminalOf(event: Event, sequence: int): Node
    requires event.TurnEnded?
  {
    Node(TerminalId(event.turn), Ended(Terminal(event.turn, sequence, event.reason, event.failure)))
  }

  predicate TakesAway(event: Event, node: Node)
    requires event.TurnEnded?
  {
    && event.reason.TurnError? && event.failure.Some?
    && TextKey(event.failure.value) != "" && ClaimsFailure(node, TextKey(event.failure.value))
  }

  // The rows of a turn that has ended, before one of them is marked.
  function EndedRows(nodes: seq<Node>, event: Event, sequence: int): seq<Node>
    requires event.TurnEnded?
  {
    WithTerminal(SettledRows(nodes, event.turn, event.reason, sequence), event.turn, event.reason, event.failure,
                 sequence)
  }

  // The one row of a turn that may be continued from gets the mark and the total; the others lose theirs.
  predicate Remarks(nodes: seq<Node>, turns: Turns, event: Event, sequence: int, i: nat)
    requires event.TurnEnded? && i < |nodes|
  {
    && OfTurn(nodes[i], event.turn)
    && var ended := EndedRows(nodes, event, sequence);
       var closes := i == ClosingIndex(ended, event.turn);
       || nodes[i].body.message.turnCompleted != (closes && Continuable(ended, event.turn, event.reason))
       || nodes[i].body.message.turnUsage
          != if closes && event.reason.TurnCompleted? then TurnUsageAtEnd(turns, event.turn, event.reason) else None
  }

  function RetryNode(nodes: seq<Node>, turns: Turns, r: RetrySignal, sequence: int, i: nat): Node
    requires i < |nodes| && nodes[i].body.Retrying?
  {
    Node("retry:" + r.id, Retrying(RetryRow(Some(nodes[i].body.retry), r, r.turn in turns.closed, sequence)))
  }

  // Whether the event rewrites row `i`, or takes it away.
  predicate Rewrites(nodes: seq<Node>, turns: Turns, input: Input, i: nat)
    requires i < |nodes|
  {
    match input.event
    case TurnEnded(turn, reason, _) =>
      || Settles(nodes[i], turn) || TakesAway(input.event, nodes[i])
      || (!reason.TurnCompleted? && ReplacedBy(nodes, TerminalOf(input.event, input.sequence), i))
      || Remarks(nodes, turns, input.event, input.sequence, i)
    case StepEnded(turn, step) => LosesMark(nodes[i], turns, turn) || StopsWithStep(nodes[i], turn, step)
    case ModelRetry(r) =>
      || LosesMark(nodes[i], turns, r.turn)
      || (i == LastIndex(nodes, RetryWithId("retry:" + r.id))
          && nodes[i] != RetryNode(nodes, turns, r, input.sequence, i))
    case ToolPreparing(p) =>
      p.turn !in turns.closed && !PreviewIsStale(nodes, p) && ReplacedBy(nodes, PreviewOf(p), i)
    case ConnectionLost(cause) => ReplacedBy(nodes, LossNotice(cause, input.sequence), i)
    case _ => false
  }

  function LossNotice(cause: string, sequence: int): Node {
    Node("connection:" + Decimal(sequence), TimelineNodes.Notice(Error, cause))
  }

  predicate RewritesBefore(nodes: seq<Node>, turns: Turns, input: Input, count: nat) {
    exists i: nat :: i < count && i < |nodes| && Rewrites(nodes, turns, input, i)
  }

  // ---- arm by arm ----

  lemma UpsertRewrites(nodes: seq<Node>, node: Node, count: nat)
    requires count <= |nodes|
    ensures Agree(nodes, Upserted(nodes, node), count) <==> forall i: nat :: i < count ==> !ReplacedBy(nodes, node, i)
  {
    var at, rows := LastIndex(nodes, AnyWithId(node.id)), Upserted(nodes, node);
    if 0 <= at < count {
      assert rows[at] == node;
      assert ReplacedBy(nodes, node, at) == (nodes[at] != node);
    }
  }

  lemma StepEndRewrites(nodes: seq<Node>, turns: Turns, turn: int, step: int, sequence: int, i: nat)
    requires i < |nodes|
    ensures StepEndedRows(Unmarked(nodes, turns, Some(turn)), turn, step, sequence)[i] == nodes[i]
       <==> !LosesMark(nodes[i], turns, turn) && !StopsWithStep(nodes[i], turn, step)
  {
  }

  lemma {:induction false} SameLast(a: seq<Node>, b: seq<Node>, query: Query)
    requires |a| == |b| && forall i :: 0 <= i < |a| ==> Matches(query, a[i]) == Matches(query, b[i])
    ensures LastIndex(a, query) == LastIndex(b, query)
    decreases |a|
  {
    if a != [] {
      SameLast(a[..|a| - 1], b[..|b| - 1], query);
    }
  }

  lemma UnmarkedAt(nodes: seq<Node>, turns: Turns, turn: int, i: nat)
    requires i < |nodes|
    ensures var rows := Unmarked(nodes, turns, Some(turn));
      && |rows| == |nodes| && (rows[i] == nodes[i] <==> !LosesMark(nodes[i], turns, turn))
      && (!nodes[i].body.Assistant? ==> rows[i] == nodes[i])
  {
  }

  lemma UnmarkedKeepsRetry(nodes: seq<Node>, turns: Turns, turn: int, id: string)
    ensures LastIndex(Unmarked(nodes, turns, Some(turn)), RetryWithId(id)) == LastIndex(nodes, RetryWithId(id))
  {
    var rows := Unmarked(nodes, turns, Some(turn));
    forall i | 0 <= i < |nodes| ensures Matches(RetryWithId(id), nodes[i]) == Matches(RetryWithId(id), rows[i]) {
    }
    SameLast(nodes, rows, RetryWithId(id));
  }

  // The row found is a retry row, so unmarking has left it alone.
  lemma RetryRewrites(nodes: seq<Node>, turns: Turns, r: RetrySignal, sequence: int, i: nat)
    requires i < |nodes|
    ensures |PlaceRetry(nodes, turns, r, sequence)| >= |nodes|
    ensures PlaceRetry(nodes, turns, r, sequence)[i] == nodes[i]
       <==> !LosesMark(nodes[i], turns, r.turn)
            && !(i == LastIndex(nodes, RetryWithId("retry:" + r.id))
                 && nodes[i] != RetryNode(nodes, turns, r, sequence, i))
  {
    var id, rows := "retry:" + r.id, Unmarked(nodes, turns, Some(r.turn));
    var at := LastIndex(nodes, RetryWithId(id));
    UnmarkedKeepsRetry(nodes, turns, r.turn, id);
    UnmarkedAt(nodes, turns, r.turn, i);
    if i == at {
      assert Matches(RetryWithId(id), nodes[i]);
      assert PlaceRetry(nodes, turns, r, sequence)[i] == RetryNode(nodes, turns, r, sequence, i);
    } else {
      assert PlaceRetry(nodes, turns, r, sequence)[i] == rows[i];
    }
  }

  // ---- the end of a turn ----

  lemma SettledAt(nodes: seq<Node>, turn: int, reason: EndReason, sequence: int, i: nat)
    requires i < |nodes|
    ensures var rows := SettledRows(nodes, turn, reason, sequence);
      && (rows[i] == nodes[i] <==> !Settles(nodes[i], turn))
      && rows[i].id == nodes[i].id && (nodes[i].body.Notice? ==> rows[i] == nodes[i])
  {
  }

  lemma SettledShows(nodes: seq<Node>, event: Event, sequence: int, mark: bool, usage: Option<Normalized>, i: nat)
    requires event.TurnEnded? && i < |nodes| && Settles(nodes[i], event.turn)
    ensures MarkedRow(SettledRows(nodes, event.turn, event.reason, sequence)[i], event.turn, mark, usage) != nodes[i]
  {
  }

  // The row for the terminal, before any notice goes.
  function WithEnd(nodes: seq<Node>, event: Event, sequence: int): seq<Node>
    requires event.TurnEnded?
  {
    var settled := SettledRows(nodes, event.turn, event.reason, sequence);
    if event.reason.TurnCompleted? then settled else Upserted(settled, TerminalOf(event, sequence))
  }

  predicate IsEndedRow(event: Event, nodes: seq<Node>, i: nat)
    requires event.TurnEnded? && i < |nodes|
  {
    !event.reason.TurnCompleted? && i == LastIndex(nodes, AnyWithId(TerminalId(event.turn)))
  }

  lemma WithEndAt(nodes: seq<Node>, event: Event, sequence: int, i: nat)
    requires event.TurnEnded? && i < |nodes|
    ensures var rows := WithEnd(nodes, event, sequence);
      && |rows| >= |nodes|
      && rows[i] == if IsEndedRow(event, nodes, i) then TerminalOf(event, sequence)
                    else SettledRows(nodes, event.turn, event.reason, sequence)[i]
  {
    var settled := SettledRows(nodes, event.turn, event.reason, sequence);
    SameLast(nodes, settled, AnyWithId(TerminalId(event.turn)));
  }

  // The error notices of its own failure that the end takes away.
  predicate Drops(event: Event)
    requires event.TurnEnded?
  {
    event.reason.TurnError? && event.failure.Some? && TextKey(event.failure.value) != ""
  }

  lemma EndedIs(nodes: seq<Node>, event: Event, sequence: int)
    requires event.TurnEnded?
    ensures EndedRows(nodes, event, sequence)
         == if Drops(event) then Kept(WithEnd(nodes, event, sequence), ClaimedBy(TextKey(event.failure.value)))
            else WithEnd(nodes, event, sequence)
  {
  }

  lemma NothingTaken(nodes: seq<Node>, event: Event, sequence: int, count: nat)
    requires event.TurnEnded? && count <= |nodes|
    requires forall j: nat :: j < count && j < |WithEnd(nodes, event, sequence)| ==>
               !TakesAway(event, WithEnd(nodes, event, sequence)[j])
    ensures Agree(WithEnd(nodes, event, sequence), EndedRows(nodes, event, sequence), count)
  {
    var rows := WithEnd(nodes, event, sequence);
    EndedIs(nodes, event, sequence);
    assert |rows| >= |nodes|;
    if Drops(event) {
      var drop := ClaimedBy(TextKey(event.failure.value));
      KeptPrefix(rows, drop);
      var first, kept := FirstMatch(rows, drop), Kept(rows, drop);
      if first < count {
        assert TakesAway(event, rows[first]);
        assert false;
      }
      forall i | 0 <= i < count ensures i < |kept| && kept[i] == rows[i] {
        assert kept[..first][i] == rows[..first][i];
      }
    }
  }

  // Where a notice goes, a row that is no such notice takes its place.
  lemma TakenMoves(nodes: seq<Node>, event: Event, sequence: int, marked: seq<Node>, j: nat)
    requires event.TurnEnded? && j < |nodes| && TakesAway(event, nodes[j]) && !IsEndedRow(event, nodes, j)
    requires |marked| == |EndedRows(nodes, event, sequence)|
    requires forall i :: 0 <= i < |marked| && TakesAway(event, marked[i]) ==>
               TakesAway(event, EndedRows(nodes, event, sequence)[i])
    ensures !Agree(nodes, marked, j + 1)
  {
    var rows, drop := WithEnd(nodes, event, sequence), ClaimedBy(TextKey(event.failure.value));
    EndedIs(nodes, event, sequence);
    WithEndAt(nodes, event, sequence, j);
    SettledAt(nodes, event.turn, event.reason, sequence, j);
    var first := FirstMatch(rows, drop);
    assert first <= j;
    WithEndAt(nodes, event, sequence, first);
    SettledAt(nodes, event.turn, event.reason, sequence, first);
    assert TakesAway(event, nodes[first]);
    if j < |marked| {
      var ended := EndedRows(nodes, event, sequence);
      assert ended[first] in ended;
      KeptMembers(rows, drop, ended[first]);
      assert !TakesAway(event, marked[first]);
    }
  }

  lemma ClosedAt(nodes: seq<Node>, turns: Turns, event: Event, sequence: int, i: nat)
    requires event.TurnEnded? && i < |nodes|
    requires i < |EndedRows(nodes, event, sequence)|
             && EndedRows(nodes, event, sequence)[i] == WithEnd(nodes, event, sequence)[i]
    ensures var usage := TurnUsageAtEnd(turns, event.turn, event.reason);
      TurnClosed(nodes, event.turn, event.reason, event.failure, sequence, usage)[i] == nodes[i]
      <==> && !Settles(nodes[i], event.turn) && !Remarks(nodes, turns, event, sequence, i)
           && !(!event.reason.TurnCompleted? && ReplacedBy(nodes, TerminalOf(event, sequence), i))
  {
    var usage := TurnUsageAtEnd(turns, event.turn, event.reason);
    var ended := EndedRows(nodes, event, sequence);
    var closes := i == ClosingIndex(ended, event.turn);
    var mark := closes && Continuable(ended, event.turn, event.reason);
    var total := if closes && event.reason.TurnCompleted? then usage else None;
    assert TurnClosed(nodes, event.turn, event.reason, event.failure, sequence, usage)[i]
        == MarkedRow(ended[i], event.turn, mark, total);
    WithEndAt(nodes, event, sequence, i);
    SettledAt(nodes, event.turn, event.reason, sequence, i);
    if Settles(nodes[i], event.turn) {
      SettledShows(nodes, event, sequence, mark, total, i);
    }
  }

  // A notice that goes is one the end finds where it was.
  lemma TakenAt(nodes: seq<Node>, event: Event, sequence: int, j: nat)
    requires event.TurnEnded? && j < |nodes|
    ensures j < |WithEnd(nodes, event, sequence)|
    ensures TakesAway(event, WithEnd(nodes, event, sequence)[j])
            <==> TakesAway(event, nodes[j]) && !IsEndedRow(event, nodes, j)
  {
    WithEndAt(nodes, event, sequence, j);
    SettledAt(nodes, event.turn, event.reason, sequence, j);
  }

  lemma MarkingTakesNothing(nodes: seq<Node>, turns: Turns, event: Event, sequence: int)
    requires event.TurnEnded?
    ensures var ended := EndedRows(nodes, event, sequence);
      var closed := TurnClosed(nodes, event.turn, event.reason, event.failure, sequence,
                               TurnUsageAtEnd(turns, event.turn, event.reason));
      && |closed| == |ended|
      && (forall i :: 0 <= i < |closed| && TakesAway(event, closed[i]) ==> TakesAway(event, ended[i]))
  {
  }

  predicate TakesBefore(nodes: seq<Node>, event: Event, count: nat)
    requires event.TurnEnded?
  {
    exists j: nat :: j < count && j < |nodes| && TakesAway(event, nodes[j]) && !IsEndedRow(event, nodes, j)
  }

  lemma TakingMoves(nodes: seq<Node>, turns: Turns, event: Event, sequence: int, count: nat)
    requires event.TurnEnded? && TakesBefore(nodes, event, count)
    ensures var usage := TurnUsageAtEnd(turns, event.turn, event.reason);
      !Agree(nodes, TurnClosed(nodes, event.turn, event.reason, event.failure, sequence, usage), count)
  {
    var usage := TurnUsageAtEnd(turns, event.turn, event.reason);
    var j: nat :| j < count && j < |nodes| && TakesAway(event, nodes[j]) && !IsEndedRow(event, nodes, j);
    MarkingTakesNothing(nodes, turns, event, sequence);
    TakenMoves(nodes, event, sequence, TurnClosed(nodes, event.turn, event.reason, event.failure, sequence, usage), j);
  }

  lemma StaysAt(nodes: seq<Node>, event: Event, sequence: int, count: nat)
    requires event.TurnEnded? && count <= |nodes| && !TakesBefore(nodes, event, count)
    ensures Agree(WithEnd(nodes, event, sequence), EndedRows(nodes, event, sequence), count)
  {
    forall j: nat | j < count
      ensures j < |WithEnd(nodes, event, sequence)| && !TakesAway(event, WithEnd(nodes, event, sequence)[j]) {
      TakenAt(nodes, event, sequence, j);
    }
    NothingTaken(nodes, event, sequence, count);
  }

  lemma ClosingRewrites(nodes: seq<Node>, turns: Turns, input: Input, count: nat)
    requires input.event.TurnEnded? && count <= |nodes|
    ensures Agree(nodes, RowsAfter(nodes, turns, map[], input), count) <==> !RewritesBefore(nodes, turns, input, count)
  {
    var event, sequence := input.event, input.sequence;
    var closed := RowsAfter(nodes, turns, map[], input);
    if TakesBefore(nodes, event, count) {
      TakingMoves(nodes, turns, event, sequence, count);
      var j: nat :| j < count && j < |nodes| && TakesAway(event, nodes[j]) && !IsEndedRow(event, nodes, j);
      assert Rewrites(nodes, turns, input, j);
    } else {
      StaysAt(nodes, event, sequence, count);
      MarkingTakesNothing(nodes, turns, event, sequence);
      forall i: nat | i < count ensures i < |closed| && (closed[i] == nodes[i] <==> !Rewrites(nodes, turns, input, i)) {
        ClosedAt(nodes, turns, event, sequence, i);
        TakenIsReplaced(nodes, event, sequence, count, i);
      }
    }
  }

  lemma TakenIsReplaced(nodes: seq<Node>, event: Event, sequence: int, count: nat, i: nat)
    requires event.TurnEnded? && i < count <= |nodes| && !TakesBefore(nodes, event, count)
    ensures TakesAway(event, nodes[i]) ==>
              !event.reason.TurnCompleted? && ReplacedBy(nodes, TerminalOf(event, sequence), i)
  {
  }

  // ---- every arm ----

  predicate Plain(event: Event) {
    !event.UserMessage? && !event.MessageDelta? && !event.MessageCompleted? && !event.AssistantAttempt?
  }

  lemma PreparingRewrites(nodes: seq<Node>, turns: Turns, modes: map<string, CommandMode>, input: Input, count: nat)
    requires input.event.ToolPreparing? && count <= |nodes|
    ensures Agree(nodes, RowsAfter(nodes, turns, modes, input), count) <==> !RewritesBefore(nodes, turns, input, count)
  {
    var p := input.event.preparing;
    UpsertRewrites(nodes, PreviewOf(p), count);
    forall i: nat | i < count && p.turn !in turns.closed && !PreviewIsStale(nodes, p)
      ensures Rewrites(nodes, turns, input, i) == ReplacedBy(nodes, PreviewOf(p), i)
    {
    }
  }

  lemma LossRewrites(nodes: seq<Node>, turns: Turns, modes: map<string, CommandMode>, input: Input, count: nat)
    requires input.event.ConnectionLost? && count <= |nodes|
    ensures Agree(nodes, RowsAfter(nodes, turns, modes, input), count) <==> !RewritesBefore(nodes, turns, input, count)
  {
    var notice := LossNotice(input.event.cause, input.sequence);
    UpsertRewrites(nodes, notice, count);
    forall i: nat | i < count ensures Rewrites(nodes, turns, input, i) == ReplacedBy(nodes, notice, i) {
    }
  }

  lemma RowsRewritten(nodes: seq<Node>, turns: Turns, modes: map<string, CommandMode>, input: Input, count: nat)
    requires Plain(input.event) && CanRetirePreviews(input.event) && count <= |nodes|
    ensures Agree(nodes, RowsAfter(nodes, turns, modes, input), count) <==> !RewritesBefore(nodes, turns, input, count)
  {
    match input.event
    case TurnEnded(_, _, _) => ClosingRewrites(nodes, turns, input, count);
    case StepEnded(turn, step) =>
      forall i: nat | i < count
        ensures StepEndedRows(Unmarked(nodes, turns, Some(turn)), turn, step, input.sequence)[i] == nodes[i]
           <==> !Rewrites(nodes, turns, input, i)
      {
        StepEndRewrites(nodes, turns, turn, step, input.sequence, i);
      }
    case ModelRetry(r) =>
      forall i: nat | i < count
        ensures i < |PlaceRetry(nodes, turns, r, input.sequence)|
        ensures PlaceRetry(nodes, turns, r, input.sequence)[i] == nodes[i] <==> !Rewrites(nodes, turns, input, i)
      {
        RetryRewrites(nodes, turns, r, input.sequence, i);
      }
    case ToolPreparing(p) => PreparingRewrites(nodes, turns, modes, input, count);
    case ConnectionLost(_) => LossRewrites(nodes, turns, modes, input, count);
    case _ =>
  }

  /**
   For every processed event but user messages, deltas, completions and attempts, the hint is where the first retired
   preview was, or the start; and it is right if and only if no row before it is one the event rewrites or takes away.
   */
  lemma HintExactly(state: State, input: Input)
    requires !Ignored(state, input) && MayChangeNodes(state, input.event) && Plain(input.event)
    ensures var next := Reduce(state, input);
      var first := FirstRetired(state.nodes, input.event);
      && next.changeBase == Some(state.nodes) && next.changeStart == Some(first.GetOr(0))
      && (Agree(state.nodes, next.nodes, first.GetOr(0))
          <==> first.None? || !RewritesBefore(Retained(state.nodes, input.event), state.turns, input, first.value))
  {
    var first := FirstRetired(state.nodes, input.event);
    RetiredAgree(state.nodes, input.event);
    if first.Some? {
      var kept := Retained(state.nodes, input.event);
      RowsRewritten(kept, state.turns, state.commandModes, input, first.value);
      AgreeThrough(state.nodes, kept, RowsAfter(kept, state.turns, state.commandModes, input), first.value);
    }
  }

  lemma AgreeThrough(a: seq<Node>, b: seq<Node>, c: seq<Node>, count: nat)
    requires Agree(a, b, count)
    ensures Agree(b, c, count) <==> Agree(a, c, count)
  {
  }

  // ---- one input for every arm that fails ----

  function Row(id: string, turn: int, step: int, streaming: bool, completed: bool): Node {
    Node(id,
         Assistant(Message("text", streaming, None, Some(turn), Some(step), completed, None, None, None, None, None,
                           false, NOT_LIVE, None)))
  }

  function Preview(id: string, attempt: string): Node {
    PreviewOf(Preparing(1, 0, id, "tool", attempt, 0))
  }

  function Pair(row: Node, preview: Node, closed: set<int>): State {
    State(None, [row, preview], 0, None, None, None, map[], None, Turns(map[], map[], Some(1), closed))
  }

  lemma FirstIsOne(row: Node, preview: Node, event: Event)
    requires !Retires(event, row) && Retires(event, preview)
    ensures FirstRetired([row, preview], event) == Some(1) && Retained([row, preview], event) == [row]
  {
    var nodes := [row, preview];
    FirstMatchIs(nodes, RetiredBy(event), 1);
    KeptFromFront(nodes, RetiredBy(event), 1);
    KeptFromFront(nodes, RetiredBy(event), 0);
    assert nodes[0..] == nodes && nodes[1..] == [preview] && nodes[2..] == [];
  }

  // The hint says that row 0 is unchanged, and it is not.
  ghost predicate Lies(state: State, input: Input) {
    && !Ignored(state, input) && Reduce(state, input).changeStart == Some(1)
    && !Agree(state.nodes, Reduce(state, input).nodes, 1)
  }

  lemma PairLies(row: Node, preview: Node, closed: set<int>, input: Input)
    requires input.sequence == 1 && input.sessionId.None? && Plain(input.event)
             && MayChangeNodes(Pair(row, preview, closed), input.event)
    requires !Retires(input.event, row) && Retires(input.event, preview)
    requires Rewrites([row], Pair(row, preview, closed).turns, input, 0)
    ensures Lies(Pair(row, preview, closed), input)
  {
    FirstIsOne(row, preview, input.event);
    HintExactly(Pair(row, preview, closed), input);
  }

  function At(event: Event): Input {
    Input(1, event, true, None)
  }

  // A turn ends, completed: its streaming row before the preview is settled.
  lemma EndOfTurnLies()
    ensures Lies(Pair(Row("m", 1, 0, true, false), Preview("call", "a"), {}), At(TurnEnded(1, TurnCompleted, None)))
  {
    PairLies(Row("m", 1, 0, true, false), Preview("call", "a"), {}, At(TurnEnded(1, TurnCompleted, None)));
  }

  lemma EndOfStepLies()
    ensures Lies(Pair(Row("m", 1, 0, true, false), Preview("call", "a"), {}), At(StepEnded(1, 0)))
  {
    PairLies(Row("m", 1, 0, true, false), Preview("call", "a"), {}, At(StepEnded(1, 0)));
  }

  lemma RetryLies()
    ensures var waiting := Node("retry:r", Retrying(Retry(Some(0), 1, 0, 1, RetryWaiting, None, None, None)));
      Lies(Pair(waiting, Preview("call", "a"), {}), At(ModelRetry(RetrySignal(1, 0, "r", 1, true, None, None, None))))
  {
    var waiting := Node("retry:r", Retrying(Retry(Some(0), 1, 0, 1, RetryWaiting, None, None, None)));
    var input := At(ModelRetry(RetrySignal(1, 0, "r", 1, true, None, None, None)));
    LastIndexIs([waiting], RetryWithId("retry:r"), 0);
    PairLies(waiting, Preview("call", "a"), {}, input);
  }

  // A newer preview replaces that of its own attempt, before one of another attempt that it retires.
  lemma PreparingLies()
    ensures Lies(Pair(Preview("x", "b"), Preview("y", "a"), {}),
                 At(ToolPreparing(Preparing(1, 0, "x", "tool", "b", 1))))
  {
    var input := At(ToolPreparing(Preparing(1, 0, "x", "tool", "b", 1)));
    LastIndexIs([Preview("x", "b")], ToolWithId("x"), 0);
    LastIndexIs([Preview("x", "b")], AnyWithId("x"), 0);
    PairLies(Preview("x", "b"), Preview("y", "a"), {}, input);
  }

  // The connection is lost again at the same cursor.
  lemma LossLies()
    ensures Lies(Pair(LossNotice("before", 1), Preview("call", "a"), {}), At(ConnectionLost("after")))
  {
    LastIndexIs([LossNotice("before", 1)], AnyWithId(LossNotice("after", 1).id), 0);
    PairLies(LossNotice("before", 1), Preview("call", "a"), {}, At(ConnectionLost("after")));
  }

  // ---- late attempts ----

  predicate MarkedBefore(nodes: seq<Node>, turn: int, count: nat) {
    exists i :: 0 <= i < count && i < |nodes| && MarkedInTurn(nodes[i], turn)
  }

  // Where the first retired preview or the attempt's own row is, whichever comes first.
  function AttemptStart(nodes: seq<Node>, turn: int, step: int, sequence: int, usage: Option<TokenUsage>): nat {
    var event := AssistantAttempt(turn, step, usage);
    var first := FirstRetired(nodes, event);
    var row := LastIndex(Retained(nodes, event), AttemptAt(turn, step, sequence));
    if row < 0 then first.GetOr(0) else Lower(first, row).value
  }

  lemma UnmarkedKeepsAttempt(nodes: seq<Node>, turns: Turns, turn: int, step: int, sequence: int)
    ensures LastIndex(Unmarked(nodes, turns, Some(turn)), AttemptAt(turn, step, sequence))
         == LastIndex(nodes, AttemptAt(turn, step, sequence))
  {
    var rows := Unmarked(nodes, turns, Some(turn));
    forall i | 0 <= i < |nodes|
      ensures Matches(AttemptAt(turn, step, sequence), nodes[i]) == Matches(AttemptAt(turn, step, sequence), rows[i])
    {
    }
    SameLast(nodes, rows, AttemptAt(turn, step, sequence));
  }

  // Unmarking changes exactly the marked rows of a closed turn.
  lemma UnmarkedExactly(nodes: seq<Node>, turns: Turns, turn: int, count: nat)
    requires count <= |nodes|
    ensures Agree(nodes, Unmarked(nodes, turns, Some(turn)), count)
            <==> !(turn in turns.closed && MarkedBefore(nodes, turn, count))
  {
    var rows := Unmarked(nodes, turns, Some(turn));
    forall i | 0 <= i < count
      ensures nodes[i] == rows[i] <==> !(turn in turns.closed && MarkedInTurn(nodes[i], turn))
    {
    }
  }

  // Only the removal lowers the hint of a late attempt, not the unmarking: it is right if and only if its turn is open
  // or no marked row of the turn stands before that place.
  lemma AttemptHintExactly(state: State, input: Input)
    requires !Ignored(state, input) && input.event.AssistantAttempt?
    ensures var next, event := Reduce(state, input), input.event;
      var start := AttemptStart(state.nodes, event.turn, event.step, input.sequence, event.usage);
      && next.changeBase == Some(state.nodes) && next.changeStart == Some(start)
      && (Agree(state.nodes, next.nodes, start)
          <==> !(event.turn in state.turns.closed && MarkedBefore(state.nodes, event.turn, start)))
  {
    AttemptPlaced(state.nodes, state.turns, input);
  }

  lemma AttemptPlaced(nodes: seq<Node>, turns: Turns, input: Input)
    requires input.event.AssistantAttempt?
    ensures var event := input.event;
      var start := AttemptStart(nodes, event.turn, event.step, input.sequence, event.usage);
      var r :=
        RemoveAttempt(Retained(nodes, event), FirstRetired(nodes, event), turns, event.turn, event.step,
                      input.sequence);
      && r.start.GetOr(0) == start
      && (Agree(nodes, r.nodes, start) <==> !(event.turn in turns.closed && MarkedBefore(nodes, event.turn, start)))
  {
    var event, turn := input.event, input.event.turn;
    var kept, first := Retained(nodes, event), FirstRetired(nodes, event);
    RetiredAgree(nodes, event);
    UnmarkedKeepsAttempt(kept, turns, turn, event.step, input.sequence);
    AttemptRows(kept, first, turns, turn, event.step, input.sequence);
    var start := AttemptStart(nodes, turn, event.step, input.sequence, event.usage);
    AgreeThrough(nodes, kept, RemoveAttempt(kept, first, turns, turn, event.step, input.sequence).nodes, start);
    SameMarks(nodes, kept, turn, start);
  }

  lemma AttemptRows(nodes: seq<Node>, first: Option<nat>, turns: Turns, turn: int, step: int, sequence: int)
    requires first.Some? ==> first.value <= |nodes|
    ensures var r := RemoveAttempt(nodes, first, turns, turn, step, sequence);
      var start := r.start.GetOr(0);
      && start <= |nodes|
      && (Agree(nodes, r.nodes, start) <==> !(turn in turns.closed && MarkedBefore(nodes, turn, start)))
  {
    var r := RemoveAttempt(nodes, first, turns, turn, step, sequence);
    RemovalHint(nodes, first, turns, turn, step, sequence);
    UnmarkedExactly(nodes, turns, turn, r.start.GetOr(0));
    SameBefore(nodes, Unmarked(nodes, turns, Some(turn)), r.nodes, r.start.GetOr(0));
  }

  lemma SameBefore(a: seq<Node>, b: seq<Node>, c: seq<Node>, count: nat)
    requires Agree(b, c, count) && count <= |a|
    ensures Agree(a, b, count) <==> Agree(a, c, count)
  {
  }

  lemma SameMarks(a: seq<Node>, b: seq<Node>, turn: int, count: nat)
    requires Agree(a, b, count)
    ensures MarkedBefore(a, turn, count) == MarkedBefore(b, turn, count)
  {
    if MarkedBefore(a, turn, count) {
      var i :| 0 <= i < count && i < |a| && MarkedInTurn(a[i], turn);
      assert MarkedInTurn(b[i], turn);
    }
    if MarkedBefore(b, turn, count) {
      var i :| 0 <= i < count && i < |b| && MarkedInTurn(b[i], turn);
      assert MarkedInTurn(a[i], turn);
    }
  }

  lemma AttemptAtOne(marked: Node, open: Node)
    requires !IsPreview(marked) && !IsPreview(open) && Matches(AttemptAt(1, 1, 1), open)
    ensures AttemptStart([marked, open], 1, 1, 1, None) == 1
  {
    var event := AssistantAttempt(1, 1, None);
    NothingDropped([marked, open], RetiredBy(event));
    FirstMatchIs([marked, open], RetiredBy(event), 2);
    LastIndexIs([marked, open], AttemptAt(1, 1, 1), 1);
  }

  lemma LateAttemptLies(marked: Node, open: Node)
    requires !IsPreview(marked) && !IsPreview(open) && Matches(AttemptAt(1, 1, 1), open) && MarkedInTurn(marked, 1)
    ensures Lies(Pair(marked, open, {1}), At(AssistantAttempt(1, 1, None)))
  {
    AttemptAtOne(marked, open);
    assert MarkedInTurn([marked, open][0], 1);
    AttemptHintExactly(Pair(marked, open, {1}), At(AssistantAttempt(1, 1, None)));
  }

  // A completed row of the closed turn stands before the row that the attempt removes.
  lemma AttemptLies()
    ensures Lies(Pair(Row("m", 1, 0, false, true), Row("n", 1, 1, true, false), {1}), At(AssistantAttempt(1, 1, None)))
  {
    LateAttemptLies(Row("m", 1, 0, false, true), Row("n", 1, 1, true, false));
  }
}
