/**
 Why a replay may trust its index: what a transition does to the ids of the rows before its hint.
 */
module ReplayHints {
  import opened ChangeHints
  import opened Filtering
  import opened NodeLookup
  import opened Options
  import opened Reducer
  import opened ReplayNodeIndex
  import opened Runs
  import opened TimelineNodes
  import opened TurnClosure
  import opened TurnLedger
  import opened TurnState

  predicate Claimed(nodes: seq<Node>, key: string, count: nat) {
    exists i :: 0 <= i < count && i < |nodes| && ClaimsFailure(nodes[i], key)
  }

  // The end of a failed turn takes a notice away from before the previews it has just retired.
  predicate Misleads(nodes: seq<Node>, start: Option<nat>, event: Event) {
    && event.TurnEnded? && event.reason.TurnError? && event.failure.Some?
    && TextKey(event.failure.value) != "" && start.Some?
    && Claimed(nodes, TextKey(event.failure.value), start.value)
  }

  predicate MisleadsReplay(state: State, input: Input) {
    && !Ignored(state, input)
    && Misleads(state.nodes, FirstRetired(state.nodes, input.event), input.event)
  }

  lemma UpsertKeys(nodes: seq<Node>, node: Node)
    requires !node.body.User?
    ensures KeysAgree(nodes, Upserted(nodes, node), |nodes|)
  {
  }

  lemma UnmarkedSame(nodes: seq<Node>, turns: Turns, turn: Option<int>)
    ensures |Unmarked(nodes, turns, turn)| == |nodes| && KeysAgree(nodes, Unmarked(nodes, turns, turn), |nodes|)
  {
  }

  lemma KeysThrough(a: seq<Node>, b: seq<Node>, c: seq<Node>, count: nat)
    requires KeysAgree(a, b, count) && KeysAgree(b, c, count)
    ensures KeysAgree(a, c, count)
  {
  }

  // Dropping rows from `count` on only.
  lemma KeptKeys(nodes: seq<Node>, drop: Node -> bool, count: nat)
    requires count <= |nodes| && forall i :: 0 <= i < count ==> !drop(nodes[i])
    ensures KeysAgree(nodes, Kept(nodes, drop), count)
  {
    KeptPrefix(nodes, drop);
    var first := FirstMatch(nodes, drop);
    var kept := Kept(nodes, drop);
    forall i | 0 <= i < count ensures kept[i] == nodes[i] {
      assert kept[..first][i] == nodes[..first][i];
    }
  }

  lemma SettledKeys(nodes: seq<Node>, turn: int, reason: EndReason, sequence: int, count: nat)
    requires count <= |nodes|
    ensures KeysAgree(nodes, SettledRows(nodes, turn, reason, sequence), count)
  {
  }

  lemma MarkedKeys(nodes: seq<Node>, turn: int, reason: EndReason, usage: Option<Normalized>, count: nat)
    requires count <= |nodes|
    ensures KeysAgree(nodes, Marked(nodes, turn, reason, usage), count)
  {
  }

  lemma ClosingKeys(nodes: seq<Node>, turn: int, reason: EndReason, failure: Option<string>, sequence: int,
                    usage: Option<Normalized>,
                    count: nat)
    requires count <= |nodes|
    requires reason.TurnError? && failure.Some? && TextKey(failure.value) != "" ==>
               !Claimed(nodes, TextKey(failure.value), count)
    ensures KeysAgree(nodes, TurnClosed(nodes, turn, reason, failure, sequence, usage), count)
  {
    var settled := SettledRows(nodes, turn, reason, sequence);
    var ended := WithTerminal(settled, turn, reason, failure, sequence);
    SettledKeys(nodes, turn, reason, sequence, count);
    TerminalKeys(settled, turn, reason, failure, sequence, count);
    KeysThrough(nodes, settled, ended, count);
    MarkedKeys(ended, turn, reason, usage, count);
    KeysThrough(nodes, ended, Marked(ended, turn, reason, usage), count);
  }

  lemma TerminalKeys(nodes: seq<Node>, turn: int, reason: EndReason, failure: Option<string>, sequence: int, count: nat)
    requires count <= |nodes|
    requires reason.TurnError? && failure.Some? && TextKey(failure.value) != "" ==>
               forall i :: 0 <= i < count ==> !ClaimsFailure(nodes[i], TextKey(failure.value))
    ensures KeysAgree(nodes, WithTerminal(nodes, turn, reason, failure, sequence), count)
  {
    if !reason.TurnCompleted? {
      var node := Node(TerminalId(turn), Ended(Terminal(turn, sequence, reason, failure)));
      UpsertKeys(nodes, node);
      if reason.TurnError? && failure.Some? && TextKey(failure.value) != "" {
        var ended := Upserted(nodes, node);
        KeptKeys(ended, ClaimedBy(TextKey(failure.value)), count);
        KeysThrough(nodes, ended, Kept(ended, ClaimedBy(TextKey(failure.value))), count);
      }
    }
  }

  lemma NoticeKeys(nodes: seq<Node>, modes: map<string, CommandMode>, n: NoticeEvent, sequence: int)
    ensures KeysAgree(nodes, PlaceNotice(nodes, modes, n, sequence), |nodes|)
  {
    var input :=
      Node("command-input:" + Decimal(sequence), Other(Card("command-input", None, None, n.commandInput.GetOr(""))));
    var notice := Node("notice:" + Decimal(sequence), TimelineNodes.Notice(n.level, n.text));
    UpsertKeys(nodes, input);
    UpsertKeys(nodes, notice);
    UpsertKeys(Upserted(nodes, input), notice);
    KeysThrough(nodes, Upserted(nodes, input), Upserted(Upserted(nodes, input), notice), |nodes|);
  }

  lemma ToolKeys(nodes: seq<Node>, turns: Turns, callId: string, tool: ToolCall, sequence: int)
    ensures KeysAgree(nodes, PlaceTool(nodes, turns, callId, tool, sequence), |nodes|)
  {
    UnmarkedSame(nodes, turns, tool.turn);
    UpsertKeys(Unmarked(nodes, turns, tool.turn),
               Node(callId, Tool(CloseLateTool(tool, turns.closed), Some(sequence))));
  }

  lemma CompactionKeys(nodes: seq<Node>, id: string, compaction: Compaction)
    ensures KeysAgree(nodes, PlaceCompaction(nodes, id, compaction), |nodes|)
  {
    UpsertKeys(nodes, Node("compaction:" + id, Compacting(compaction)));
  }

  lemma RetryKeys(nodes: seq<Node>, turns: Turns, r: RetrySignal, sequence: int)
    ensures KeysAgree(nodes, PlaceRetry(nodes, turns, r, sequence), |nodes|)
  {
    UnmarkedSame(nodes, turns, Some(r.turn));
  }

  lemma StepEndKeys(nodes: seq<Node>, turns: Turns, turn: int, step: int, sequence: int)
    ensures KeysAgree(nodes, StepEndedRows(Unmarked(nodes, turns, Some(turn)), turn, step, sequence), |nodes|)
  {
    UnmarkedSame(nodes, turns, Some(turn));
  }

  // The arms about a turn and its steps; the other rows are cards, notices and the like.
  predicate InTurn(event: Event) {
    || event.TurnStarted? || event.TurnEnded? || event.StepStarted? || event.StepEnded?
    || event.ToolPreparing? || event.ToolUpdated? || event.ModelRetry?
  }

  lemma TurnRowsKeys(nodes: seq<Node>, turns: Turns, modes: map<string, CommandMode>, input: Input)
    requires InTurn(input.event) && !input.event.TurnEnded?
    ensures KeysAgree(nodes, RowsAfter(nodes, turns, modes, input), |nodes|)
  {
    match input.event
    case StepStarted(turn, _, _) => UnmarkedSame(nodes, turns, Some(turn));
    case StepEnded(turn, step) => StepEndKeys(nodes, turns, turn, step, input.sequence);
    case ToolPreparing(p) => UpsertKeys(nodes, PreviewOf(p));
    case ToolUpdated(callId, tool) => ToolKeys(nodes, turns, callId, tool, input.sequence);
    case ModelRetry(r) => RetryKeys(nodes, turns, r, input.sequence);
    case _ =>
  }

  lemma OtherRowsKeys(nodes: seq<Node>, turns: Turns, modes: map<string, CommandMode>, input: Input)
    requires !InTurn(input.event) && !input.event.UnknownEvent?
    ensures KeysAgree(nodes, RowsAfter(nodes, turns, modes, input), |nodes|)
  {
    match input.event
    case CardUpdated(id, card) => UpsertKeys(nodes, CardNode(id, card, input.sequence));
    case CompactionUpdated(id, compaction) => CompactionKeys(nodes, id, compaction);
    case ConnectionLost(cause) =>
      UpsertKeys(nodes, Node("connection:" + Decimal(input.sequence), TimelineNodes.Notice(Error, cause)));
    case Noticed(n) => NoticeKeys(nodes, modes, n, input.sequence);
    case _ =>
  }

  // The rows keep their ids, and none of them becomes a user message.
  lemma RowsKeys(nodes: seq<Node>, turns: Turns, modes: map<string, CommandMode>, input: Input)
    requires !input.event.TurnEnded? && !input.event.UnknownEvent?
    ensures KeysAgree(nodes, RowsAfter(nodes, turns, modes, input), |nodes|)
  {
    if InTurn(input.event) {
      TurnRowsKeys(nodes, turns, modes, input);
    } else {
      OtherRowsKeys(nodes, turns, modes, input);
    }
  }

  lemma AttemptKeys(nodes: seq<Node>, start: Option<nat>, turns: Turns, turn: int, step: int, sequence: int)
    requires start.Some? ==> start.value <= |nodes|
    ensures var r := RemoveAttempt(nodes, start, turns, turn, step, sequence);
            KeysAgree(nodes, r.nodes, r.start.GetOr(0))
  {
    var r := RemoveAttempt(nodes, start, turns, turn, step, sequence);
    RemovalHint(nodes, start, turns, turn, step, sequence);
    UnmarkedSame(nodes, turns, Some(turn));
    KeysThrough(nodes, Unmarked(nodes, turns, Some(turn)), r.nodes, r.start.GetOr(0));
  }

  lemma ArrangeKeys(nodes: seq<Node>, start: Option<nat>, turns: Turns, modes: map<string, CommandMode>, input: Input)
    requires start.Some? ==> start.value <= |nodes| && CanRetirePreviews(input.event)
    requires !Misleads(nodes, start, input.event)
    ensures var r := Arrange(nodes, start, turns, modes, input);
            KeysAgree(nodes, r.nodes, r.start.GetOr(0))
  {
    match input.event
    case UserMessage(messageId, user) => UserHint(nodes, start, messageId, user);
    case MessageDelta(d) => DeltaHint(nodes, start, turns, d);
    case MessageCompleted(c) => CompletionHint(nodes, start, turns, c, input);
    case AssistantAttempt(turn, step, _) => AttemptKeys(nodes, start, turns, turn, step, input.sequence);
    case TurnEnded(turn, reason, failure) =>
      ClosingKeys(nodes, turn, reason, failure, input.sequence, TurnUsageAtEnd(turns, turn, reason), start.GetOr(0));
    case UnknownEvent(_, _) =>
    case _ => RowsKeys(nodes, turns, modes, input);
  }

  lemma StillMisleads(a: seq<Node>, b: seq<Node>, start: Option<nat>, event: Event)
    requires start.Some? ==> Agree(a, b, start.value)
    ensures Misleads(b, start, event) ==> Misleads(a, start, event)
  {
    if Misleads(b, start, event) {
      var key := TextKey(event.failure.value);
      var i :| 0 <= i < start.value && i < |b| && ClaimsFailure(b[i], key);
      assert ClaimsFailure(a[i], key);
    }
  }

  // What a replay re-reads after a transition is enough.
  lemma TransitionKeys(state: State, input: Input)
    requires !MisleadsReplay(state, input) && !Ignored(state, input)
    ensures var kept := Retained(state.nodes, input.event);
            var r := NodesAfter(state, input);
            r.start.Some? && KeysAgree(kept, r.nodes, r.start.value)
  {
    var kept, first := Retained(state.nodes, input.event), FirstRetired(state.nodes, input.event);
    RetiredAgree(state.nodes, input.event);
    StillMisleads(state.nodes, kept, first, input.event);
    ArrangeKeys(kept, first, state.turns, state.commandModes, input);
  }

  // ---- and otherwise it may not ----

  // One row for every id, and no error notice in the place of a turn's end.
  predicate OneRowEach(nodes: seq<Node>, turn: int) {
    && (forall i, j :: 0 <= i < j < |nodes| ==> nodes[i].id != nodes[j].id)
    && (forall i :: 0 <= i < |nodes| && nodes[i].id == TerminalId(turn) ==> !nodes[i].body.Notice?)
  }

  predicate IdsAgree(was: seq<Node>, now: seq<Node>, count: nat) {
    count <= |was| && count <= |now| && forall i :: 0 <= i < count ==> was[i].id == now[i].id
  }

  // With ids in one place each, the row that takes the place of a dropped one has another id.
  lemma DroppedMoves(rows: seq<Node>, key: string, count: nat)
    requires forall i, j :: 0 <= i < j < |rows| ==> rows[i].id != rows[j].id
    requires Claimed(rows, key, count)
    ensures var kept := Kept(rows, ClaimedBy(key));
            count <= |kept| ==> exists i :: 0 <= i < count && i < |rows| && kept[i].id != rows[i].id
  {
    var first := FirstMatch(rows, ClaimedBy(key));
    var kept := Kept(rows, ClaimedBy(key));
    assert first < count;
    if count <= |kept| {
      KeptPrefix(rows, ClaimedBy(key));
      assert kept[first] in kept;
      KeptMembers(rows, ClaimedBy(key), kept[first]);
      var at :| 0 <= at < |rows| && rows[at] == kept[first];
      assert !ClaimsFailure(kept[first], key) && ClaimsFailure(rows[first], key);
      assert at != first;
      assert kept[first].id != rows[first].id;
    }
  }

  lemma TerminalMoves(nodes: seq<Node>, turn: int, failure: string, sequence: int, count: nat)
    requires OneRowEach(nodes, turn) && count <= |nodes| && TextKey(failure) != ""
             && Claimed(nodes, TextKey(failure), count)
    ensures !IdsAgree(nodes, WithTerminal(nodes, turn, TurnError, Some(failure), sequence), count)
  {
    var node := Node(TerminalId(turn), Ended(Terminal(turn, sequence, TurnError, Some(failure))));
    var rows := Upserted(nodes, node);
    UpsertKeys(nodes, node);
    var i :| 0 <= i < count && i < |nodes| && ClaimsFailure(nodes[i], TextKey(failure));
    assert nodes[i].id != TerminalId(turn);
    assert rows[i] == nodes[i];
    assert Claimed(rows, TextKey(failure), count);
    DroppedMoves(rows, TextKey(failure), count);
  }

  lemma SettledSame(nodes: seq<Node>, turn: int, sequence: int, key: string, count: nat)
    requires OneRowEach(nodes, turn) && count <= |nodes| && Claimed(nodes, key, count)
    ensures var settled := SettledRows(nodes, turn, TurnError, sequence);
            OneRowEach(settled, turn) && IdsAgree(nodes, settled, |nodes|) && |settled| == |nodes|
              && Claimed(settled, key, count)
  {
    var settled := SettledRows(nodes, turn, TurnError, sequence);
    var i :| 0 <= i < count && i < |nodes| && ClaimsFailure(nodes[i], key);
    assert settled[i] == nodes[i];
  }

  lemma MarkedSame(nodes: seq<Node>, turn: int, usage: Option<Normalized>)
    ensures var marked := Marked(nodes, turn, TurnError, usage); |marked| == |nodes| && IdsAgree(nodes, marked, |nodes|)
  {
  }

  lemma ClosingMoves(nodes: seq<Node>, turn: int, failure: string, sequence: int, usage: Option<Normalized>, count: nat)
    requires OneRowEach(nodes, turn) && count <= |nodes| && TextKey(failure) != ""
             && Claimed(nodes, TextKey(failure), count)
    ensures !IdsAgree(nodes, TurnClosed(nodes, turn, TurnError, Some(failure), sequence, usage), count)
  {
    var settled := SettledRows(nodes, turn, TurnError, sequence);
    SettledSame(nodes, turn, sequence, TextKey(failure), count);
    TerminalMoves(settled, turn, failure, sequence, count);
    MarkedSame(WithTerminal(settled, turn, TurnError, Some(failure), sequence), turn, usage);
  }

  // With one row for every id, the index stays right before the hint exactly where nothing misleads it.
  lemma TransitionKeysExactly(state: State, input: Input)
    requires !Ignored(state, input)
    requires input.event.TurnEnded? ==> OneRowEach(Retained(state.nodes, input.event), input.event.turn)
    ensures var r := NodesAfter(state, input);
            KeysAgree(Retained(state.nodes, input.event), r.nodes, r.start.value) <==> !MisleadsReplay(state, input)
  {
    if MisleadsReplay(state, input) {
      var kept, first := Retained(state.nodes, input.event), FirstRetired(state.nodes, input.event);
      RetiredAgree(state.nodes, input.event);
      var key := TextKey(input.event.failure.value);
      var i :| 0 <= i < first.value && i < |state.nodes| && ClaimsFailure(state.nodes[i], key);
      assert ClaimsFailure(kept[i], key);
      ClosingMoves(kept, input.event.turn, input.event.failure.value, input.sequence,
                   TurnUsageAtEnd(state.turns, input.event.turn, TurnError), first.value);
    } else {
      TransitionKeys(state, input);
    }
  }

  // A turn fails with the words of an error notice that stands before the preview it retires: the notice goes, the
  // turn's last row takes its place, and the hint points behind it.
  lemma FailedTurnMisleads()
    ensures var nodes := [Node("n", TimelineNodes.Notice(Error, "x")), PreviewOf(Preparing(1, 0, "c", "tool", "a", 0))];
            var state := State(None, nodes, 0, None, None, None, map[], None, Turns(map[], map[], Some(1), {}));
            var input := Input(1, TurnEnded(1, TurnError, Some("x")), true, None);
            var r := NodesAfter(state, input);
            MisleadsReplay(state, input) && !KeysAgree(Retained(nodes, input.event), r.nodes, r.start.value)
  {
    var notice, preview := Node("n", TimelineNodes.Notice(Error, "x")), PreviewOf(Preparing(1, 0, "c", "tool", "a", 0));
    var nodes := [notice, preview];
    var state := State(None, nodes, 0, None, None, None, map[], None, Turns(map[], map[], Some(1), {}));
    var input := Input(1, TurnEnded(1, TurnError, Some("x")), true, None);
    FirstMatchIs(nodes, RetiredBy(input.event), 1);
    KeptFromFront(nodes, RetiredBy(input.event), 1);
    KeptFromFront(nodes, RetiredBy(input.event), 0);
    assert nodes[0..] == nodes && nodes[1..] == [preview] && nodes[2..] == [];
    assert Retained(nodes, input.event) == [notice];
    assert TextKey("x") == "x";
    assert ClaimsFailure(nodes[0], TextKey("x"));
    TransitionKeysExactly(state, input);
  }

  // ---- without previews nothing misleads ----

  predicate NoPreviews(nodes: seq<Node>) {
    forall i :: 0 <= i < |nodes| ==> !IsPreview(nodes[i])
  }

  // Neither announces a call that is still being written nor carries one.
  predicate PreviewFree(event: Event) {
    !event.ToolPreparing? && (event.ToolUpdated? ==> event.tool.preparation.None?)
  }

  lemma NothingRetired(nodes: seq<Node>, event: Event)
    requires NoPreviews(nodes)
    ensures Retained(nodes, event) == nodes && FirstRetired(nodes, event).None?
  {
    NothingDropped(nodes, RetiredBy(event));
    FirstMatchIs(nodes, RetiredBy(event), |nodes|);
  }

  lemma KeptPreviewFree(nodes: seq<Node>, drop: Node -> bool)
    requires NoPreviews(nodes)
    ensures NoPreviews(Kept(nodes, drop))
  {
    var kept := Kept(nodes, drop);
    forall i | 0 <= i < |kept| ensures !IsPreview(kept[i]) {
      KeptMembers(nodes, drop, kept[i]);
    }
  }

  lemma UpsertPreviewFree(nodes: seq<Node>, node: Node)
    requires NoPreviews(nodes) && !IsPreview(node)
    ensures NoPreviews(Upserted(nodes, node))
  {
  }

  lemma ClosedPreviewFree(nodes: seq<Node>, turn: int, reason: EndReason, failure: Option<string>, sequence: int,
                          usage: Option<Normalized>)
    requires NoPreviews(nodes)
    ensures NoPreviews(TurnClosed(nodes, turn, reason, failure, sequence, usage))
  {
    var settled := SettledRows(nodes, turn, reason, sequence);
    SettledPreviewFree(nodes, turn, reason, sequence);
    TerminalPreviewFree(settled, turn, reason, failure, sequence);
    MarkedPreviewFree(WithTerminal(settled, turn, reason, failure, sequence), turn, reason, usage);
  }

  lemma SettledPreviewFree(nodes: seq<Node>, turn: int, reason: EndReason, sequence: int)
    requires NoPreviews(nodes)
    ensures NoPreviews(SettledRows(nodes, turn, reason, sequence))
  {
  }

  lemma TerminalPreviewFree(nodes: seq<Node>, turn: int, reason: EndReason, failure: Option<string>, sequence: int)
    requires NoPreviews(nodes)
    ensures NoPreviews(WithTerminal(nodes, turn, reason, failure, sequence))
  {
    var node := Node(TerminalId(turn), Ended(Terminal(turn, sequence, reason, failure)));
    UpsertPreviewFree(nodes, node);
    KeptPreviewFree(Upserted(nodes, node), ClaimedBy(TextKey(failure.GetOr(""))));
  }

  lemma MarkedPreviewFree(nodes: seq<Node>, turn: int, reason: EndReason, usage: Option<Normalized>)
    requires NoPreviews(nodes)
    ensures NoPreviews(Marked(nodes, turn, reason, usage))
  {
  }

  lemma UnmarkedPreviewFree(nodes: seq<Node>, turns: Turns, turn: Option<int>)
    requires NoPreviews(nodes)
    ensures NoPreviews(Unmarked(nodes, turns, turn))
  {
  }

  lemma InsertedPreviewFree(nodes: seq<Node>, node: Node)
    requires NoPreviews(nodes) && !IsPreview(node)
    ensures NoPreviews(Inserted(nodes, node))
  {
  }

  lemma ToolPreviewFree(nodes: seq<Node>, turns: Turns, callId: string, tool: ToolCall, sequence: int)
    requires NoPreviews(nodes) && tool.preparation.None?
    ensures NoPreviews(PlaceTool(nodes, turns, callId, tool, sequence))
  {
    UnmarkedPreviewFree(nodes, turns, tool.turn);
    UpsertPreviewFree(Unmarked(nodes, turns, tool.turn),
                      Node(callId, Tool(CloseLateTool(tool, turns.closed), Some(sequence))));
  }

  lemma RetryPreviewFree(nodes: seq<Node>, turns: Turns, r: RetrySignal, sequence: int)
    requires NoPreviews(nodes)
    ensures NoPreviews(PlaceRetry(nodes, turns, r, sequence))
  {
    UnmarkedPreviewFree(nodes, turns, Some(r.turn));
  }

  lemma StepEndPreviewFree(nodes: seq<Node>, turns: Turns, turn: int, step: int, sequence: int)
    requires NoPreviews(nodes)
    ensures NoPreviews(StepEndedRows(Unmarked(nodes, turns, Some(turn)), turn, step, sequence))
  {
    UnmarkedPreviewFree(nodes, turns, Some(turn));
  }

  lemma CompactionPreviewFree(nodes: seq<Node>, id: string, compaction: Compaction)
    requires NoPreviews(nodes)
    ensures NoPreviews(PlaceCompaction(nodes, id, compaction))
  {
    UpsertPreviewFree(nodes, Node("compaction:" + id, Compacting(compaction)));
  }

  lemma DeltaPreviewFree(nodes: seq<Node>, start: Option<nat>, turns: Turns, d: Delta)
    requires NoPreviews(nodes)
    ensures NoPreviews(PlaceDelta(nodes, start, turns, d).nodes)
  {
    UnmarkedPreviewFree(nodes, turns, d.turn);
  }

  lemma CompletionPreviewFree(nodes: seq<Node>, start: Option<nat>, turns: Turns, c: Completion, input: Input)
    requires NoPreviews(nodes)
    ensures NoPreviews(PlaceCompletion(nodes, start, turns, c, input).nodes)
  {
    UnmarkedPreviewFree(nodes, turns, c.turn);
  }

  lemma UserPreviewFree(nodes: seq<Node>, start: Option<nat>, messageId: string, user: UserBody)
    requires NoPreviews(nodes)
    ensures NoPreviews(PlaceUser(nodes, start, messageId, user).nodes)
  {
    UpsertPreviewFree(nodes, Node(messageId, User(user)));
  }

  lemma AttemptPreviewFree(nodes: seq<Node>, start: Option<nat>, turns: Turns, turn: int, step: int, sequence: int)
    requires NoPreviews(nodes)
    ensures NoPreviews(RemoveAttempt(nodes, start, turns, turn, step, sequence).nodes)
  {
    UnmarkedPreviewFree(nodes, turns, Some(turn));
  }

  lemma NoticePreviewFree(nodes: seq<Node>, modes: map<string, CommandMode>, n: NoticeEvent, sequence: int)
    requires NoPreviews(nodes)
    ensures NoPreviews(PlaceNotice(nodes, modes, n, sequence))
  {
    var input :=
      Node("command-input:" + Decimal(sequence), Other(Card("command-input", None, None, n.commandInput.GetOr(""))));
    var notice := Node("notice:" + Decimal(sequence), TimelineNodes.Notice(n.level, n.text));
    UpsertPreviewFree(nodes, input);
    UpsertPreviewFree(nodes, notice);
    UpsertPreviewFree(Upserted(nodes, input), notice);
  }

  lemma TurnRowsPreviewFree(nodes: seq<Node>, turns: Turns, modes: map<string, CommandMode>, input: Input)
    requires NoPreviews(nodes) && PreviewFree(input.event) && InTurn(input.event)
    ensures NoPreviews(RowsAfter(nodes, turns, modes, input))
  {
    match input.event
    case TurnStarted(turn) =>
    case TurnEnded(turn, reason, failure) =>
      ClosedPreviewFree(nodes, turn, reason, failure, input.sequence, TurnUsageAtEnd(turns, turn, reason));
    case StepStarted(turn, _, _) => UnmarkedPreviewFree(nodes, turns, Some(turn));
    case StepEnded(turn, step) => StepEndPreviewFree(nodes, turns, turn, step, input.sequence);
    case ToolUpdated(callId, tool) => ToolPreviewFree(nodes, turns, callId, tool, input.sequence);
    case ModelRetry(r) => RetryPreviewFree(nodes, turns, r, input.sequence);
  }

  lemma OtherRowsPreviewFree(nodes: seq<Node>, turns: Turns, modes: map<string, CommandMode>, input: Input)
    requires NoPreviews(nodes) && !InTurn(input.event)
    ensures NoPreviews(RowsAfter(nodes, turns, modes, input))
  {
    match input.event
    case CardUpdated(id, card) => UpsertPreviewFree(nodes, CardNode(id, card, input.sequence));
    case CompactionUpdated(id, compaction) => CompactionPreviewFree(nodes, id, compaction);
    case ConnectionLost(cause) =>
      UpsertPreviewFree(nodes, Node("connection:" + Decimal(input.sequence), TimelineNodes.Notice(Error, cause)));
    case Noticed(n) => NoticePreviewFree(nodes, modes, n, input.sequence);
    case UnknownEvent(_, _) => InsertedPreviewFree(nodes, RawEventNode(input));
    case _ =>
  }

  lemma RowsPreviewFree(nodes: seq<Node>, turns: Turns, modes: map<string, CommandMode>, input: Input)
    requires NoPreviews(nodes) && PreviewFree(input.event)
    ensures NoPreviews(RowsAfter(nodes, turns, modes, input))
  {
    if InTurn(input.event) {
      TurnRowsPreviewFree(nodes, turns, modes, input);
    } else {
      OtherRowsPreviewFree(nodes, turns, modes, input);
    }
  }

  lemma ArrangePreviewFree(nodes: seq<Node>, start: Option<nat>, turns: Turns, modes: map<string, CommandMode>,
                           input: Input)
    requires NoPreviews(nodes) && PreviewFree(input.event)
    ensures NoPreviews(Arrange(nodes, start, turns, modes, input).nodes)
  {
    match input.event
    case UserMessage(messageId, user) => UserPreviewFree(nodes, start, messageId, user);
    case MessageDelta(d) => DeltaPreviewFree(nodes, start, turns, d);
    case MessageCompleted(c) => CompletionPreviewFree(nodes, start, turns, c, input);
    case AssistantAttempt(turn, step, _) => AttemptPreviewFree(nodes, start, turns, turn, step, input.sequence);
    case _ => RowsPreviewFree(nodes, turns, modes, input);
  }

  lemma StepPreviewFree(state: State, input: Input)
    requires NoPreviews(state.nodes) && PreviewFree(input.event)
    ensures NoPreviews(Reduce(state, input).nodes) && !MisleadsReplay(state, input)
  {
    NothingRetired(state.nodes, input.event);
    ArrangePreviewFree(state.nodes, None, state.turns, state.commandModes, input);
  }

  // A run without previews never misleads the replay.
  lemma PreviewFreeRun(state: State, inputs: seq<Input>, k: nat)
    requires NoPreviews(state.nodes) && k < |inputs|
    requires forall i :: 0 <= i < |inputs| ==> PreviewFree(inputs[i].event)
    ensures !MisleadsReplay(ReduceAll(state, inputs[..k]), inputs[k])
  {
    var holds := (s: State, past: seq<Input>) => NoPreviews(s.nodes);
    forall s: State, past: seq<Input>, input: Input | holds(s, past) && PreviewFree(input.event)
      ensures holds(Reduce(s, input), past + [input])
    {
      StepPreviewFree(s, input);
    }
    RunKeeps(Reduce, holds, (input: Input) => PreviewFree(input.event), state, inputs[..k], 0);
    NothingRetired(ReduceAll(state, inputs[..k]).nodes, inputs[k].event);
  }
}
