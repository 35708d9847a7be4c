/**
 The reducer as it runs: rows edited in place, one at a time or a whole history over one working
 array with an index.
 */
module TimelineReplay {
  import opened ChangeHints
  import opened Filtering
  import opened NodeLookup
  import opened Options
  import opened Reducer
  import opened ReplayHints
  import opened ReplayNodeIndex
  import opened Runs
  import opened TimelineNodes
  import opened TurnClosure
  import opened TurnLedger
  import opened TurnState
  import opened TurnTracking

  // An index, if there is one, belongs to these rows.
  ghost predicate Aligned(working: WorkingNodes, lookup: Index?)
    reads lookup
  {
    lookup == null || (lookup.nodes == working && lookup.Valid())
  }

  // Its answers are those of a scan.
  ghost predicate Trusted(working: WorkingNodes, lookup: Index?)
    reads working, lookup, if lookup == null then {} else {lookup.nodes}
  {
    lookup == null || lookup.Covers()
  }

  method Upsert(working: WorkingNodes, node: Node, lookup: Index?) returns (position: nat)
    requires Aligned(working, lookup)
    modifies working
    ensures old(Trusted(working, lookup)) ==>
              working.items == Upserted(old(working.items), node)
                && position == UpsertPosition(old(working.items), node.id)
  {
    var index: int;
    if lookup == null {
      index := FindNodeIndexFromEnd(working.items, AnyWithId(node.id));
    } else {
      index := lookup.ById(node.id, AnyWithId(node.id));
    }
    if index < 0 {
      position := |working.items|;
      working.items := working.items + [node];
    } else {
      position := index;
      working.items := working.items[index := node];
    }
  }

  method FindConversation(working: WorkingNodes, messageId: string, turn: Option<int>, step: Option<int>,
                          openOnly: bool, lookup: Index?)
    returns (index: int)
    requires Aligned(working, lookup)
    ensures -1 <= index < |working.items|
    ensures Trusted(working, lookup) ==> index == ConversationIndex(working.items, messageId, turn, step, openOnly)
  {
    if lookup == null {
      index := FindNodeIndexFromEnd(working.items, Conversation(messageId, openOnly));
    } else {
      index := lookup.ById(messageId, Conversation(messageId, openOnly));
    }
    if index >= 0 || turn.None? || step.None? {
      return;
    }
    index := FindNodeIndexFromEnd(working.items, OpenAt(turn.value, step.value));
  }

  method InvalidateTail(working: WorkingNodes, turns: Turns, turn: Option<int>)
    modifies working
    ensures working.items == Unmarked(old(working.items), turns, turn)
  {
    if turn.Some? && turn.value in turns.closed {
      working.items := InvalidateTurnTail(working.items, turn.value);
    }
  }

  lemma UnmarkedKeys(rows: seq<Node>, items: seq<Node>, turns: Turns, turn: Option<int>)
    requires |rows| == |items| && KeysAgree(rows, items, |rows|)
    ensures KeysAgree(rows, Unmarked(items, turns, turn), |rows|) && |Unmarked(items, turns, turn)| == |rows|
  {
  }

  // ---- the arms that use the index ----

  method ApplyUser(working: WorkingNodes, lookup: Index?, start: Option<nat>, messageId: string, user: UserBody)
    returns (from: Option<nat>)
    requires Aligned(working, lookup)
    modifies working
    ensures old(Trusted(working, lookup)) ==>
              Arranged(working.items, from) == PlaceUser(old(working.items), start, messageId, user)
  {
    var optimistic: int;
    if lookup == null {
      optimistic := FindOptimisticUser(working.items, user);
    } else {
      optimistic := lookup.OptimisticUserOf(user);
    }
    if optimistic >= 0 {
      working.items := working.items[optimistic := Node(messageId, User(user))];
      return Lower(start, optimistic);
    }
    var position := Upsert(working, Node(messageId, User(user)), lookup);
    return Lower(start, position);
  }

  method ApplyDelta(working: WorkingNodes, lookup: Index?, start: Option<nat>, turns: Turns, d: Delta)
    returns (from: Option<nat>)
    requires Aligned(working, lookup)
    modifies working
    ensures old(Trusted(working, lookup)) ==>
              Arranged(working.items, from) == PlaceDelta(old(working.items), start, turns, d)
  {
    from := start;
    var closed := TurnIsClosed(turns, d.turn);
    ghost var before := working.items;
    InvalidateTail(working, turns, d.turn);
    if lookup != null && old(lookup.Covers()) {
      UnmarkedKeys(lookup.rows, before, turns, d.turn);
    }
    if closed {
      from := Some(0);
    }
    if d.delta == "" {
      return;
    }
    var timing := NoteFirstToken(turns.timings, d.turn, d.step, d.time);
    var index := FindConversation(working, d.messageId, d.turn, d.step, IsTransient(d), lookup);
    from := Lower(from, if index < 0 then |working.items| else index);
    if index < 0 {
      working.items := working.items + [Node(d.messageId, Assistant(NewRow(d, timing, closed)))];
    } else {
      working.items := working.items[index := ExtendedRow(working.items[index], d, timing, closed)];
    }
  }

  method ApplyCompletion(working: WorkingNodes, lookup: Index?, start: Option<nat>, turns: Turns, c: Completion,
                         input: Input)
    returns (from: Option<nat>)
    requires Aligned(working, lookup)
    modifies working
    ensures old(Trusted(working, lookup)) ==>
              Arranged(working.items, from) == PlaceCompletion(old(working.items), start, turns, c, input)
  {
    from := start;
    var closed := TurnIsClosed(turns, c.turn);
    ghost var before := working.items;
    InvalidateTail(working, turns, c.turn);
    if lookup != null && old(lookup.Covers()) {
      UnmarkedKeys(lookup.rows, before, turns, c.turn);
    }
    if closed {
      from := Some(0);
    }
    var timing := CompleteTiming(turns.timings, c.turn, c.step, c.time);
    var index := FindConversation(working, c.messageId, c.turn, c.step, false, lookup);
    from := Lower(from, if index < 0 then |working.items| else index);
    if index >= 0 {
      working.items := working.items[index := CompletedOver(working.items[index], c, input, timing, closed)];
    } else if c.markdown.Some? || c.reasoning.Some? || c.images.Some? {
      working.items := working.items + [Node(c.messageId, Assistant(CompletedRow(c, input.sequence, timing)))];
    }
  }

  // ---- the other arms ----

  method ApplyAttempt(working: WorkingNodes, start: Option<nat>, turns: Turns, turn: int, step: int, sequence: int)
    returns (from: Option<nat>)
    modifies working
    ensures Arranged(working.items, from) == RemoveAttempt(old(working.items), start, turns, turn, step, sequence)
  {
    InvalidateTail(working, turns, Some(turn));
    var index := FindNodeIndexFromEnd(working.items, AttemptAt(turn, step, sequence));
    if index < 0 {
      return start;
    }
    working.items := working.items[..index] + working.items[index + 1..];
    return Lower(start, index);
  }

  method ApplyStepEnd(working: WorkingNodes, turns: Turns, turn: int, step: int, sequence: int)
    modifies working
    ensures working.items == StepEndedRows(Unmarked(old(working.items), turns, Some(turn)), turn, step, sequence)
  {
    InvalidateTail(working, turns, Some(turn));
    ghost var rows := working.items;
    var n := |working.items|;
    for i := 0 to n
      invariant |working.items| == n == |rows|
      invariant forall j :: 0 <= j < i ==> working.items[j] == StepEndedRow(rows[j], turn, step, sequence)
      invariant forall j :: i <= j < n ==> working.items[j] == rows[j]
    {
      working.items := working.items[i := StepEndedRow(working.items[i], turn, step, sequence)];
    }
  }

  method ApplyToolPreview(working: WorkingNodes, turns: Turns, p: Preparing)
    modifies working
    ensures working.items
            == if p.turn in turns.closed || PreviewIsStale(old(working.items), p) then old(working.items)
               else Upserted(old(working.items), PreviewOf(p))
  {
    if p.turn in turns.closed {
      return;
    }
    var existing := FindNodeIndexFromEnd(working.items, ToolWithId(p.callId));
    if existing >= 0 {
      var known := working.items[existing].body.tool.preparation;
      if known.None? || (known.value.attemptId == p.attemptId && known.value.updateIndex >= p.updateIndex) {
        return;
      }
    }
    var position := Upsert(working, PreviewOf(p), null);
  }

  method ApplyTool(working: WorkingNodes, turns: Turns, callId: string, tool: ToolCall, sequence: int)
    modifies working
    ensures working.items == PlaceTool(old(working.items), turns, callId, tool, sequence)
  {
    InvalidateTail(working, turns, tool.turn);
    var next := CloseLateTool(tool, turns.closed);
    var existing := FindNodeIndexFromEnd(working.items, ToolWithId(callId));
    if existing >= 0 {
      working.items := working.items[existing :=
        Node(callId, Tool(MergeTool(working.items[existing].body.tool, next), Some(sequence)))];
    } else {
      var position := Upsert(working, Node(callId, Tool(next, Some(sequence))), null);
    }
  }

  method ApplyCompaction(working: WorkingNodes, compactionId: string, compaction: Compaction)
    modifies working
    ensures working.items == PlaceCompaction(old(working.items), compactionId, compaction)
  {
    var id := "compaction:" + compactionId;
    var existing := FindNodeIndexFromEnd(working.items, CompactionWithId(id));
    if existing >= 0 {
      working.items := working.items[existing :=
        Node(id, Compacting(MergeCompaction(working.items[existing].body.compaction, compaction)))];
    } else {
      var position := Upsert(working, Node(id, Compacting(compaction)), null);
    }
  }

  method ApplyRetry(working: WorkingNodes, turns: Turns, r: RetrySignal, sequence: int)
    modifies working
    ensures working.items == PlaceRetry(old(working.items), turns, r, sequence)
  {
    InvalidateTail(working, turns, Some(r.turn));
    var id := "retry:" + r.id;
    var existing := FindNodeIndexFromEnd(working.items, RetryWithId(id));
    var closed := r.turn in turns.closed;
    if existing < 0 {
      working.items := working.items + [Node(id, Retrying(RetryRow(None, r, closed, sequence)))];
    } else {
      working.items := working.items[existing :=
        Node(id, Retrying(RetryRow(Some(working.items[existing].body.retry), r, closed, sequence)))];
    }
  }

  method ApplyNotice(working: WorkingNodes, modes: map<string, CommandMode>, n: NoticeEvent, sequence: int)
    modifies working
    ensures working.items == PlaceNotice(old(working.items), modes, n, sequence)
  {
    var modeCommand := ModeOf(modes, n).Some?;
    var position: nat;
    if n.commandInput.Some? && !modeCommand {
      position :=
        Upsert(working,
               Node("command-input:" + Decimal(sequence),
                    Other(Card("command-input", None, None, n.commandInput.value))), null);
    }
    var hidden := modeCommand && n.level.Info?;
    var claimed := n.level.Error? && HasTurnFailureWithText(working.items, n.text);
    if !hidden && !claimed && !(n.level.Info? && AnnouncesStart(n.text)) {
      position := Upsert(working, Node("notice:" + Decimal(sequence), TimelineNodes.Notice(n.level, n.text)), null);
    }
  }

  method InsertSequencedNode(working: WorkingNodes, node: Node) returns (counts: bool)
    modifies working
    ensures working.items == Inserted(old(working.items), node) && counts == InsertCounts(old(working.items), node)
  {
    var existing := FirstWithId(working.items, node.id, 0);
    if existing >= 0 {
      var replaced := working.items[existing];
      working.items := working.items[existing := node];
      return !replaced.body.RawEvent? && node.body.RawEvent?;
    }
    counts := node.body.RawEvent?;
    var sequence := NodeSequence(node);
    if sequence.None? {
      working.items := working.items + [node];
      return;
    }
    var later := FirstLater(working.items, sequence.value, 0);
    if later < 0 {
      working.items := working.items + [node];
    } else {
      working.items := working.items[..later] + [node] + working.items[later..];
    }
  }

  // The arms that neither look anything up in the index nor move the hint.
  method ApplyRows(working: WorkingNodes, state: State, input: Input) returns (counts: bool)
    requires !input.event.UserMessage? && !input.event.MessageDelta? && !input.event.MessageCompleted?
             && !input.event.AssistantAttempt?
    modifies working
    ensures working.items == RowsAfter(old(working.items), state.turns, state.commandModes, input)
    ensures counts == (input.event.UnknownEvent? && InsertCounts(old(working.items), RawEventNode(input)))
  {
    counts := false;
    var turns := state.turns;
    var position: nat;
    match input.event
    case TurnStarted(turn) => working.items := InvalidateTurnTail(working.items, turn);
    case TurnEnded(turn, reason, failure) =>
      working.items :=
        CloseTurn(working.items, turn, reason, failure, input.sequence, TurnUsageAtEnd(turns, turn, reason));
    case StepStarted(turn, _, _) => InvalidateTail(working, turns, Some(turn));
    case StepEnded(turn, step) => ApplyStepEnd(working, turns, turn, step, input.sequence);
    case ToolPreparing(p) => ApplyToolPreview(working, turns, p);
    case ToolUpdated(callId, tool) => ApplyTool(working, turns, callId, tool, input.sequence);
    case CardUpdated(id, card) => position := Upsert(working, CardNode(id, card, input.sequence), null);
    case CompactionUpdated(id, compaction) => ApplyCompaction(working, id, compaction);
    case ModelRetry(r) => ApplyRetry(working, turns, r, input.sequence);
    case ConnectionLost(cause) =>
      position :=
        Upsert(working, Node("connection:" + Decimal(input.sequence), TimelineNodes.Notice(Error, cause)), null);
    case Noticed(n) => ApplyNotice(working, state.commandModes, n, input.sequence);
    case UnknownEvent(_, _) => counts := InsertSequencedNode(working, RawEventNode(input));
    case _ =>
  }

  // The switch over the event, on rows whose retired previews are already gone.
  method ApplyEvent(working: WorkingNodes, lookup: Index?, start: Option<nat>, state: State, input: Input)
    returns (from: Option<nat>, counts: bool)
    requires Aligned(working, lookup)
    modifies working
    ensures old(Trusted(working, lookup)) ==>
              Arranged(working.items, from)
                == Arrange(old(working.items), start, state.turns, state.commandModes, input)
    ensures counts == (input.event.UnknownEvent? && InsertCounts(old(working.items), RawEventNode(input)))
  {
    counts := false;
    match input.event
    case UserMessage(messageId, user) => from := ApplyUser(working, lookup, start, messageId, user);
    case MessageDelta(d) => from := ApplyDelta(working, lookup, start, state.turns, d);
    case MessageCompleted(c) => from := ApplyCompletion(working, lookup, start, state.turns, c, input);
    case AssistantAttempt(turn, step, _) =>
      from := ApplyAttempt(working, start, state.turns, turn, step, input.sequence);
    case _ =>
      from := start;
      counts := ApplyRows(working, state, input);
  }

  // ---- one transition ----

  // The two states differ at most in the array their change hint is relative to.
  predicate SameButBase(a: State, b: State) {
    a.(changeBase := None) == b.(changeBase := None)
  }

  predicate Processes(state: State, input: Input) {
    !Ignored(state, input) && MayChangeNodes(state, input.event)
  }

  lemma RetiredCovers(rows: seq<Node>, nodes: seq<Node>, event: Event, first: nat)
    requires |rows| == |nodes| && KeysAgree(rows, nodes, |rows|) && FirstRetired(nodes, event) == Some(first)
    ensures KeysAgree(rows, Retained(nodes, event), first)
  {
    RetiredAgree(nodes, event);
  }

  // Takes the retired previews out and brings the index up to the first of them.
  method RetirePreviews(working: WorkingNodes, lookup: Index?, event: Event) returns (first: Option<nat>)
    requires Aligned(working, lookup)
    modifies working, lookup
    ensures working.items == Retained(old(working.items), event) && first == FirstRetired(old(working.items), event)
    ensures Aligned(working, lookup) && (old(Trusted(working, lookup)) ==> Trusted(working, lookup))
  {
    ghost var before := working.items;
    working.items, first := RetireToolPreviews(working.items, event);
    if lookup != null {
      if first.Some? {
        if old(lookup.Covers()) {
          RetiredCovers(lookup.rows, before, event, first.value);
        }
        lookup.Synchronize(first.value);
      } else {
        RetiredAgree(before, event);
      }
    }
  }

  // Previews, then the event; afterwards the index is right about the rows before the hint.
  method ArrangeInPlace(state: State, input: Input, working: WorkingNodes, lookup: Index?)
    returns (start: nat, counts: bool)
    requires working.items == state.nodes && Aligned(working, lookup) && !Ignored(state, input)
    modifies working, lookup
    ensures Aligned(working, lookup)
    ensures old(Trusted(working, lookup)) ==> Arranged(working.items, Some(start)) == NodesAfter(state, input)
    ensures counts
            == (input.event.UnknownEvent? && InsertCounts(Retained(state.nodes, input.event), RawEventNode(input)))
    ensures lookup != null && old(lookup.Covers()) && !MisleadsReplay(state, input) ==>
              KeysAgree(lookup.rows, working.items, start)
  {
    var first := RetirePreviews(working, lookup, input.event);
    ghost var kept := working.items;
    var from: Option<nat>;
    from, counts := ApplyEvent(working, lookup, first, state, input);
    start := from.GetOr(0);
    if lookup != null && old(lookup.Covers()) && !MisleadsReplay(state, input) {
      TransitionKeys(state, input);
      KeysThrough(lookup.rows, kept, working.items, start);
    }
  }

  // The state around rows that are already arranged.
  function Advanced(state: State, input: Input, nodes: seq<Node>, start: Option<nat>, base: Option<seq<Node>>): State {
    State(
      Or(state.sessionId, input.sessionId),
      nodes,
      if input.advances then input.sequence else state.lastSequence,
      start,
      base,
      EventCountAfter(state, input),
      if input.event.Noticed? then ModesAfter(state.commandModes, input.event.notice) else state.commandModes,
      TokenUsageAfter(state, input.event),
      Track(state.turns, input.event))
  }

  lemma AdvancedIsReduce(state: State, input: Input)
    requires !Ignored(state, input)
    ensures Processes(state, input) ==>
              var arranged := NodesAfter(state, input);
              Reduce(state, input) == Advanced(state, input, arranged.nodes, arranged.start, Some(state.nodes))
    ensures !Processes(state, input) ==>
              Reduce(state, input)
              == Advanced(state, input, state.nodes, state.changeStart,
                          if state.changeStart.None? then None else state.changeBase)
  {
  }

  method Advance(state: State, input: Input, nodes: seq<Node>, start: Option<nat>, base: Option<seq<Node>>,
                 counts: bool)
    returns (next: State)
    requires counts
             == (input.event.UnknownEvent? && InsertCounts(Retained(state.nodes, input.event), RawEventNode(input)))
    ensures next == Advanced(state, input, nodes, start, base)
  {
    var tracking := new Tracking(state.turns);
    TrackEvent(tracking, input.event);
    var eventCount := state.eventCount;
    if input.event.UnknownEvent? {
      eventCount := Some(state.eventCount.GetOr(CountEventNodes(state.nodes)) + if counts then 1 else 0);
    }
    next := State(
      Or(state.sessionId, input.sessionId),
      nodes,
      if input.advances then input.sequence else state.lastSequence,
      start,
      base,
      eventCount,
      if input.event.Noticed? then ModesAfter(state.commandModes, input.event.notice) else state.commandModes,
      TokenUsageAfter(state, input.event),
      tracking.Snapshot());
  }

  // Where the rows of the state are the working array itself, so is the base of the hint, and it reads as the array
  // does once it has been edited.
  function Rebased(next: State, shared: bool): State {
    if shared then next.(changeBase := Some(next.nodes)) else next
  }

  // A transition that may touch rows, in an array of its own where none is passed.
  method ProcessRows(state: State, input: Input, working: WorkingNodes?, lookup: Index?, shared: bool)
    returns (next: State)
    requires working != null ==> working.items == state.nodes
    requires lookup != null ==> working != null && Aligned(working, lookup)
    requires Processes(state, input)
    modifies working, lookup
    ensures lookup != null ==> Aligned(working, lookup)
    ensures working != null ==> working.items == next.nodes
    ensures lookup == null || old(lookup.Covers()) ==> next == Rebased(Reduce(state, input), shared)
    ensures lookup != null && old(lookup.Covers()) && !MisleadsReplay(state, input) ==>
              KeysAgree(lookup.rows, working.items, next.changeStart.GetOr(0))
  {
    var own: WorkingNodes;
    if working == null {
      own := new WorkingNodes(state.nodes);
    } else {
      own := working;
    }
    var from, counts := ArrangeInPlace(state, input, own, lookup);
    var base := if shared then own.items else state.nodes;
    next := Advance(state, input, own.items, Some(from), Some(base), counts);
    AdvancedIsReduce(state, input);
  }

  // One transition; `shared` says whether the rows of the state are the working array itself.
  method ReduceTimeline(state: State, input: Input, working: WorkingNodes?, lookup: Index?, shared: bool)
    returns (next: State)
    requires working != null ==> working.items == state.nodes
    requires lookup != null ==> working != null && Aligned(working, lookup)
    requires shared ==> working != null
    modifies working, lookup
    ensures lookup != null ==> Aligned(working, lookup)
    ensures working != null ==> working.items == next.nodes
    ensures lookup == null || old(lookup.Covers()) ==>
              next == Rebased(Reduce(state, input), shared && Processes(state, input))
    ensures lookup != null && !Processes(state, input) ==> unchanged(lookup) && unchanged(working)
    ensures lookup != null && old(lookup.Covers()) && Processes(state, input) && !MisleadsReplay(state, input) ==>
              KeysAgree(lookup.rows, working.items, next.changeStart.GetOr(0))
  {
    if Ignored(state, input) {
      return state;
    }
    if MayChangeNodes(state, input.event) {
      next := ProcessRows(state, input, working, lookup, shared);
      return;
    }
    AdvancedIsReduce(state, input);
    var base := if state.changeStart.None? then None else state.changeBase;
    next := Advance(state, input, state.nodes, state.changeStart, base, false);
  }

  // ---- a whole history ----

  lemma NodesIgnoreBase(state: State, base: Option<seq<Node>>, input: Input)
    ensures NodesAfter(state.(changeBase := base), input) == NodesAfter(state, input)
    ensures MisleadsReplay(state.(changeBase := base), input) == MisleadsReplay(state, input)
  {
  }

  lemma AdvancedIgnoresBase(
    state: State, base: Option<seq<Node>>, input: Input, nodes: seq<Node>, start: Option<nat>, was: Option<seq<Node>>,
    now: Option<seq<Node>>)
    ensures SameButBase(Advanced(state, input, nodes, start, was),
                        Advanced(state.(changeBase := base), input, nodes, start, now))
  {
  }

  lemma BaseIsIrrelevant(a: State, b: State, input: Input)
    requires SameButBase(a, b)
    ensures SameButBase(Reduce(a, input), Reduce(b, input))
    ensures MisleadsReplay(a, input) == MisleadsReplay(b, input)
  {
    assert b == a.(changeBase := b.changeBase);
    NodesIgnoreBase(a, b.changeBase, input);
    if !Ignored(a, input) {
      AdvancedIsReduce(a, input);
      AdvancedIsReduce(b, input);
      if Processes(a, input) {
        var arranged := NodesAfter(a, input);
        AdvancedIgnoresBase(a, b.changeBase, input, arranged.nodes, arranged.start, Some(a.nodes), Some(b.nodes));
      } else {
        AdvancedIgnoresBase(a, b.changeBase, input, a.nodes, a.changeStart,
                            if a.changeStart.None? then None else a.changeBase,
                            if b.changeStart.None? then None else b.changeBase);
      }
    }
  }

  ghost predicate NeverMisleads(state: State, inputs: seq<Input>) {
    forall k: nat :: k < |inputs| ==> !MisleadsReplay(ReduceAll(state, inputs[..k]), inputs[k])
  }

  // How many events of a history may touch rows.
  ghost function Touching(state: State, inputs: seq<Input>): nat {
    if inputs == [] then 0
    else
      var init := inputs[..|inputs| - 1];
      Touching(state, init) + if Processes(ReduceAll(state, init), inputs[|inputs| - 1]) then 1 else 0
  }

  // The first event that may touch rows copies them; from the second on the rows it starts from are the working array.
  ghost function Replayed(state: State, inputs: seq<Input>): State {
    Rebased(ReduceAll(state, inputs), Touching(state, inputs) >= 2)
  }

  lemma ReplayedPush(state: State, past: seq<Input>, input: Input)
    ensures ReduceAll(state, past + [input]) == Reduce(ReduceAll(state, past), input)
    ensures Touching(state, past + [input])
            == Touching(state, past) + if Processes(ReduceAll(state, past), input) then 1 else 0
  {
    assert (past + [input])[..|past + [input]| - 1] == past;
  }

  lemma StartIsKept(state: State, input: Input)
    ensures Processes(state, input) ==> Reduce(state, input).changeStart.Some?
    ensures !Processes(state, input) ==>
              Reduce(state, input).changeStart == state.changeStart && Reduce(state, input).nodes == state.nodes
    ensures !Processes(state, input) && state.changeStart.Some? ==>
              Reduce(state, input).changeBase == state.changeBase
  {
  }

  lemma ProcessesIgnoresBase(a: State, b: State, input: Input)
    requires SameButBase(a, b)
    ensures Processes(a, input) == Processes(b, input)
  {
    assert b == a.(changeBase := b.changeBase);
  }

  // What the next event of a replay makes of its state.
  ghost function ReplayStep(next: State, input: Input, started: bool): State {
    Rebased(Reduce(next, input), started && Processes(next, input))
  }

  // A replay so far: whether it has a working array yet, and its state.
  ghost predicate Stands(state: State, past: seq<Input>, started: bool, next: State) {
    && next == Replayed(state, past) && started == (Touching(state, past) >= 1)
    && (started ==> next.changeStart.Some?)
  }

  // With a hint there is a base, so an event that touches no rows leaves both as they are.
  lemma StillStands(state: State, past: seq<Input>, input: Input, started: bool, next: State, a: State, b: State,
                    touches: bool)
    requires Stands(state, past, started, next)
    requires b == ReduceAll(state, past + [input]) && SameButBase(a, b)
    requires next == ReduceAll(state, past) ==> a == b
    requires Touching(state, past + [input]) == Touching(state, past) + if touches then 1 else 0
    requires if touches then a.changeStart.Some?
             else a.changeStart == next.changeStart && a.nodes == next.nodes
                  && (next.changeStart.Some? ==> a.changeBase == next.changeBase)
    ensures Stands(state, past + [input], started || touches, Rebased(a, started && touches))
  {
  }

  lemma ReplayedOne(state: State, past: seq<Input>, input: Input, started: bool, next: State)
    requires Stands(state, past, started, next)
    ensures Stands(state, past + [input], started || Processes(next, input), ReplayStep(next, input, started))
    ensures MisleadsReplay(next, input) == MisleadsReplay(ReduceAll(state, past), input)
  {
    var folded := ReduceAll(state, past);
    ReplayedPush(state, past, input);
    BaseIsIrrelevant(next, folded, input);
    ProcessesIgnoresBase(next, folded, input);
    StartIsKept(next, input);
    StillStands(state, past, input, started, next, Reduce(next, input), Reduce(folded, input), Processes(next, input));
  }

  // The array and the index that a transition needs, made when the first transition needs them.
  method Prepare(state: State, working: WorkingNodes?, index: Index?) returns (rows: WorkingNodes, lookup: Index)
    requires working != null ==> working.items == state.nodes
    requires index != null ==> working != null && Aligned(working, index)
    ensures rows == working || (working == null && fresh(rows))
    ensures lookup == index || (index == null && fresh(lookup))
    ensures rows.items == state.nodes && Aligned(rows, lookup)
    ensures index == null ==> lookup.Covers()
  {
    if working == null {
      rows := new WorkingNodes(state.nodes);
    } else {
      rows := working;
    }
    if index == null {
      lookup := new Index(rows);
    } else {
      lookup := index;
    }
  }

  // A transition that may touch rows, after which the index is brought up from the hint on.
  method ReplayProcessed(state: State, input: Input, rows: WorkingNodes, lookup: Index, shared: bool)
    returns (next: State)
    requires rows.items == state.nodes && Aligned(rows, lookup) && Processes(state, input)
    modifies rows, lookup
    ensures Aligned(rows, lookup) && rows.items == next.nodes
    ensures old(lookup.Covers()) ==> next == Rebased(Reduce(state, input), shared)
    ensures old(lookup.Covers()) && !MisleadsReplay(state, input) ==> lookup.Covers()
  {
    next := ReduceTimeline(state, input, rows, lookup, shared);
    lookup.Synchronize(next.changeStart.GetOr(0));
  }

  // One event of a replay; the first that may touch rows makes the working array and its index.
  method ReplayOne(state: State, input: Input, working: WorkingNodes?, index: Index?)
    returns (next: State, rows: WorkingNodes?, lookup: Index?)
    requires working != null ==> working.items == state.nodes
    requires index != null ==> working != null && Aligned(working, index)
    modifies working, index
    ensures rows == working || fresh(rows)
    ensures lookup == index || fresh(lookup)
    ensures rows != null <==> working != null || Processes(state, input)
    ensures rows != null ==> rows.items == next.nodes
    ensures lookup != null ==> rows != null && Aligned(rows, lookup)
    ensures index == null || old(index.Covers()) ==> next == ReplayStep(state, input, working != null)
    ensures (index == null || old(index.Covers())) && !MisleadsReplay(state, input) && lookup != null ==>
              lookup.Covers()
  {
    rows, lookup := working, index;
    if Processes(state, input) {
      var items, made := Prepare(state, working, index);
      rows, lookup := items, made;
      next := ReplayProcessed(state, input, items, made, working != null);
    } else {
      next := ReduceTimeline(state, input, working, index, working != null);
    }
  }

  // Without tool previews nothing can mislead it.
  lemma PreviewFreeNeverMisleads(state: State, inputs: seq<Input>)
    requires NoPreviews(state.nodes) && forall i :: 0 <= i < |inputs| ==> PreviewFree(inputs[i].event)
    ensures NeverMisleads(state, inputs)
  {
    forall k: nat | k < |inputs| ensures !MisleadsReplay(ReduceAll(state, inputs[..k]), inputs[k]) {
      PreviewFreeRun(state, inputs, k);
    }
  }

  // The same, as part of a history: where nothing has misled the replay so far, it stands where the history says.
  method ReplayNext(state: State, inputs: seq<Input>, k: nat, working: WorkingNodes?, index: Index?, ghost first: State)
    returns (next: State, rows: WorkingNodes?, lookup: Index?)
    requires k < |inputs|
    requires working != null ==> working.items == state.nodes
    requires index != null ==> working != null && Aligned(working, index)
    modifies working, index
    ensures rows == working || fresh(rows)
    ensures lookup == index || fresh(lookup)
    ensures rows != null ==> rows.items == next.nodes
    ensures lookup != null ==> rows != null && Aligned(rows, lookup)
    ensures Stands(first, inputs[..k], working != null, state) && (index == null || old(index.Covers()))
            && NeverMisleads(first, inputs) ==>
              Stands(first, inputs[..k + 1], rows != null, next) && (lookup != null ==> lookup.Covers())
  {
    if Stands(first, inputs[..k], working != null, state) {
      ReplayedOne(first, inputs[..k], inputs[k], working != null, state);
      assert inputs[..k + 1] == inputs[..k] + [inputs[k]];
    }
    next, rows, lookup := ReplayOne(state, inputs[k], working, index);
  }

  // Replaying a history in one working array is folding the transition over it, unless the end of a failed turn takes a
  // notice away from before the previews it retires. After two or more events that may touch rows, the base of the
  // hint is the array of the result itself.
  method ReduceTimelineBatch(state: State, inputs: seq<Input>) returns (next: State)
    ensures NeverMisleads(state, inputs) ==> next == Replayed(state, inputs)
  {
    next := state;
    var working: WorkingNodes? := null;
    var index: Index? := null;
    ghost var trusted := NeverMisleads(state, inputs);
    assert inputs[..0] == [];
    for k := 0 to |inputs|
      invariant working != null ==> fresh(working) && working.items == next.nodes
      invariant index != null ==> fresh(index) && working != null && Aligned(working, index)
      invariant trusted ==> Stands(state, inputs[..k], working != null, next)
      invariant trusted && index != null ==> index.Covers()
    {
      next, working, index := ReplayNext(next, inputs, k, working, index, state);
    }
    assert inputs[..|inputs|] == inputs;
  }
}
