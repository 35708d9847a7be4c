/**
 What ends a turn: retired tool previews, settled rows, the terminal row, and the one row that may
 be continued from.
 */
module TurnClosure {
  import opened Filtering
  import opened Options
  import opened TimelineNodes
  import opened NodeLookup
  import opened TurnLedger

  // ---- tool previews ----

  predicate IsPreview(node: Node) {
    node.body.Tool? && node.body.tool.preparation.Some?
  }

  predicate AtStep(tool: ToolCall, turn: Option<int>, step: Option<int>) {
    tool.turn == turn && tool.step == step
  }

  predicate CanRetirePreviews(event: Event) {
    match event
    case Subscribed(baseline) => baseline == Some(false)
    case ConnectionLost(_) => true
    case TurnEnded(_, _, _) => true
    case ModelRetry(_) => true
    case StepEnded(_, _) => true
    case AssistantAttempt(_, _, _) => true
    case ToolPreparing(_) => true
    case MessageCompleted(c) => c.interrupted
    case MessageDelta(d) => d.transient.attemptId.Some?
    case _ => false
  }

  // Whether the event takes this preview row away.
  predicate Retires(event: Event, node: Node) {
    && CanRetirePreviews(event) && IsPreview(node)
    && var tool := node.body.tool;
       match event
       case Subscribed(_) => true
       case ConnectionLost(_) => true
       case TurnEnded(turn, _, _) => tool.turn == Some(turn)
       case ModelRetry(r) => AtStep(tool, Some(r.turn), Some(r.step))
       case StepEnded(turn, step) => AtStep(tool, Some(turn), Some(step))
       case AssistantAttempt(turn, step, _) => AtStep(tool, Some(turn), Some(step))
       case MessageCompleted(c) => AtStep(tool, c.turn, c.step)
       case ToolPreparing(p) =>
         AtStep(tool, Some(p.turn), Some(p.step)) && tool.preparation.value.attemptId != p.attemptId
       case MessageDelta(d) =>
         AtStep(tool, d.turn, d.step) && tool.preparation.value.attemptId != d.transient.attemptId.value
       case _ => false
  }

  function RetiredBy(event: Event): Node -> bool {
    node => Retires(event, node)
  }

  function Retained(nodes: seq<Node>, event: Event): seq<Node> {
    Kept(nodes, RetiredBy(event))
  }

  // The position of the first retired preview, if there is one.
  function FirstRetired(nodes: seq<Node>, event: Event): Option<nat> {
    FirstDropped(nodes, RetiredBy(event))
  }

  method RetireToolPreviews(nodes: seq<Node>, event: Event) returns (kept: seq<Node>, first: Option<nat>)
    ensures kept == Retained(nodes, event) && first == FirstRetired(nodes, event)
  {
    if CanRetirePreviews(event) {
      kept, first := SpliceMatching(nodes, RetiredBy(event));
    } else {
      KeptPrefix(nodes, RetiredBy(event));
      kept, first := nodes, None;
    }
  }

  // ---- the rows of a turn ----

  predicate OfTurn(node: Node, turn: int) {
    node.body.Assistant? && node.body.message.turn == Some(turn)
  }

  function Quiet(reasoning: Option<Prose>): Option<Prose> {
    match reasoning
    case Some(prose) => Some(prose.(streaming := false))
    case None => None
  }

  predicate Streams(m: Message) {
    m.streaming || (m.reasoning.Some? && m.reasoning.value.streaming)
  }

  function InvalidatedRow(node: Node, turn: int): Node {
    if OfTurn(node, turn) then
      node.(body := Assistant(node.body.message.(turnCompleted := false, turnUsage := None)))
    else node
  }

  function TailInvalidated(nodes: seq<Node>, turn: int): (r: seq<Node>)
    ensures |r| == |nodes|
    ensures forall i :: 0 <= i < |r| ==> r[i] == InvalidatedRow(nodes[i], turn)
  {
    seq(|nodes|, i requires 0 <= i < |nodes| => InvalidatedRow(nodes[i], turn))
  }

  method InvalidateTurnTail(nodes: seq<Node>, turn: int) returns (r: seq<Node>)
    ensures r == TailInvalidated(nodes, turn)
  {
    r := nodes;
    for i := 0 to |nodes|
      invariant |r| == |nodes|
      invariant forall j :: 0 <= j < i ==> r[j] == InvalidatedRow(nodes[j], turn)
      invariant forall j :: i <= j < |nodes| ==> r[j] == nodes[j]
    {
      if OfTurn(r[i], turn) {
        r := r[i := r[i].(body := Assistant(r[i].body.message.(turnCompleted := false, turnUsage := None)))];
      }
    }
  }

  // A row of the turn stops streaming; a tool that never settled is closed.
  function SettledRow(node: Node, turn: int, reason: EndReason, sequence: int): Node {
    match node.body
    case Assistant(m) =>
      if m.turn == Some(turn) && Streams(m) then
        node.(body := Assistant(m.(streaming := false,
                                sequence := if m.sequence.None? then Some(sequence) else m.sequence,
                                reasoning := Quiet(m.reasoning))))
      else node
    case Tool(tool, toolSequence) =>
      if tool.turn == Some(turn) && (tool.status.Queued? || tool.status.Running?) then
        node.(body := Tool(tool.(status := if reason.TurnError? then Failed else Cancelled), toolSequence))
      else node
    case _ => node
  }

  function SettledRows(nodes: seq<Node>, turn: int, reason: EndReason, sequence: int): (r: seq<Node>)
    ensures |r| == |nodes|
    ensures forall i :: 0 <= i < |r| ==> r[i] == SettledRow(nodes[i], turn, reason, sequence)
  {
    seq(|nodes|, i requires 0 <= i < |nodes| => SettledRow(nodes[i], turn, reason, sequence))
  }

  function TerminalId(turn: int): string {
    "turn-terminal:" + Decimal(turn)
  }

  function TextKey(text: string): string {
    Collapse(text)
  }

  predicate ClaimsFailure(node: Node, key: string) {
    node.body.Notice? && node.body.level.Error? && TextKey(node.body.text) == key
  }

  function ClaimedBy(key: string): Node -> bool {
    node => ClaimsFailure(node, key)
  }

  // The failure's own error notices go; an empty failure text matches nothing.
  function NoticesDropped(nodes: seq<Node>, key: string): seq<Node> {
    if key == "" then nodes else Kept(nodes, ClaimedBy(key))
  }

  function WithTerminal(nodes: seq<Node>, turn: int, reason: EndReason, failure: Option<string>,
                        sequence: int): seq<Node> {
    if reason.TurnCompleted? then nodes
    else
      var ended := Upserted(nodes, Node(TerminalId(turn), Ended(Terminal(turn, sequence, reason, failure))));
      if reason.TurnError? && failure.Some? then NoticesDropped(ended, TextKey(failure.value)) else ended
  }

  predicate SaysSomething(node: Node, turn: int) {
    OfTurn(node, turn) && !IsBlank(node.body.message.markdown)
  }

  // The last row of the turn that says anything, or -1.
  function ClosingIndex(nodes: seq<Node>, turn: int): (index: int)
    ensures -1 <= index < |nodes|
    ensures index >= 0 ==> SaysSomething(nodes[index], turn)
    ensures forall i :: index < i < |nodes| ==> !SaysSomething(nodes[i], turn)
  {
    if nodes == [] then -1
    else if SaysSomething(nodes[|nodes| - 1], turn) then |nodes| - 1
    else ClosingIndex(nodes[..|nodes| - 1], turn)
  }

  predicate Relevant(node: Node, turn: int) {
    match node.body
    case Assistant(m) => m.turn == Some(turn)
    case Tool(tool, _) => tool.turn.None? || tool.turn == Some(turn)
    case Retrying(r) => r.turn == turn
    case Other(card) => card.kind == "deliverables" && card.turn == Some(turn)
    case _ => false
  }

  // A row of the turn after the closing one, by durable sequence where both have one.
  predicate BlocksTail(nodes: seq<Node>, turn: int, closing: nat, i: nat)
    requires closing < |nodes| && i < |nodes|
  {
    && Relevant(nodes[i], turn) && i != closing
    && if NodeSequence(nodes[closing]).Some? && NodeSequence(nodes[i]).Some? then
         NodeSequence(nodes[i]).value > NodeSequence(nodes[closing]).value
       else i > closing
  }

  predicate Blocked(nodes: seq<Node>, turn: int, closing: nat)
    requires closing < |nodes|
  {
    exists i: nat :: i < |nodes| && BlocksTail(nodes, turn, closing, i)
  }

  function MarkedRow(node: Node, turn: int, completed: bool, usage: Option<Normalized>): Node {
    if OfTurn(node, turn) then
      node.(body := Assistant(node.body.message.(turnCompleted := completed, turnUsage := usage)))
    else node
  }

  // Whether the turn ends with a row it may be continued from.
  predicate Continuable(nodes: seq<Node>, turn: int, reason: EndReason) {
    var closing := ClosingIndex(nodes, turn);
    closing >= 0 && !reason.TurnError? && !reason.TurnUnknown? && !Blocked(nodes, turn, closing)
  }

  function Marked(nodes: seq<Node>, turn: int, reason: EndReason, usage: Option<Normalized>): (r: seq<Node>)
    ensures |r| == |nodes|
  {
    var closing := ClosingIndex(nodes, turn);
    seq(|nodes|, i requires 0 <= i < |nodes| =>
      MarkedRow(nodes[i], turn, i == closing && Continuable(nodes, turn, reason),
                if i == closing && reason.TurnCompleted? then usage else None))
  }

  function TurnClosed(
    nodes: seq<Node>, turn: int, reason: EndReason, failure: Option<string>, sequence: int,
    usage: Option<Normalized>): seq<Node>
  {
    Marked(WithTerminal(SettledRows(nodes, turn, reason, sequence), turn, reason, failure, sequence), turn, reason,
           usage)
  }

  // ---- the same, in place ----

  method DropNoticesMatchingFailure(nodes: seq<Node>, failure: string) returns (r: seq<Node>)
    ensures r == NoticesDropped(nodes, TextKey(failure))
  {
    r := nodes;
    var key := TextKey(failure);
    if key != "" {
      var first: Option<nat>;
      r, first := SpliceMatching(nodes, ClaimedBy(key));
    }
  }

  method SettleRows(nodes: seq<Node>, turn: int, reason: EndReason, sequence: int) returns (r: seq<Node>)
    ensures r == SettledRows(nodes, turn, reason, sequence)
  {
    r := nodes;
    for i := 0 to |nodes|
      invariant |r| == |nodes|
      invariant forall j :: 0 <= j < i ==> r[j] == SettledRow(nodes[j], turn, reason, sequence)
      invariant forall j :: i <= j < |nodes| ==> r[j] == nodes[j]
    {
      r := r[i := SettledRow(r[i], turn, reason, sequence)];
    }
  }

  method FindClosing(nodes: seq<Node>, turn: int) returns (closing: int)
    ensures closing == ClosingIndex(nodes, turn)
  {
    closing := -1;
    for i := 0 to |nodes|
      invariant closing == ClosingIndex(nodes[..i], turn)
    {
      assert nodes[..i + 1][..i] == nodes[..i];
      if SaysSomething(nodes[i], turn) {
        closing := i;
      }
    }
    assert nodes[..|nodes|] == nodes;
  }

  method MarkRows(nodes: seq<Node>, turn: int, reason: EndReason, usage: Option<Normalized>) returns (r: seq<Node>)
    ensures r == Marked(nodes, turn, reason, usage)
  {
    r := nodes;
    var closing := FindClosing(nodes, turn);
    var continuable := closing >= 0 && !reason.TurnError? && !reason.TurnUnknown? && !Blocked(nodes, turn, closing);
    for i := 0 to |nodes|
      invariant |r| == |nodes|
      invariant forall j :: 0 <= j < i ==> r[j] == Marked(nodes, turn, reason, usage)[j]
      invariant forall j :: i <= j < |nodes| ==> r[j] == nodes[j]
    {
      r := r[i := MarkedRow(r[i], turn, i == closing && continuable,
                            if i == closing && reason.TurnCompleted? then usage else None)];
    }
  }

  method CloseTurn(
    nodes: seq<Node>, turn: int, reason: EndReason, failure: Option<string>, sequence: int, usage: Option<Normalized>)
    returns (r: seq<Node>)
    ensures r == TurnClosed(nodes, turn, reason, failure, sequence, usage)
  {
    r := SettleRows(nodes, turn, reason, sequence);
    if !reason.TurnCompleted? {
      r := Upserted(r, Node(TerminalId(turn), Ended(Terminal(turn, sequence, reason, failure))));
      if reason.TurnError? && failure.Some? {
        r := DropNoticesMatchingFailure(r, failure.value);
      }
    }
    r := MarkRows(r, turn, reason, usage);
  }

  // ---- late rows ----

  function CloseLateTool(tool: ToolCall, closed: set<int>): ToolCall {
    if tool.turn.None? || tool.turn.value !in closed || !(tool.status.Queued? || tool.status.Running?) then tool
    else tool.(status := Cancelled)
  }

  predicate IsFailureOf(node: Node, key: string) {
    && node.body.Ended? && node.body.terminal.reason.TurnError? && node.body.terminal.failure.Some?
    && TextKey(node.body.terminal.failure.value) == key
  }

  predicate HasTurnFailureWithText(nodes: seq<Node>, text: string) {
    TextKey(text) != "" && exists i :: 0 <= i < |nodes| && IsFailureOf(nodes[i], TextKey(text))
  }

  // ---- what closing a turn promises ----

  predicate ContinuesFrom(node: Node, turn: int) {
    OfTurn(node, turn) && node.body.message.turnCompleted
  }

  // A row is marked only if it is the last of the turn to say anything, nothing of the turn follows
  // it, and the turn did not fail.
  lemma ClosedTurnMarks(nodes: seq<Node>, turn: int, reason: EndReason, failure: Option<string>, sequence: int,
                        usage: Option<Normalized>, i: nat)
    requires i < |TurnClosed(nodes, turn, reason, failure, sequence, usage)|
    ensures var r := TurnClosed(nodes, turn, reason, failure, sequence, usage);
            ContinuesFrom(r[i], turn)
            <==> !reason.TurnError? && !reason.TurnUnknown? && i == ClosingIndex(r, turn) && !Blocked(r, turn, i)
  {
    var ended := WithTerminal(SettledRows(nodes, turn, reason, sequence), turn, reason, failure, sequence);
    MarkedAs(ended, turn, reason, usage, i);
  }

  lemma MarkedAs(ended: seq<Node>, turn: int, reason: EndReason, usage: Option<Normalized>, i: nat)
    requires i < |ended|
    ensures var r := Marked(ended, turn, reason, usage);
            ContinuesFrom(r[i], turn)
            <==> !reason.TurnError? && !reason.TurnUnknown? && i == ClosingIndex(r, turn) && !Blocked(r, turn, i)
  {
    var r := Marked(ended, turn, reason, usage);
    MarkingKeepsClosing(ended, r, turn);
    SameBlocked(ended, r, turn, i);
  }

  lemma SameBlocked(a: seq<Node>, b: seq<Node>, turn: int, i: nat)
    requires |a| == |b| && i < |a|
    requires forall j :: 0 <= j < |a| ==>
               Relevant(a[j], turn) == Relevant(b[j], turn) && NodeSequence(a[j]) == NodeSequence(b[j])
    ensures Blocked(a, turn, i) == Blocked(b, turn, i)
  {
    if Blocked(a, turn, i) {
      var j: nat :| j < |a| && BlocksTail(a, turn, i, j);
      assert BlocksTail(b, turn, i, j);
    }
    if Blocked(b, turn, i) {
      var j: nat :| j < |b| && BlocksTail(b, turn, i, j);
      assert BlocksTail(a, turn, i, j);
    }
  }

  lemma {:induction false} MarkingKeepsClosing(a: seq<Node>, b: seq<Node>, turn: int)
    requires |a| == |b|
    requires forall i :: 0 <= i < |a| ==> SaysSomething(a[i], turn) == SaysSomething(b[i], turn)
    ensures ClosingIndex(a, turn) == ClosingIndex(b, turn)
    decreases |a|
  {
    if a != [] {
      MarkingKeepsClosing(a[..|a| - 1], b[..|b| - 1], turn);
    }
  }
}
