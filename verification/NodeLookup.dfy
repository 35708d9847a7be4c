/**
 How the reducer finds the row an event belongs to: scans from the newest row back, and the
 preview of a user message from the oldest row on.
 */
module NodeLookup {
  import opened Options
  import opened TimelineNodes

  // What a scan looks for.
  datatype Query =
    | AnyWithId(id: string)
    | Conversation(id: string, openOnly: bool)
    | OpenAt(turn: int, step: int)
    | AttemptAt(turn: int, step: int, sequence: int)
    | ToolWithId(id: string)
    | RetryWithId(id: string)
    | CompactionWithId(id: string)

  predicate IsOpen(node: Node) {
    match node.body
    case Assistant(m) => m.streaming || (m.reasoning.Some? && m.reasoning.value.streaming) || m.live.attempt.Some?
    case Reasoning(prose, _) => prose.streaming
    case _ => false
  }

  predicate Matches(query: Query, node: Node) {
    match query
    case AnyWithId(id) => node.id == id
    case Conversation(id, openOnly) =>
      node.id == id && (node.body.Assistant? || node.body.Reasoning?) && (openOnly ==> IsOpen(node))
    case OpenAt(turn, step) =>
      node.body.Assistant? && node.body.message.turn == Some(turn) && node.body.message.step == Some(step)
        && IsOpen(node)
    case AttemptAt(turn, step, sequence) =>
      && node.body.Assistant? && node.body.message.turn == Some(turn) && node.body.message.step == Some(step)
      && IsOpen(node)
      && (node.body.message.live.startedAfter.None? || sequence > node.body.message.live.startedAfter.value)
    case ToolWithId(id) => node.body.Tool? && node.id == id
    case RetryWithId(id) => node.body.Retrying? && node.id == id
    case CompactionWithId(id) => node.body.Compacting? && node.id == id
  }

  // The last row that matches, or -1.
  function LastIndex(nodes: seq<Node>, query: Query): (index: int)
    ensures -1 <= index < |nodes|
    ensures index >= 0 ==> Matches(query, nodes[index])
    ensures forall i :: index < i < |nodes| ==> !Matches(query, nodes[i])
  {
    if nodes == [] then -1
    else if Matches(query, nodes[|nodes| - 1]) then |nodes| - 1
    else LastIndex(nodes[..|nodes| - 1], query)
  }

  lemma LastIndexIs(nodes: seq<Node>, query: Query, index: int)
    requires -1 <= index < |nodes|
    requires index >= 0 ==> Matches(query, nodes[index])
    requires forall i :: index < i < |nodes| ==> !Matches(query, nodes[i])
    ensures LastIndex(nodes, query) == index
  {
    var last := LastIndex(nodes, query);
    if last >= 0 {
      assert Matches(query, nodes[last]);
    }
  }

  method FindNodeIndexFromEnd(nodes: seq<Node>, query: Query) returns (index: int)
    ensures index == LastIndex(nodes, query)
  {
    index := |nodes| - 1;
    while index >= 0
      invariant -1 <= index < |nodes|
      invariant forall i :: index < i < |nodes| ==> !Matches(query, nodes[i])
    {
      if Matches(query, nodes[index]) {
        LastIndexIs(nodes, query, index);
        return;
      }
      index := index - 1;
    }
    LastIndexIs(nodes, query, -1);
  }

  // The id first; a delta or completion without a row of its own joins the open row of its step.
  function ConversationIndex(nodes: seq<Node>, messageId: string, turn: Option<int>, step: Option<int>,
                             openOnly: bool): (index: int)
    ensures -1 <= index < |nodes|
    ensures index >= 0 ==> nodes[index].body.Assistant? || nodes[index].body.Reasoning?
  {
    var exact := LastIndex(nodes, Conversation(messageId, openOnly));
    if exact >= 0 || turn.None? || step.None? then exact else LastIndex(nodes, OpenAt(turn.value, step.value))
  }

  // ---- previews of user messages ----

  const OPTIMISTIC_PREFIX := "optimistic:user:"

  predicate IsOptimistic(node: Node) {
    node.body.User? && OPTIMISTIC_PREFIX <= node.id
  }

  function ImageCount(attachments: seq<Attachment>): nat {
    if attachments == [] then 0
    else ImageCount(attachments[..|attachments| - 1]) + if attachments[|attachments| - 1].isImage then 1 else 0
  }

  function FileNames(attachments: seq<Attachment>): seq<string> {
    if attachments == [] then []
    else
      var last := attachments[|attachments| - 1];
      FileNames(attachments[..|attachments| - 1]) + if last.isImage then [] else [last.name]
  }

  function Names(attachments: seq<Attachment>): seq<string> {
    seq(|attachments|, i requires 0 <= i < |attachments| => attachments[i].name)
  }

  // The preview's images are the event's images, and its other names lead the event's attachments.
  predicate SameUserMessagePreview(preview: UserBody, event: UserBody) {
    && preview.markdown == event.markdown
    && (preview.attachments == []
        || (ImageCount(preview.attachments) == |event.images|
            && FileNames(preview.attachments) <= Names(event.attachments)))
  }

  method ComputeSameUserMessagePreview(preview: UserBody, event: UserBody) returns (same: bool)
    ensures same == SameUserMessagePreview(preview, event)
  {
    if preview.markdown != event.markdown {
      return false;
    }
    var attachments := preview.attachments;
    if |attachments| == 0 {
      return true;
    }
    var names: seq<string> := [];
    var imageCount := 0;
    for i := 0 to |attachments|
      invariant names == FileNames(attachments[..i]) && imageCount == ImageCount(attachments[..i])
    {
      assert attachments[..i + 1][..i] == attachments[..i];
      if attachments[i].isImage {
        imageCount := imageCount + 1;
      } else {
        names := names + [attachments[i].name];
      }
    }
    assert attachments[..|attachments|] == attachments;
    return imageCount == |event.images| && names <= Names(event.attachments);
  }

  predicate StandsFor(node: Node, event: UserBody) {
    && IsOptimistic(node)
    && ((event.rpcId.Some? && node.body.user.rpcId == event.rpcId) || SameUserMessagePreview(node.body.user, event))
  }

  // The first preview the message replaces, or -1.
  function OptimisticUser(nodes: seq<Node>, event: UserBody): (index: int)
    ensures -1 <= index < |nodes|
    ensures index >= 0 ==> StandsFor(nodes[index], event)
    ensures forall i :: 0 <= i < (if index < 0 then |nodes| else index) ==> !StandsFor(nodes[i], event)
  {
    if nodes == [] then -1
    else
      var before := OptimisticUser(nodes[..|nodes| - 1], event);
      if before >= 0 then before else if StandsFor(nodes[|nodes| - 1], event) then |nodes| - 1 else -1
  }

  lemma OptimisticUserIs(nodes: seq<Node>, event: UserBody, index: int)
    requires -1 <= index < |nodes|
    requires index >= 0 ==> StandsFor(nodes[index], event)
    requires forall i :: 0 <= i < (if index < 0 then |nodes| else index) ==> !StandsFor(nodes[i], event)
    ensures OptimisticUser(nodes, event) == index
  {
    var first := OptimisticUser(nodes, event);
    if first >= 0 {
      assert StandsFor(nodes[first], event);
    }
  }

  method FindOptimisticUser(nodes: seq<Node>, event: UserBody) returns (index: int)
    ensures index == OptimisticUser(nodes, event)
  {
    index := 0;
    while index < |nodes|
      invariant 0 <= index <= |nodes|
      invariant forall i :: 0 <= i < index ==> !StandsFor(nodes[i], event)
    {
      if StandsFor(nodes[index], event) {
        OptimisticUserIs(nodes, event, index);
        return;
      }
      index := index + 1;
    }
    OptimisticUserIs(nodes, event, -1);
    index := -1;
  }

  // ---- placing rows ----

  // The last row of that id is replaced; without one the row is appended.
  function Upserted(nodes: seq<Node>, node: Node): (r: seq<Node>)
    ensures |nodes| <= |r| <= |nodes| + 1
  {
    var index := LastIndex(nodes, AnyWithId(node.id));
    if index < 0 then nodes + [node] else nodes[index := node]
  }

  function UpsertPosition(nodes: seq<Node>, id: string): (index: nat)
    ensures index <= |nodes|
  {
    var index := LastIndex(nodes, AnyWithId(id));
    if index < 0 then |nodes| else index
  }

  function Without(nodes: seq<Node>, index: int): seq<Node>
    requires 0 <= index < |nodes|
  {
    nodes[..index] + nodes[index + 1..]
  }

  function NodeSequence(node: Node): Option<int> {
    match node.body
    case Assistant(m) => m.sequence
    case Tool(_, sequence) => sequence
    case Retrying(r) => r.sequence
    case Ended(t) => Some(t.sequence)
    case RawEvent(sequence, _, _) => sequence
    case Other(card) => card.sequence
    case _ => None
  }

  // The first position from `from` whose row has the id, or -1.
  function FirstWithId(nodes: seq<Node>, id: string, from: nat): (index: int)
    requires from <= |nodes|
    ensures index == -1 || from <= index < |nodes|
    ensures index >= 0 ==> nodes[index].id == id
    ensures forall i :: from <= i < (if index < 0 then |nodes| else index) ==> nodes[i].id != id
    decreases |nodes| - from
  {
    if from == |nodes| then -1 else if nodes[from].id == id then from else FirstWithId(nodes, id, from + 1)
  }

  predicate IsLater(node: Node, sequence: int) {
    NodeSequence(node).Some? && NodeSequence(node).value > sequence
  }

  function FirstLater(nodes: seq<Node>, sequence: int, from: nat): (index: int)
    requires from <= |nodes|
    ensures index == -1 || from <= index < |nodes|
    ensures index >= 0 ==> IsLater(nodes[index], sequence)
    ensures forall i :: from <= i < (if index < 0 then |nodes| else index) ==> !IsLater(nodes[i], sequence)
    decreases |nodes| - from
  {
    if from == |nodes| then -1 else if IsLater(nodes[from], sequence) then from
    else FirstLater(nodes, sequence, from + 1)
  }

  // An event row goes before the first row with a later durable sequence.
  function Inserted(nodes: seq<Node>, node: Node): seq<Node> {
    var existing := FirstWithId(nodes, node.id, 0);
    if existing >= 0 then nodes[existing := node]
    else if NodeSequence(node).None? then nodes + [node]
    else
      var later := FirstLater(nodes, NodeSequence(node).value, 0);
      if later < 0 then nodes + [node] else nodes[..later] + [node] + nodes[later..]
  }

  // Whether inserting the row adds one to the number of raw event rows.
  predicate InsertCounts(nodes: seq<Node>, node: Node) {
    var existing := FirstWithId(nodes, node.id, 0);
    node.body.RawEvent? && (existing >= 0 ==> !nodes[existing].body.RawEvent?)
  }

  function CountEventNodes(nodes: seq<Node>): nat {
    if nodes == [] then 0
    else CountEventNodes(nodes[..|nodes| - 1]) + if nodes[|nodes| - 1].body.RawEvent? then 1 else 0
  }
}
