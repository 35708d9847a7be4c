/**
 The turn-numbered record ledger of a transcript, and the projector that folds only what changed.
 */
module Trajectory {
  import opened Options
  import opened Runs
  import opened TimelineNodes

  datatype RecordKind = UserRecord | ContextRecord | CompactedRecord | MessageRecord | ToolRecord

  // A record shows its node; how the text is cut and formatted is not part of it.
  datatype Record = Record(kind: RecordKind, node: Node, isError: bool, streaming: bool)

  datatype Indexed = Indexed(record: Record, index: nat)

  datatype Section =
    | TurnSection(turn: nat, records: seq<Indexed>)
    | BetweenTurns(records: seq<Indexed>)

  datatype Projection = Projection(sections: seq<Section>, recordCount: nat)

  // ---- the record of a node ----

  function TrimStart(s: string): string {
    if s != "" && IsSpace(s[0]) then TrimStart(s[1..]) else s
  }

  function TrimEnd(s: string): string {
    if s != "" && IsSpace(s[|s| - 1]) then TrimEnd(s[..|s| - 1]) else s
  }

  predicate IsDirectSource(source: Option<string>) {
    source.None?
    || var s := TrimEnd(TrimStart(source.value));
       |s| == 4 && s[0] in "uU" && s[1] in "sS" && s[2] in "eE" && s[3] in "rR"
  }

  function RecordOf(node: Node): Option<Record> {
    match node.body
    case User(user) =>
      Some(Record(if IsDirectSource(user.source) then UserRecord else ContextRecord, node, false, false))
    case Assistant(m) => Some(Record(MessageRecord, node, false, m.streaming))
    case Reasoning(prose, _) => Some(Record(MessageRecord, node, false, prose.streaming))
    case Tool(tool, _) =>
      if tool.preparation.Some? then None
      else Some(Record(ToolRecord, node, tool.status.Failed?, tool.status.Queued? || tool.status.Running?))
    case Compacting(c) => Some(Record(CompactedRecord, node, false, c.phase != "end"))
    case _ => None
  }

  // ---- the fold ----

  datatype Fold = Fold(
    sections: seq<Section>,
    turn: Option<nat>,
    turnRecords: seq<Indexed>,
    pending: seq<Indexed>,
    between: Option<seq<Indexed>>,
    index: nat)

  const EMPTY := Fold([], None, [], [], None, 0)

  function BeginTurn(f: Fold): Fold {
    if f.turn.Some? then f else f.(turn := Some(1), turnRecords := f.turnRecords + f.pending, pending := [])
  }

  function AppendTurnRecord(f: Fold, record: Record): Fold {
    var begun := BeginTurn(f);
    begun.(
      sections := if begun.between.Some? then begun.sections + [BetweenTurns(begun.between.value)] else begun.sections,
      between := None,
      turnRecords := begun.turnRecords + [Indexed(record, begun.index + 1)],
      index := begun.index + 1)
  }

  function AppendBetweenRecord(f: Fold, record: Record): Fold {
    f.(between := Some(f.between.GetOr([]) + [Indexed(record, f.index + 1)]), index := f.index + 1)
  }

  function AppendPending(f: Fold, record: Record): Fold {
    f.(pending := f.pending + [Indexed(record, f.index + 1)], index := f.index + 1)
  }

  // A direct user record closes the turn that has records and opens the next.
  function NextTurn(f: Fold): Fold {
    if f.turn.None? then BeginTurn(f)
    else if f.turnRecords == [] then f
    else
      f.(sections := f.sections + [TurnSection(f.turn.value, f.turnRecords)], turnRecords := [],
         turn := Some(f.turn.value + 1))
  }

  function FoldRecord(f: Fold, record: Record): Fold {
    match record.kind
    case UserRecord => AppendTurnRecord(NextTurn(f), record)
    case ContextRecord => if f.turn.None? then AppendPending(f, record) else AppendTurnRecord(f, record)
    case CompactedRecord => AppendBetweenRecord(f, record)
    case _ => AppendTurnRecord(f, record)
  }

  function FoldNode(f: Fold, node: Node): Fold {
    match RecordOf(node)
    case Some(record) => FoldRecord(f, record)
    case None => f
  }

  function FoldNodes(f: Fold, nodes: seq<Node>): Fold {
    Run(FoldNode, f, nodes)
  }

  function Finish(f: Fold): Projection {
    Projection(
      f.sections
      + (if f.between.Some? then [BetweenTurns(f.between.value)] else [])
      + (if f.turnRecords != [] then [TurnSection(f.turn.GetOr(1), f.turnRecords)] else [])
      + (if f.pending != [] then [TurnSection(f.turn.GetOr(1), f.pending)] else []),
      f.index)
  }

  function BuildTrajectory(nodes: seq<Node>): Projection {
    Finish(FoldNodes(EMPTY, nodes))
  }

  // ---- the fold, in place ----

  class MutableFold {
    var sections: seq<Section>
    var turn: Option<nat>
    var turnRecords: seq<Indexed>
    var pending: seq<Indexed>
    var between: Option<seq<Indexed>>
    var index: nat

    constructor (checkpoint: Fold)
      ensures Value() == checkpoint
    {
      sections, turn, turnRecords := checkpoint.sections, checkpoint.turn, checkpoint.turnRecords;
      pending, between, index := checkpoint.pending, checkpoint.between, checkpoint.index;
    }

    function Value(): Fold
      reads this
    {
      Fold(sections, turn, turnRecords, pending, between, index)
    }

    method Begin()
      modifies this
      ensures Value() == BeginTurn(old(Value()))
    {
      if turn.Some? {
        return;
      }
      turn := Some(1);
      assert turnRecords + [] == turnRecords;
      if |pending| > 0 {
        turnRecords := turnRecords + pending;
        pending := [];
      }
    }

    method AddToTurn(record: Record)
      modifies this
      ensures Value() == AppendTurnRecord(old(Value()), record)
    {
      Begin();
      if between.Some? {
        sections := sections + [BetweenTurns(between.value)];
        between := None;
      }
      index := index + 1;
      turnRecords := turnRecords + [Indexed(record, index)];
    }

    method AddBetween(record: Record)
      modifies this
      ensures Value() == AppendBetweenRecord(old(Value()), record)
    {
      if between.None? {
        between := Some([]);
      }
      index := index + 1;
      between := Some(between.value + [Indexed(record, index)]);
    }

    method Add(record: Record)
      modifies this
      ensures Value() == FoldRecord(old(Value()), record)
    {
      match record.kind {
        case UserRecord =>
          if turn.None? {
            Begin();
          } else if |turnRecords| > 0 {
            sections := sections + [TurnSection(turn.value, turnRecords)];
            turnRecords := [];
            turn := Some(turn.value + 1);
          }
          AddToTurn(record);
        case ContextRecord =>
          if turn.None? {
            index := index + 1;
            pending := pending + [Indexed(record, index)];
          } else {
            AddToTurn(record);
          }
        case CompactedRecord => AddBetween(record);
        case _ => AddToTurn(record);
      }
    }

    method Close() returns (projection: Projection)
      modifies this
      ensures projection == Finish(old(Value()))
    {
      if between.Some? {
        sections := sections + [BetweenTurns(between.value)];
      }
      if |turnRecords| > 0 {
        sections := sections + [TurnSection(turn.GetOr(1), turnRecords)];
      }
      if |pending| > 0 {
        sections := sections + [TurnSection(turn.GetOr(1), pending)];
      }
      return Projection(sections, index);
    }
  }

  // Folds the nodes from `start` on and keeps the state reached at `captureAt`.
  method FoldTrajectoryNodes(nodes: seq<Node>, start: nat, checkpoint: Fold, captureAt: nat)
    returns (projection: Projection, captured: Fold)
    requires start <= captureAt <= |nodes|
    ensures projection == Finish(FoldNodes(checkpoint, nodes[start..]))
    ensures captured == FoldNodes(checkpoint, nodes[start..captureAt])
  {
    var fold := new MutableFold(checkpoint);
    captured := checkpoint;
    assert nodes[start..start] == [];
    for i := start to |nodes|
      invariant fold.Value() == FoldNodes(checkpoint, nodes[start..i])
      invariant captureAt <= i ==> captured == FoldNodes(checkpoint, nodes[start..captureAt])
    {
      assert nodes[start..i + 1] == nodes[start..i] + [nodes[i]];
      FoldOne(checkpoint, nodes[start..i], nodes[i]);
      var record := RecordOf(nodes[i]);
      if record.Some? {
        fold.Add(record.value);
      }
      if i + 1 == captureAt {
        captured := fold.Value();
      }
    }
    assert nodes[start..|nodes|] == nodes[start..];
    projection := fold.Close();
  }

  lemma FoldOne(f: Fold, nodes: seq<Node>, node: Node)
    ensures FoldNodes(f, nodes + [node]) == FoldNode(FoldNodes(f, nodes), node)
  {
    RunAppend(FoldNode, f, nodes, [node]);
    assert [node][..0] == [];
  }

  // ---- the projector ----

  // Nodes and snapshots are objects: the projector compares them by identity.
  class NodeObject {
    const node: Node

    constructor (node: Node)
      ensures this.node == node
    {
      this.node := node;
    }
  }

  class Snapshot {
    const nodes: seq<NodeObject>

    constructor (nodes: seq<NodeObject>)
      ensures this.nodes == nodes
    {
      this.nodes := nodes;
    }

    function Values(): (r: seq<Node>)
      ensures |r| == |nodes|
    {
      seq(|nodes|, i requires 0 <= i < |nodes| => nodes[i].node)
    }
  }

  predicate IsTrajectoryBoundary(node: Node) {
    match node.body
    case Assistant(m) => !m.streaming
    case Reasoning(prose, _) => !prose.streaming
    case Tool(tool, _) => !tool.status.Queued? && !tool.status.Running?
    case Compacting(c) => c.phase == "end"
    case _ => true
  }

  method LatestTrajectoryBoundary(nodes: seq<Node>, start: nat) returns (boundary: nat)
    requires start <= |nodes|
    ensures start <= boundary <= |nodes|
    ensures boundary > start ==> IsTrajectoryBoundary(nodes[boundary - 1])
    ensures forall i :: boundary <= i < |nodes| ==> !IsTrajectoryBoundary(nodes[i])
  {
    boundary := |nodes|;
    while boundary > start
      invariant start <= boundary <= |nodes|
      invariant forall i :: boundary <= i < |nodes| ==> !IsTrajectoryBoundary(nodes[i])
    {
      if IsTrajectoryBoundary(nodes[boundary - 1]) {
        return;
      }
      boundary := boundary - 1;
    }
  }

  method CommonPrefixLength(previous: seq<NodeObject>, next: seq<NodeObject>) returns (length: nat)
    ensures length <= |previous| && length <= |next| && previous[..length] == next[..length]
    ensures length < |previous| && length < |next| ==> previous[length] != next[length]
  {
    length := 0;
    while length < |previous| && length < |next| && previous[length] == next[length]
      invariant length <= |previous| && length <= |next| && previous[..length] == next[..length]
    {
      length := length + 1;
    }
  }

  function Clamp(hint: int, a: nat, b: nat): nat {
    var least := if a < b then a else b;
    if hint < 0 then 0 else if hint < least then hint else least
  }

  // The hint's promise: below it the new nodes are those of the array it was derived from.
  predicate HonestHint(base: Snapshot, nodes: Snapshot, hint: int) {
    forall i :: 0 <= i < Clamp(hint, |base.nodes|, |nodes.nodes|) ==> base.nodes[i].node == nodes.nodes[i].node
  }

  datatype Cache = Cache(source: Snapshot, stableRawLength: nat, checkpoint: Fold, projection: Projection)

  lemma FoldSplit(nodes: seq<Node>, at: nat)
    requires at <= |nodes|
    ensures FoldNodes(EMPTY, nodes) == FoldNodes(FoldNodes(EMPTY, nodes[..at]), nodes[at..])
  {
    assert nodes == nodes[..at] + nodes[at..];
    RunAppend(FoldNode, EMPTY, nodes[..at], nodes[at..]);
  }

  lemma FoldPrefix(nodes: seq<Node>, start: nat, at: nat)
    requires start <= at <= |nodes|
    ensures FoldNodes(EMPTY, nodes[..at]) == FoldNodes(FoldNodes(EMPTY, nodes[..start]), nodes[start..at])
  {
    assert nodes[..at] == nodes[..start] + nodes[start..at];
    RunAppend(FoldNode, EMPTY, nodes[..start], nodes[start..at]);
  }

  class TrajectoryProjector {
    var previous: Option<Cache>
    // Whether every hint so far kept its promise.
    ghost var trusted: bool

    ghost predicate Sound()
      reads this
    {
      previous.Some? ==>
        var cache := previous.value;
        && cache.stableRawLength <= |cache.source.nodes|
        && cache.checkpoint == FoldNodes(EMPTY, cache.source.Values()[..cache.stableRawLength])
        && cache.projection == BuildTrajectory(cache.source.Values())
    }

    ghost predicate Valid()
      reads this
    {
      trusted ==> Sound()
    }

    constructor ()
      ensures Valid() && trusted
    {
      previous := None;
      trusted := true;
    }

    // The hint only counts when it was derived from the snapshot seen last.
    ghost predicate Uses(hint: Option<int>, base: Snapshot?)
      reads this
    {
      hint.Some? && previous.Some? && base == previous.value.source
    }

    // However many calls came before, hinted or not, the result is that of folding everything.
    method Project(nodes: Snapshot, hint: Option<int>, base: Snapshot?) returns (projection: Projection)
      requires Valid()
      modifies this
      ensures Valid()
      ensures trusted == (old(trusted) && (old(Uses(hint, base)) ==> HonestHint(base, nodes, hint.value)))
      ensures trusted ==> projection == BuildTrajectory(nodes.Values())
    {
      trusted := trusted && (Uses(hint, base) ==> HonestHint(base, nodes, hint.value));
      if previous.Some? && previous.value.source == nodes {
        return previous.value.projection;
      }
      var values := nodes.Values();
      var start := 0;
      var checkpoint := EMPTY;
      if previous.Some? {
        var cache := previous.value;
        var commonPrefix: nat;
        if hint.None? || base != cache.source {
          commonPrefix := CommonPrefixLength(cache.source.nodes, nodes.nodes);
        } else {
          commonPrefix := Clamp(hint.value, |cache.source.nodes|, |nodes.nodes|);
        }
        if commonPrefix >= cache.stableRawLength && |nodes.nodes| >= cache.stableRawLength {
          start, checkpoint := cache.stableRawLength, cache.checkpoint;
          if trusted {
            SharedPrefix(cache.source, nodes, commonPrefix, start);
          }
        }
      }
      var stable := LatestTrajectoryBoundary(values, start);
      var captured: Fold;
      projection, captured := FoldTrajectoryNodes(values, start, checkpoint, stable);
      previous := Some(Cache(nodes, stable, captured, projection));
      if trusted {
        assert values[..0] == [];
        FoldSplit(values, start);
        FoldPrefix(values, start, stable);
      }
    }
  }

  lemma SharedPrefix(a: Snapshot, b: Snapshot, shared: nat, length: nat)
    requires length <= shared <= |a.nodes| && shared <= |b.nodes|
    requires forall i :: 0 <= i < shared ==> a.nodes[i].node == b.nodes[i].node
    ensures a.Values()[..length] == b.Values()[..length]
  {
  }
}
