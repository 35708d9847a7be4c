/**
 What the record ledger holds: every record once, numbered without gaps, in turns numbered from one
 that each open with their user record.
 */
module TrajectoryTheorems {
  import opened ChangeHints
  import opened Options
  import opened Reducer
  import opened Runs
  import opened TimelineNodes
  import opened Trajectory

  // ---- each record once ----

  // The records of the nodes in order, numbered from one.
  function AllRecords(nodes: seq<Node>): seq<Indexed> {
    if nodes == [] then []
    else
      var before := AllRecords(nodes[..|nodes| - 1]);
      match RecordOf(nodes[|nodes| - 1])
      case Some(record) => before + [Indexed(record, |before| + 1)]
      case None => before
  }

  function Times(records: seq<Indexed>, x: Indexed): nat {
    if records == [] then 0
    else Times(records[..|records| - 1], x) + if records[|records| - 1] == x then 1 else 0
  }

  lemma {:induction false} TimesAppend(a: seq<Indexed>, b: seq<Indexed>, x: Indexed)
    ensures Times(a + b, x) == Times(a, x) + Times(b, x)
    decreases |b|
  {
    if b == [] {
      assert a + b == a;
    } else {
      assert (a + b)[..|a + b| - 1] == a + b[..|b| - 1];
      TimesAppend(a, b[..|b| - 1], x);
    }
  }

  lemma TimesPush(s: seq<Indexed>, y: Indexed, x: Indexed)
    ensures Times(s + [y], x) == Times(s, x) + if x == y then 1 else 0
  {
    assert (s + [y])[..|s|] == s;
  }

  // How often the sections list a record.
  function Held(sections: seq<Section>, x: Indexed): nat {
    if sections == [] then 0
    else Held(sections[..|sections| - 1], x) + Times(sections[|sections| - 1].records, x)
  }

  function HeldByFold(f: Fold, x: Indexed): nat {
    Held(f.sections, x) + Times(f.turnRecords, x) + Times(f.pending, x) + Times(f.between.GetOr([]), x)
  }

  lemma HeldPush(sections: seq<Section>, section: Section, x: Indexed)
    ensures Held(sections + [section], x) == Held(sections, x) + Times(section.records, x)
  {
    assert (sections + [section])[..|sections|] == sections;
  }

  lemma BeginHolds(f: Fold, x: Indexed)
    ensures HeldByFold(BeginTurn(f), x) == HeldByFold(f, x)
  {
    TimesAppend(f.turnRecords, f.pending, x);
  }

  lemma AppendHolds(f: Fold, record: Record, x: Indexed)
    ensures HeldByFold(AppendTurnRecord(f, record), x)
            == HeldByFold(f, x) + if x == Indexed(record, f.index + 1) then 1 else 0
  {
    var begun := BeginTurn(f);
    BeginHolds(f, x);
    TimesPush(begun.turnRecords, Indexed(record, f.index + 1), x);
    if begun.between.Some? {
      HeldPush(begun.sections, BetweenTurns(begun.between.value), x);
    }
  }

  lemma NextTurnHolds(f: Fold, x: Indexed)
    ensures HeldByFold(NextTurn(f), x) == HeldByFold(f, x) && NextTurn(f).index == f.index
  {
    BeginHolds(f, x);
    if f.turn.Some? {
      HeldPush(f.sections, TurnSection(f.turn.value, f.turnRecords), x);
    }
  }

  lemma RecordHolds(f: Fold, record: Record, x: Indexed)
    ensures HeldByFold(FoldRecord(f, record), x)
            == HeldByFold(f, x) + if x == Indexed(record, f.index + 1) then 1 else 0
    ensures FoldRecord(f, record).index == f.index + 1
  {
    match record.kind
    case UserRecord =>
      NextTurnHolds(f, x);
      AppendHolds(NextTurn(f), record, x);
    case ContextRecord =>
      if f.turn.None? {
        TimesPush(f.pending, Indexed(record, f.index + 1), x);
      } else {
        AppendHolds(f, record, x);
      }
    case CompactedRecord => TimesPush(f.between.GetOr([]), Indexed(record, f.index + 1), x);
    case _ => AppendHolds(f, record, x);
  }

  lemma {:induction false} FoldHolds(nodes: seq<Node>, x: Indexed)
    ensures var f := FoldNodes(EMPTY, nodes);
            f.index == |AllRecords(nodes)| && HeldByFold(f, x) == Times(AllRecords(nodes), x)
    decreases |nodes|
  {
    if nodes != [] {
      var init, last := nodes[..|nodes| - 1], nodes[|nodes| - 1];
      FoldHolds(init, x);
      var f := FoldNodes(EMPTY, init);
      match RecordOf(last)
      case Some(record) =>
        RecordHolds(f, record, x);
        TimesPush(AllRecords(init), Indexed(record, f.index + 1), x);
      case None =>
    }
  }

  lemma HeldWith(sections: seq<Section>, more: seq<Section>, records: seq<Indexed>, x: Indexed)
    requires if more == [] then records == [] else |more| == 1 && more[0].records == records
    ensures Held(sections + more, x) == Held(sections, x) + Times(records, x)
  {
    if more == [] {
      assert sections + more == sections;
    } else {
      assert more == [more[0]];
      HeldPush(sections, more[0], x);
    }
  }

  lemma FinishHolds(f: Fold, x: Indexed)
    ensures Held(Finish(f).sections, x) == HeldByFold(f, x)
  {
    var between := if f.between.Some? then [BetweenTurns(f.between.value)] else [];
    var open := if f.turnRecords != [] then [TurnSection(f.turn.GetOr(1), f.turnRecords)] else [];
    var waiting := if f.pending != [] then [TurnSection(f.turn.GetOr(1), f.pending)] else [];
    HeldWith(f.sections, between, f.between.GetOr([]), x);
    HeldWith(f.sections + between, open, f.turnRecords, x);
    HeldWith(f.sections + between + open, waiting, f.pending, x);
    assert Finish(f).sections == f.sections + between + open + waiting;
  }

  // Every node that has a record is listed exactly once, under its own number; nothing else is listed.
  lemma EveryRecordOnce(nodes: seq<Node>, x: Indexed)
    ensures var p := BuildTrajectory(nodes);
            && p.recordCount == |AllRecords(nodes)|
            && Held(p.sections, x) == if x in AllRecords(nodes) then 1 else 0
  {
    FoldHolds(nodes, x);
    FinishHolds(FoldNodes(EMPTY, nodes), x);
    NumberedFromOne(nodes);
    OnceAmongNumbered(AllRecords(nodes), x);
  }

  lemma {:induction false} OnceAmongNumbered(records: seq<Indexed>, x: Indexed)
    requires forall k :: 0 <= k < |records| ==> records[k].index == k + 1
    ensures Times(records, x) == if x in records then 1 else 0
    decreases |records|
  {
    if records != [] {
      var init, last := records[..|records| - 1], records[|records| - 1];
      OnceAmongNumbered(init, x);
      assert records == init + [last];
      TimesPush(init, last, x);
    }
  }

  lemma {:induction false} NumberedFromOne(nodes: seq<Node>)
    ensures forall k :: 0 <= k < |AllRecords(nodes)| ==> AllRecords(nodes)[k].index == k + 1
    decreases |nodes|
  {
    if nodes != [] {
      NumberedFromOne(nodes[..|nodes| - 1]);
    }
  }

  // ---- turns ----

  function TurnCount(sections: seq<Section>): nat {
    if sections == [] then 0
    else TurnCount(sections[..|sections| - 1]) + if sections[|sections| - 1].TurnSection? then 1 else 0
  }

  // Only the first record of a later turn is a user record; in the first turn only contexts precede it.
  predicate OpensWithUser(turn: nat, records: seq<Indexed>) {
    && (turn > 1 ==> records != [] && records[0].record.kind.UserRecord?)
    && forall i, j :: 0 <= i < j < |records| && records[j].record.kind.UserRecord? ==>
       records[i].record.kind.ContextRecord? && turn == 1
  }

  predicate Ascending(records: seq<Indexed>) {
    forall i, j :: 0 <= i < j < |records| ==> records[i].index < records[j].index
  }

  predicate SectionOk(section: Section) {
    && section.records != [] && Ascending(section.records)
    && (section.TurnSection? ==> OpensWithUser(section.turn, section.records))
    && (section.BetweenTurns? ==> forall i :: 0 <= i < |section.records| ==>
          section.records[i].record.kind.CompactedRecord?)
  }

  // The turns count up from one, and every section is in order.
  predicate InOrder(sections: seq<Section>) {
    sections != [] ==>
      var last := sections[|sections| - 1];
      && InOrder(sections[..|sections| - 1]) && SectionOk(last)
      && (last.TurnSection? ==> last.turn == TurnCount(sections[..|sections| - 1]) + 1)
  }

  predicate UpTo(records: seq<Indexed>, index: nat) {
    Ascending(records) && forall i :: 0 <= i < |records| ==> records[i].index <= index
  }

  predicate FoldInOrder(f: Fold) {
    && InOrder(f.sections)
    && UpTo(f.turnRecords, f.index) && UpTo(f.pending, f.index) && UpTo(f.between.GetOr([]), f.index)
    && (match f.turn
        case Some(turn) =>
          f.pending == [] && f.turnRecords != [] && turn == TurnCount(f.sections) + 1
            && OpensWithUser(turn, f.turnRecords)
        case None => f.turnRecords == [] && TurnCount(f.sections) == 0)
    && (forall i :: 0 <= i < |f.pending| ==> f.pending[i].record.kind.ContextRecord?)
    && (f.between.Some? ==> f.between.value != []
                            && forall i :: 0 <= i < |f.between.value| ==>
                               f.between.value[i].record.kind.CompactedRecord?)
  }

  lemma PushInOrder(sections: seq<Section>, section: Section)
    requires InOrder(sections) && SectionOk(section)
    requires section.TurnSection? ==> section.turn == TurnCount(sections) + 1
    ensures InOrder(sections + [section])
    ensures TurnCount(sections + [section]) == TurnCount(sections) + if section.TurnSection? then 1 else 0
  {
    assert (sections + [section])[..|sections|] == sections;
  }

  // A fold between turns: the finished turn is pushed and the next has no record yet.
  predicate Turning(f: Fold) {
    && InOrder(f.sections) && f.turnRecords == [] && f.pending == [] && UpTo(f.between.GetOr([]), f.index)
    && f.turn == Some(TurnCount(f.sections) + 1)
    && (f.between.Some? ==> f.between.value != []
                            && forall i :: 0 <= i < |f.between.value| ==>
                               f.between.value[i].record.kind.CompactedRecord?)
  }

  lemma TurnsOver(f: Fold)
    requires FoldInOrder(f) && f.turn.Some?
    ensures Turning(NextTurn(f)) && NextTurn(f).turn.value > 1
  {
    PushInOrder(f.sections, TurnSection(f.turn.value, f.turnRecords));
  }

  lemma BetweenPushed(f: Fold)
    requires InOrder(f.sections) && UpTo(f.between.GetOr([]), f.index)
    requires f.between.Some? ==> f.between.value != []
                                 && forall i :: 0 <= i < |f.between.value| ==>
                                    f.between.value[i].record.kind.CompactedRecord?
    ensures f.between.Some? ==>
              InOrder(f.sections + [BetweenTurns(f.between.value)])
              && TurnCount(f.sections + [BetweenTurns(f.between.value)]) == TurnCount(f.sections)
  {
    if f.between.Some? {
      PushInOrder(f.sections, BetweenTurns(f.between.value));
    }
  }

  lemma OpensTurn(f: Fold, record: Record)
    requires Turning(f) && record.kind.UserRecord?
    ensures FoldInOrder(AppendTurnRecord(f, record))
  {
    BetweenPushed(f);
    assert AppendTurnRecord(f, record).turnRecords == [Indexed(record, f.index + 1)];
  }

  lemma PushUpTo(records: seq<Indexed>, record: Record, index: nat)
    requires UpTo(records, index)
    ensures UpTo(records + [Indexed(record, index + 1)], index + 1)
  {
  }

  lemma JoinsOpenTurn(f: Fold, record: Record)
    requires FoldInOrder(f) && f.turn.Some? && !record.kind.UserRecord?
    ensures FoldInOrder(AppendTurnRecord(f, record))
  {
    BetweenPushed(f);
    PushUpTo(f.turnRecords, record, f.index);
    assert OpensWithUser(f.turn.value, f.turnRecords + [Indexed(record, f.index + 1)]);
  }

  lemma OpensAfterContexts(pending: seq<Indexed>, last: Indexed)
    requires forall i :: 0 <= i < |pending| ==> pending[i].record.kind.ContextRecord?
    ensures OpensWithUser(1, pending + [last])
  {
  }

  lemma BeginsWith(f: Fold, record: Record)
    requires FoldInOrder(f) && f.turn.None?
    ensures var after := AppendTurnRecord(f, record);
      && after.turnRecords == f.pending + [Indexed(record, f.index + 1)]
      && after.pending == [] && after.turn == Some(1) && after.between.None? && after.index == f.index + 1
      && InOrder(after.sections) && TurnCount(after.sections) == 0
  {
    BetweenPushed(f);
    assert [] + f.pending == f.pending;
  }

  lemma BeginsTurn(f: Fold, record: Record)
    requires FoldInOrder(f) && f.turn.None?
    ensures FoldInOrder(AppendTurnRecord(f, record))
  {
    BeginsWith(f, record);
    PushUpTo(f.pending, record, f.index);
    OpensAfterContexts(f.pending, Indexed(record, f.index + 1));
  }

  lemma JoinsTurn(f: Fold, record: Record)
    requires FoldInOrder(f) && (record.kind.UserRecord? ==> f.turn.None?)
    ensures FoldInOrder(AppendTurnRecord(f, record))
  {
    if f.turn.Some? {
      JoinsOpenTurn(f, record);
    } else {
      BeginsTurn(f, record);
    }
  }

  lemma UserInOrder(f: Fold, record: Record)
    requires FoldInOrder(f) && record.kind.UserRecord?
    ensures FoldInOrder(FoldRecord(f, record))
  {
    if f.turn.Some? {
      TurnsOver(f);
      OpensTurn(NextTurn(f), record);
    } else {
      FirstUser(f, record);
    }
  }

  lemma ContextInOrder(f: Fold, record: Record)
    requires FoldInOrder(f) && record.kind.ContextRecord?
    ensures FoldInOrder(FoldRecord(f, record))
  {
    if f.turn.Some? {
      JoinsTurn(f, record);
    } else {
      PushUpTo(f.pending, record, f.index);
    }
  }

  lemma CompactedInOrder(f: Fold, record: Record)
    requires FoldInOrder(f) && record.kind.CompactedRecord?
    ensures FoldInOrder(FoldRecord(f, record))
  {
    PushUpTo(f.between.GetOr([]), record, f.index);
  }

  lemma RecordInOrder(f: Fold, record: Record)
    requires FoldInOrder(f)
    ensures FoldInOrder(FoldRecord(f, record))
  {
    match record.kind
    case UserRecord => UserInOrder(f, record);
    case ContextRecord => ContextInOrder(f, record);
    case CompactedRecord => CompactedInOrder(f, record);
    case _ => JoinsTurn(f, record);
  }

  lemma FirstUser(f: Fold, record: Record)
    requires FoldInOrder(f) && f.turn.None? && record.kind.UserRecord?
    ensures FoldInOrder(AppendTurnRecord(BeginTurn(f), record))
  {
    JoinsTurn(f, record);
    assert AppendTurnRecord(BeginTurn(f), record) == AppendTurnRecord(f, record);
  }

  function WithBetween(f: Fold): seq<Section> {
    if f.between.Some? then f.sections + [BetweenTurns(f.between.value)] else f.sections
  }

  lemma FinishIs(f: Fold)
    requires f.turnRecords == [] || f.pending == []
    ensures Finish(f).sections
         == if f.turnRecords != [] then WithBetween(f) + [TurnSection(f.turn.GetOr(1), f.turnRecords)]
            else if f.pending != [] then WithBetween(f) + [TurnSection(f.turn.GetOr(1), f.pending)]
            else WithBetween(f)
  {
  }

  lemma FinishInOrder(f: Fold)
    requires FoldInOrder(f)
    ensures InOrder(Finish(f).sections)
  {
    BetweenPushed(f);
    FinishIs(f);
    if f.turnRecords != [] {
      PushInOrder(WithBetween(f), TurnSection(f.turn.GetOr(1), f.turnRecords));
    } else if f.pending != [] {
      PushInOrder(WithBetween(f), TurnSection(1, f.pending));
    }
  }

  lemma {:induction false} FoldKeepsOrder(nodes: seq<Node>)
    ensures FoldInOrder(FoldNodes(EMPTY, nodes))
    decreases |nodes|
  {
    if nodes != [] {
      FoldKeepsOrder(nodes[..|nodes| - 1]);
      match RecordOf(nodes[|nodes| - 1])
      case Some(record) => RecordInOrder(FoldNodes(EMPTY, nodes[..|nodes| - 1]), record);
      case None =>
    }
  }

  // The ledger's turns count 1, 2, 3, ..., none is empty, and each later one opens with its only user record.
  lemma TurnsCountUp(nodes: seq<Node>)
    ensures InOrder(BuildTrajectory(nodes).sections)
  {
    FoldKeepsOrder(nodes);
    FinishInOrder(FoldNodes(EMPTY, nodes));
  }

  lemma {:induction false} SectionAt(sections: seq<Section>, i: nat)
    requires InOrder(sections) && i < |sections|
    ensures SectionOk(sections[i])
    ensures sections[i].TurnSection? ==> sections[i].turn == TurnCount(sections[..i]) + 1
    decreases |sections|
  {
    if i < |sections| - 1 {
      SectionAt(sections[..|sections| - 1], i);
      assert sections[..|sections| - 1][..i] == sections[..i];
    }
  }

  // Across sections the numbers need not ascend: a compaction within a turn is listed before the turn.
  lemma CompactionIsListedFirst(first: Node, compaction: Node, second: Node)
    requires first.body.Assistant? && compaction.body.Compacting? && second.body.Assistant?
    ensures BuildTrajectory([first, compaction, second]).sections
            == [BetweenTurns([Indexed(RecordOf(compaction).value, 2)]),
                TurnSection(1, [Indexed(RecordOf(first).value, 1), Indexed(RecordOf(second).value, 3)])]
  {
    var one := Fold([], Some(1), [Indexed(RecordOf(first).value, 1)], [], None, 1);
    var two := one.(between := Some([Indexed(RecordOf(compaction).value, 2)]), index := 2);
    FoldOne(EMPTY, [], first);
    assert [] + [first] == [first] && FoldNodes(EMPTY, []) == EMPTY;
    assert FoldNodes(EMPTY, [first]) == one;
    FoldOne(EMPTY, [first], compaction);
    assert [first] + [compaction] == [first, compaction];
    assert [] + [Indexed(RecordOf(compaction).value, 2)] == [Indexed(RecordOf(compaction).value, 2)];
    assert FoldNodes(EMPTY, [first, compaction]) == two;
    FoldOne(EMPTY, [first, compaction], second);
    assert [first, compaction] + [second] == [first, compaction, second];
    var three := FoldNodes(EMPTY, [first, compaction, second]);
    assert three == AppendTurnRecord(two, RecordOf(second).value);
    assert three.sections == [BetweenTurns([Indexed(RecordOf(compaction).value, 2)])];
    assert three.turnRecords == [Indexed(RecordOf(first).value, 1), Indexed(RecordOf(second).value, 3)];
    assert three.pending == [] && three.between.None? && three.turn == Some(1);
  }

  // So is one behind a context that waits for its turn, though the direct user record follows at once.
  lemma CompactionBehindContext(context: Node, compaction: Node, user: Node)
    requires context.body.User? && !IsDirectSource(context.body.user.source) && compaction.body.Compacting?
    requires user.body.User? && IsDirectSource(user.body.user.source)
    ensures BuildTrajectory([context, compaction, user]).sections
            == [BetweenTurns([Indexed(RecordOf(compaction).value, 2)]),
                TurnSection(1, [Indexed(RecordOf(context).value, 1), Indexed(RecordOf(user).value, 3)])]
  {
    var first := Indexed(RecordOf(context).value, 1);
    var one := Fold([], None, [], [first], None, 1);
    var two := one.(between := Some([Indexed(RecordOf(compaction).value, 2)]), index := 2);
    FoldOne(EMPTY, [], context);
    assert [] + [context] == [context] && [] + [first] == [first] && FoldNodes(EMPTY, []) == EMPTY;
    assert FoldNodes(EMPTY, [context]) == one;
    FoldOne(EMPTY, [context], compaction);
    assert [context] + [compaction] == [context, compaction];
    assert [] + [Indexed(RecordOf(compaction).value, 2)] == [Indexed(RecordOf(compaction).value, 2)];
    assert FoldNodes(EMPTY, [context, compaction]) == two;
    FoldOne(EMPTY, [context, compaction], user);
    assert [context, compaction] + [user] == [context, compaction, user];
    var three := FoldNodes(EMPTY, [context, compaction, user]);
    assert NextTurn(two) == two.(turn := Some(1), turnRecords := [first], pending := []);
    assert three == AppendTurnRecord(NextTurn(two), RecordOf(user).value);
    assert three.sections == [BetweenTurns([Indexed(RecordOf(compaction).value, 2)])];
    assert three.turnRecords == [first, Indexed(RecordOf(user).value, 3)];
    assert three.pending == [] && three.between.None? && three.turn == Some(1);
  }

  // ---- with the reducer ----

  // The reducer's hint for a user message, delta or completion is one the projector may rely on.
  lemma ReducerHintIsHonest(state: State, input: Input, base: Snapshot, nodes: Snapshot)
    requires !Ignored(state, input) && MayChangeNodes(state, input.event)
    requires input.event.UserMessage? || input.event.MessageDelta? || input.event.MessageCompleted?
    requires base.Values() == state.nodes && nodes.Values() == Reduce(state, input).nodes
    ensures Reduce(state, input).changeStart.Some? && HonestHint(base, nodes, Reduce(state, input).changeStart.value)
  {
    HintIsHonest(state, input);
    var next := Reduce(state, input);
    forall i | 0 <= i < Clamp(next.changeStart.value, |base.nodes|, |nodes.nodes|)
      ensures base.nodes[i].node == nodes.nodes[i].node
    {
      assert base.Values()[i] == nodes.Values()[i];
    }
  }
}
