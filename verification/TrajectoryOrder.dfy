/**
 When the record numbers ascend across the whole ledger: a compaction is listed before the turn that is open around it,
 so it must come before everything, or between a turn and the user record that closes it.
 */
module TrajectoryOrder {
  import opened Options
  import opened Runs
  import opened TimelineNodes
  import opened Trajectory

  // ---- what the condition says of the records' kinds ----

  predicate Starts(kind: RecordKind) {
    !kind.CompactedRecord?
  }

  // A context that comes first waits for a turn; every other record opens one.
  predicate Opens(kind: RecordKind) {
    !kind.CompactedRecord? && !kind.ContextRecord?
  }

  predicate Started(kinds: seq<RecordKind>) {
    exists i :: 0 <= i < |kinds| && Starts(kinds[i])
  }

  predicate Opened(kinds: seq<RecordKind>) {
    exists i :: 0 <= i < |kinds| && Opens(kinds[i])
  }

  predicate OnlyCompactions(kinds: seq<RecordKind>, from: int, to: int) {
    forall i :: from <= i < to && 0 <= i < |kinds| ==> kinds[i].CompactedRecord?
  }

  // A turn is open before `k`, and the next record but compactions is the user record that closes it.
  predicate ClosedAt(kinds: seq<RecordKind>, k: nat, m: nat) {
    k < m < |kinds| && kinds[m].UserRecord? && Opened(kinds[..k]) && OnlyCompactions(kinds, k, m)
  }

  predicate Closed(kinds: seq<RecordKind>, k: nat)
    requires k < |kinds|
  {
    exists m: nat :: m < |kinds| && ClosedAt(kinds, k, m)
  }

  // Every compaction that a record of another kind precedes stands between a turn and the user record that closes it.
  predicate Orderly(kinds: seq<RecordKind>) {
    forall k: nat :: k < |kinds| && kinds[k].CompactedRecord? && Started(kinds[..k]) ==> Closed(kinds, k)
  }

  // ---- the same, record by record ----

  predicate Held(kinds: seq<RecordKind>) {
    kinds != [] && kinds[|kinds| - 1].CompactedRecord?
  }

  predicate Steady(kinds: seq<RecordKind>) {
    kinds != [] ==>
      var init, last := kinds[..|kinds| - 1], kinds[|kinds| - 1];
      && Steady(init)
      && (if !Opened(init) then last.CompactedRecord? ==> !Started(init)
          else Held(init) ==> last.CompactedRecord? || last.UserRecord?)
  }

  // A compaction in an open turn that nothing but compactions has followed so far.
  predicate Waits(kinds: seq<RecordKind>, k: nat)
    requires k < |kinds|
  {
    Opened(kinds[..k]) && OnlyCompactions(kinds, k, |kinds|)
  }

  predicate OrderlySoFar(kinds: seq<RecordKind>) {
    forall k: nat :: k < |kinds| && kinds[k].CompactedRecord? && Started(kinds[..k]) ==>
      Closed(kinds, k) || Waits(kinds, k)
  }

  lemma PrefixOpens(kinds: seq<RecordKind>, k: nat, n: nat)
    requires k <= n <= |kinds| && OnlyCompactions(kinds, k, n)
    ensures Opened(kinds[..k]) == Opened(kinds[..n]) && Started(kinds[..k]) == Started(kinds[..n])
  {
    if Opened(kinds[..n]) {
      var i :| 0 <= i < n && Opens(kinds[..n][i]);
      assert kinds[i] == kinds[..n][i] && kinds[..k][i] == kinds[i];
    }
    if Started(kinds[..n]) {
      var i :| 0 <= i < n && Starts(kinds[..n][i]);
      assert kinds[i] == kinds[..n][i] && kinds[..k][i] == kinds[i];
    }
    if Opened(kinds[..k]) {
      var i :| 0 <= i < k && Opens(kinds[..k][i]);
      assert kinds[..n][i] == kinds[..k][i];
    }
    if Started(kinds[..k]) {
      var i :| 0 <= i < k && Starts(kinds[..k][i]);
      assert kinds[..n][i] == kinds[..k][i];
    }
  }

  lemma SameCompactions(kinds: seq<RecordKind>, last: RecordKind, from: nat, to: nat)
    requires to <= |kinds|
    ensures OnlyCompactions(kinds + [last], from, to) == OnlyCompactions(kinds, from, to)
  {
    var all := kinds + [last];
    assert forall i :: 0 <= i < |kinds| ==> all[i] == kinds[i];
  }

  lemma ClosedLater(kinds: seq<RecordKind>, last: RecordKind, k: nat)
    requires k < |kinds|
    ensures Closed(kinds + [last], k)
       <==> Closed(kinds, k) || (last.UserRecord? && Opened(kinds[..k]) && OnlyCompactions(kinds, k, |kinds|))
  {
    var all := kinds + [last];
    assert all[..k] == kinds[..k];
    forall m: nat | m <= |kinds| ensures OnlyCompactions(all, k, m) == OnlyCompactions(kinds, k, m) {
      SameCompactions(kinds, last, k, m);
    }
    if Closed(kinds, k) {
      var m: nat :| m < |kinds| && ClosedAt(kinds, k, m);
      assert ClosedAt(all, k, m);
    }
    if last.UserRecord? && Opened(kinds[..k]) && OnlyCompactions(kinds, k, |kinds|) {
      assert ClosedAt(all, k, |kinds|);
    }
    if Closed(all, k) {
      var m: nat :| m < |all| && ClosedAt(all, k, m);
      assert m < |kinds| ==> ClosedAt(kinds, k, m);
    }
  }

  lemma CompactionMore(kinds: seq<RecordKind>, last: RecordKind)
    requires last.CompactedRecord?
    ensures OrderlySoFar(kinds + [last]) <==> OrderlySoFar(kinds) && (Opened(kinds) || !Started(kinds))
  {
    var all := kinds + [last];
    assert all[..|kinds|] == kinds;
    forall k: nat | k < |kinds|
      ensures Closed(all, k) == Closed(kinds, k) && Waits(all, k) == Waits(kinds, k) && all[..k] == kinds[..k] {
      ClosedLater(kinds, last, k);
      assert all[..k] == kinds[..k];
    }
    if OrderlySoFar(all) && Started(kinds) {
      assert all[|kinds|].CompactedRecord? && !Closed(all, |kinds|);
    }
  }

  lemma OtherMore(kinds: seq<RecordKind>, last: RecordKind)
    requires !last.CompactedRecord?
    ensures OrderlySoFar(kinds + [last]) <==> OrderlySoFar(kinds) && (Opened(kinds) && Held(kinds) ==> last.UserRecord?)
  {
    var all := kinds + [last];
    forall k: nat | k < |kinds|
      ensures all[..k] == kinds[..k] && !Waits(all, k)
      ensures Closed(all, k) <==> Closed(kinds, k) || (last.UserRecord? && Waits(kinds, k))
    {
      ClosedLater(kinds, last, k);
      assert all[..k] == kinds[..k] && all[|kinds|] == last;
    }
    if Opened(kinds) && Held(kinds) {
      var k := |kinds| - 1;
      PrefixOpens(kinds, k, |kinds|);
      assert kinds[..|kinds|] == kinds;
      OpenedStarts(kinds[..k]);
      assert Waits(kinds, k) && !Closed(kinds, k);
    }
    forall k: nat | k < |kinds| && Waits(kinds, k) ensures Opened(kinds) && Held(kinds) {
      WaitingIsHeld(kinds, k);
    }
  }

  lemma WaitingIsHeld(kinds: seq<RecordKind>, k: nat)
    requires k < |kinds| && Waits(kinds, k)
    ensures Opened(kinds) && Held(kinds) && Started(kinds[..k])
    ensures !Closed(kinds, k)
  {
    PrefixOpens(kinds, k, |kinds|);
    assert kinds[..|kinds|] == kinds;
    OpenedStarts(kinds[..k]);
  }

  lemma OpenedStarts(kinds: seq<RecordKind>)
    requires Opened(kinds)
    ensures Started(kinds)
  {
    var i :| 0 <= i < |kinds| && Opens(kinds[i]);
    assert Starts(kinds[i]);
  }

  lemma {:induction false} SteadyIsOrderly(kinds: seq<RecordKind>)
    ensures Steady(kinds) <==> OrderlySoFar(kinds)
    decreases |kinds|
  {
    if kinds != [] {
      var init, last := kinds[..|kinds| - 1], kinds[|kinds| - 1];
      SteadyIsOrderly(init);
      assert kinds == init + [last];
      if last.CompactedRecord? {
        CompactionMore(init, last);
      } else {
        OtherMore(init, last);
      }
    }
  }

  lemma HeldIsNotClosed(kinds: seq<RecordKind>)
    requires Opened(kinds) && Held(kinds)
    ensures !Orderly(kinds)
  {
    PrefixOpens(kinds, |kinds| - 1, |kinds|);
    assert kinds[..|kinds|] == kinds;
    assert Waits(kinds, |kinds| - 1);
    WaitingIsHeld(kinds, |kinds| - 1);
  }

  lemma NothingWaits(kinds: seq<RecordKind>)
    requires !(Opened(kinds) && Held(kinds))
    ensures Orderly(kinds) <==> OrderlySoFar(kinds)
  {
    forall k: nat | k < |kinds| ensures !Waits(kinds, k) {
      if Waits(kinds, k) {
        WaitingIsHeld(kinds, k);
      }
    }
  }

  // With the end of the records, a compaction that still waits is not closed any more.
  lemma OrderlyAtTheEnd(kinds: seq<RecordKind>)
    ensures Orderly(kinds) <==> Steady(kinds) && !(Opened(kinds) && Held(kinds))
  {
    SteadyIsOrderly(kinds);
    if Opened(kinds) && Held(kinds) {
      HeldIsNotClosed(kinds);
    } else {
      NothingWaits(kinds);
    }
  }

  // ---- numbers ----

  function Numbers(records: seq<Indexed>): seq<int> {
    seq(|records|, i requires 0 <= i < |records| => records[i].index)
  }

  // The record numbers of the ledger, section after section.
  function Flattened(sections: seq<Section>): seq<int> {
    if sections == [] then []
    else Flattened(sections[..|sections| - 1]) + Numbers(sections[|sections| - 1].records)
  }

  predicate UpTo(s: seq<int>, n: int) {
    s != [] ==> s[|s| - 1] <= n && UpTo(s[..|s| - 1], n)
  }

  predicate Precedes(a: seq<int>, b: seq<int>) {
    b != [] ==> UpTo(a, b[|b| - 1] - 1) && Precedes(a, b[..|b| - 1])
  }

  predicate Ascends(s: seq<int>) {
    s != [] ==> UpTo(s[..|s| - 1], s[|s| - 1] - 1) && Ascends(s[..|s| - 1])
  }

  lemma {:induction false} UpToMeans(s: seq<int>, n: int)
    ensures UpTo(s, n) <==> forall i :: 0 <= i < |s| ==> s[i] <= n
    decreases |s|
  {
    if s != [] {
      UpToMeans(s[..|s| - 1], n);
    }
  }

  lemma {:induction false} AscendsMeans(s: seq<int>)
    ensures Ascends(s) <==> forall i, j :: 0 <= i < j < |s| ==> s[i] < s[j]
    decreases |s|
  {
    if s != [] {
      var init, last := s[..|s| - 1], s[|s| - 1];
      AscendsMeans(init);
      UpToMeans(init, last - 1);
      assert s == init + [last];
      if forall i, j :: 0 <= i < j < |s| ==> s[i] < s[j] {
        assert forall i, j :: 0 <= i < j < |init| ==> init[i] == s[i] && init[j] == s[j];
        assert forall i :: 0 <= i < |init| ==> init[i] == s[i] && s[i] < s[|s| - 1];
      }
    }
  }

  lemma {:induction false} UpToMore(s: seq<int>, n: int, m: int)
    requires UpTo(s, n) && n <= m
    ensures UpTo(s, m)
    decreases |s|
  {
    if s != [] {
      UpToMore(s[..|s| - 1], n, m);
    }
  }

  lemma {:induction false} UpToJoined(a: seq<int>, b: seq<int>, n: int)
    ensures UpTo(a + b, n) <==> UpTo(a, n) && UpTo(b, n)
    decreases |b|
  {
    if b == [] {
      assert a + b == a;
    } else {
      assert (a + b)[..|a + b| - 1] == a + b[..|b| - 1];
      UpToJoined(a, b[..|b| - 1], n);
    }
  }

  lemma {:induction false} AscendsJoined(a: seq<int>, b: seq<int>)
    ensures Ascends(a + b) <==> Ascends(a) && Ascends(b) && Precedes(a, b)
    decreases |b|
  {
    if b == [] {
      assert a + b == a;
    } else {
      assert (a + b)[..|a + b| - 1] == a + b[..|b| - 1];
      AscendsJoined(a, b[..|b| - 1]);
      UpToJoined(a, b[..|b| - 1], b[|b| - 1] - 1);
    }
  }

  lemma {:induction false} PrecedesFrom(a: seq<int>, b: seq<int>, c: seq<int>)
    ensures Precedes(a + b, c) <==> Precedes(a, c) && Precedes(b, c)
    decreases |c|
  {
    if c != [] {
      PrecedesFrom(a, b, c[..|c| - 1]);
      UpToJoined(a, b, c[|c| - 1] - 1);
    }
  }

  lemma {:induction false} PrecedesTo(a: seq<int>, b: seq<int>, c: seq<int>)
    ensures Precedes(a, b + c) <==> Precedes(a, b) && Precedes(a, c)
    decreases |c|
  {
    if c == [] {
      assert b + c == b;
    } else {
      assert (b + c)[..|b + c| - 1] == b + c[..|c| - 1];
      PrecedesTo(a, b, c[..|c| - 1]);
    }
  }

  lemma PushNumber(records: seq<Indexed>, x: Indexed)
    ensures Numbers(records + [x]) == Numbers(records) + [x.index]
  {
  }

  lemma PushSection(sections: seq<Section>, section: Section)
    ensures Flattened(sections + [section]) == Flattened(sections) + Numbers(section.records)
  {
    assert (sections + [section])[..|sections|] == sections;
  }

  // ---- the fold, as far as numbers go ----

  function HeldNumbers(f: Fold): seq<int> {
    Numbers(f.between.GetOr([]))
  }

  datatype Shape = Shape(inTurn: bool, listed: seq<int>, turn: seq<int>, pending: seq<int>, held: seq<int>, index: int)

  function ShapeOf(f: Fold): Shape {
    Shape(f.turn.Some?, Flattened(f.sections), Numbers(f.turnRecords), Numbers(f.pending), HeldNumbers(f), f.index)
  }

  // Before a turn opens nothing is listed; in a turn no context waits for one.
  predicate FoldOk(f: Fold) {
    && (f.turn.None? ==> f.sections == [] && f.turnRecords == [])
    && (f.turn.Some? ==> f.turnRecords != [] && f.pending == [])
    && (f.between.Some? ==> f.between.value != [])
  }

  // One more record: what is held is listed before the turn that the record joins, but behind one that it closes.
  function Next(x: Shape, kind: RecordKind): Shape {
    var n := x.index + 1;
    if kind.CompactedRecord? then x.(held := x.held + [n], index := n)
    else if !x.inTurn then
      if kind.ContextRecord? then x.(pending := x.pending + [n], index := n)
      else Shape(true, x.held, x.pending + [n], [], [], n)
    else if kind.UserRecord? then Shape(true, x.listed + x.turn + x.held, [n], [], [], n)
    else Shape(true, x.listed + x.held, x.turn + [n], [], [], n)
  }

  // The numbers in the order they are listed so far, without what is held in a turn.
  function Line(x: Shape): seq<int> {
    if x.inTurn then x.listed + x.turn else x.held + x.pending
  }

  // What the fold knows of the kinds it has seen.
  datatype Traits = Traits(inTurn: bool, started: bool, held: bool, steady: bool)

  function Seen(kinds: seq<RecordKind>): Traits {
    Traits(Opened(kinds), Started(kinds), Held(kinds), Steady(kinds))
  }

  function Then(t: Traits, kind: RecordKind): Traits {
    Traits(t.inTurn || Opens(kind), t.started || Starts(kind), kind.CompactedRecord?,
           t.steady && (if !t.inTurn then kind.CompactedRecord? ==> !t.started
                        else t.held ==> kind.CompactedRecord? || kind.UserRecord?))
  }

  predicate Fits(x: Shape, t: Traits) {
    && x.inTurn == t.inTurn && Ascends(x.held)
    && UpTo(x.listed, x.index) && UpTo(x.turn, x.index) && UpTo(x.pending, x.index) && UpTo(x.held, x.index)
    && (if !x.inTurn then x.listed == [] && x.turn == [] && Ascends(x.pending) && (x.pending != [] <==> t.started)
        else
          && x.pending == [] && x.turn != [] && Precedes(x.listed, x.held) && Precedes(x.turn, x.held)
          && (x.held != [] <==> t.held))
    && (Ascends(Line(x)) <==> t.steady)
  }

  lemma KindsPushed(kinds: seq<RecordKind>, kind: RecordKind)
    ensures Seen(kinds + [kind]) == Then(Seen(kinds), kind)
  {
    var all := kinds + [kind];
    assert all[..|kinds|] == kinds && all[|kinds|] == kind;
    if Opened(kinds) {
      var i :| 0 <= i < |kinds| && Opens(kinds[i]);
      assert Opens(all[i]);
    }
    if Started(kinds) {
      var i :| 0 <= i < |kinds| && Starts(kinds[i]);
      assert Starts(all[i]);
    }
  }

  // One more number, above all others, keeps order and disorder.
  lemma Above(s: seq<int>, index: int)
    requires UpTo(s, index)
    ensures Ascends(s + [index + 1]) <==> Ascends(s)
    ensures UpTo(s + [index + 1], index + 1) && UpTo(s, index + 1) && Precedes(s, [index + 1])
    ensures s != [] ==> !Precedes([index + 1], s)
  {
    UpToMore(s, index, index + 1);
    assert (s + [index + 1])[..|s|] == s;
    assert [index + 1][..0] == [];
  }

  // Numbers that all follow another list can only be listed after it.
  lemma Behind(a: seq<int>, b: seq<int>)
    requires Precedes(a, b) && a != [] && b != []
    ensures !Precedes(b, a)
  {
  }

  // ---- one more record, on the numbers alone ----

  lemma CompactionLine(h: seq<int>, p: seq<int>, index: int)
    requires Ascends(h) && Ascends(p) && UpTo(h, index) && UpTo(p, index)
    ensures Ascends((h + [index + 1]) + p) <==> Ascends(h + p) && p == []
  {
    Above(h, index);
    Above(p, index);
    AscendsJoined(h, p);
    AscendsJoined(h + [index + 1], p);
    PrecedesFrom(h, [index + 1], p);
  }

  lemma ContextLine(h: seq<int>, p: seq<int>, index: int)
    requires Ascends(p) && UpTo(h, index) && UpTo(p, index)
    ensures Ascends(h + (p + [index + 1])) <==> Ascends(h + p)
    ensures Ascends(p + [index + 1]) && UpTo(p + [index + 1], index + 1) && UpTo(h, index + 1)
  {
    Above(h, index);
    Above(p, index);
    AscendsJoined(h, p);
    AscendsJoined(h, p + [index + 1]);
    PrecedesTo(h, p, [index + 1]);
  }

  lemma HeldLine(s: seq<int>, h: seq<int>, index: int)
    requires Ascends(h) && UpTo(h, index) && UpTo(s, index) && Precedes(s, h)
    ensures Ascends(h + [index + 1]) && UpTo(h + [index + 1], index + 1) && UpTo(s, index + 1)
            && Precedes(s, h + [index + 1])
  {
    Above(h, index);
    Above(s, index);
    PrecedesTo(s, h, [index + 1]);
  }

  lemma JoinLine(s: seq<int>, h: seq<int>, t: seq<int>, index: int)
    requires Ascends(h) && UpTo(s, index) && UpTo(h, index) && UpTo(t, index)
    requires Precedes(s, h) && Precedes(t, h) && t != []
    ensures Ascends((s + h) + (t + [index + 1])) <==> Ascends(s + t) && h == []
    ensures UpTo(s + h, index + 1) && UpTo(t + [index + 1], index + 1)
  {
    UpToJoined(s, h, index);
    Above(s + h, index);
    Above(t, index);
    ContextLineAnyway(s + h, t, index);
    AscendsJoined(s, h);
    AscendsJoined(s, t);
    AscendsJoined(s + h, t);
    PrecedesFrom(s, h, t);
    if h == [] {
      assert s + h == s;
    } else {
      Behind(t, h);
    }
  }

  lemma ContextLineAnyway(h: seq<int>, p: seq<int>, index: int)
    requires UpTo(h, index) && UpTo(p, index)
    ensures Ascends(h + (p + [index + 1])) <==> Ascends(h + p)
  {
    UpToJoined(h, p, index);
    Above(h + p, index);
    assert h + (p + [index + 1]) == (h + p) + [index + 1];
  }

  lemma CloseLine(s: seq<int>, t: seq<int>, h: seq<int>, index: int)
    requires Ascends(h) && UpTo(s, index) && UpTo(h, index) && UpTo(t, index) && Precedes(s, h) && Precedes(t, h)
    ensures Ascends((s + t + h) + [index + 1]) <==> Ascends(s + t)
    ensures UpTo(s + t + h, index + 1)
  {
    UpToJoined(s, t, index);
    UpToJoined(s + t, h, index);
    Above(s + t + h, index);
    AscendsJoined(s + t, h);
    PrecedesFrom(s, t, h);
  }

  lemma FitsHolding(x: Shape, t: Traits, kind: RecordKind)
    requires Fits(x, t) && !x.inTurn && kind.CompactedRecord?
    ensures Fits(Next(x, kind), Then(t, kind))
  {
    CompactionLine(x.held, x.pending, x.index);
    Above(x.held, x.index);
    UpToMore(x.pending, x.index, x.index + 1);
  }

  lemma FitsWaiting(x: Shape, t: Traits, kind: RecordKind)
    requires Fits(x, t) && !x.inTurn && kind.ContextRecord?
    ensures Fits(Next(x, kind), Then(t, kind))
  {
    ContextLine(x.held, x.pending, x.index);
  }

  lemma FitsOpening(x: Shape, t: Traits, kind: RecordKind)
    requires Fits(x, t) && !x.inTurn && Opens(kind)
    ensures Fits(Next(x, kind), Then(t, kind))
  {
    ContextLine(x.held, x.pending, x.index);
  }

  lemma FitsCompaction(x: Shape, t: Traits, kind: RecordKind)
    requires Fits(x, t) && x.inTurn && kind.CompactedRecord?
    ensures Fits(Next(x, kind), Then(t, kind))
  {
    HeldLine(x.listed, x.held, x.index);
    HeldLine(x.turn, x.held, x.index);
  }

  lemma FitsClosing(x: Shape, t: Traits, kind: RecordKind)
    requires Fits(x, t) && x.inTurn && kind.UserRecord?
    ensures Fits(Next(x, kind), Then(t, kind))
  {
    CloseLine(x.listed, x.turn, x.held, x.index);
  }

  lemma FitsJoining(x: Shape, t: Traits, kind: RecordKind)
    requires Fits(x, t) && x.inTurn && !kind.UserRecord? && !kind.CompactedRecord?
    ensures Fits(Next(x, kind), Then(t, kind))
  {
    JoinLine(x.listed, x.held, x.turn, x.index);
  }

  lemma FitsNext(x: Shape, t: Traits, kind: RecordKind)
    requires Fits(x, t)
    ensures Fits(Next(x, kind), Then(t, kind))
  {
    if !x.inTurn {
      if kind.CompactedRecord? {
        FitsHolding(x, t, kind);
      } else if kind.ContextRecord? {
        FitsWaiting(x, t, kind);
      } else {
        FitsOpening(x, t, kind);
      }
    } else if kind.CompactedRecord? {
      FitsCompaction(x, t, kind);
    } else if kind.UserRecord? {
      FitsClosing(x, t, kind);
    } else {
      FitsJoining(x, t, kind);
    }
  }

  // ---- the fold does what its shape does ----

  lemma HeldFlushed(f: Fold, sections: seq<Section>)
    ensures Flattened(if f.between.Some? then sections + [BetweenTurns(f.between.value)] else sections)
         == Flattened(sections) + HeldNumbers(f)
  {
    if f.between.Some? {
      PushSection(sections, BetweenTurns(f.between.value));
    }
  }

  lemma ShapeUnopened(f: Fold, record: Record)
    requires FoldOk(f) && f.turn.None?
    ensures FoldOk(FoldRecord(f, record)) && ShapeOf(FoldRecord(f, record)) == Next(ShapeOf(f), record.kind)
  {
    HeldFlushed(f, []);
    PushNumber(f.pending, Indexed(record, f.index + 1));
    PushNumber(f.between.GetOr([]), Indexed(record, f.index + 1));
    assert [] + f.pending == f.pending && [] + HeldNumbers(f) == HeldNumbers(f);
  }

  lemma ShapeRunning(f: Fold, record: Record)
    requires FoldOk(f) && f.turn.Some? && !record.kind.UserRecord?
    ensures FoldOk(FoldRecord(f, record)) && ShapeOf(FoldRecord(f, record)) == Next(ShapeOf(f), record.kind)
  {
    HeldFlushed(f, f.sections);
    PushNumber(f.turnRecords, Indexed(record, f.index + 1));
    PushNumber(f.between.GetOr([]), Indexed(record, f.index + 1));
  }

  lemma ShapeClosing(f: Fold, record: Record)
    requires FoldOk(f) && f.turn.Some? && record.kind.UserRecord?
    ensures FoldOk(FoldRecord(f, record)) && ShapeOf(FoldRecord(f, record)) == Next(ShapeOf(f), record.kind)
  {
    PushSection(f.sections, TurnSection(f.turn.value, f.turnRecords));
    HeldFlushed(f, f.sections + [TurnSection(f.turn.value, f.turnRecords)]);
    PushNumber([], Indexed(record, f.index + 1));
  }

  function Kinds(nodes: seq<Node>): seq<RecordKind> {
    if nodes == [] then []
    else
      var before := Kinds(nodes[..|nodes| - 1]);
      match RecordOf(nodes[|nodes| - 1])
      case Some(record) => before + [record.kind]
      case None => before
  }

  lemma {:induction false} FoldFits(nodes: seq<Node>)
    ensures var f := FoldNodes(EMPTY, nodes);
      FoldOk(f) && Fits(ShapeOf(f), Seen(Kinds(nodes)))
    decreases |nodes|
  {
    if nodes != [] {
      var init, last := nodes[..|nodes| - 1], nodes[|nodes| - 1];
      FoldFits(init);
      if RecordOf(last).Some? {
        OneRecordFits(FoldNodes(EMPTY, init), Kinds(init), RecordOf(last).value);
      }
    }
  }

  lemma OneRecordFits(f: Fold, kinds: seq<RecordKind>, record: Record)
    requires FoldOk(f) && Fits(ShapeOf(f), Seen(kinds))
    ensures FoldOk(FoldRecord(f, record)) && Fits(ShapeOf(FoldRecord(f, record)), Seen(kinds + [record.kind]))
  {
    FitsNext(ShapeOf(f), Seen(kinds), record.kind);
    KindsPushed(kinds, record.kind);
    if f.turn.None? {
      ShapeUnopened(f, record);
    } else if record.kind.UserRecord? {
      ShapeClosing(f, record);
    } else {
      ShapeRunning(f, record);
    }
  }

  // ---- the whole ledger ----

  lemma FinishedLine(f: Fold)
    requires FoldOk(f)
    ensures Flattened(Finish(f).sections)
         == if f.turn.None? then HeldNumbers(f) + Numbers(f.pending)
            else Flattened(f.sections) + HeldNumbers(f) + Numbers(f.turnRecords)
  {
    var sections := if f.between.Some? then f.sections + [BetweenTurns(f.between.value)] else f.sections;
    HeldFlushed(f, f.sections);
    if f.turnRecords != [] {
      PushSection(sections, TurnSection(f.turn.GetOr(1), f.turnRecords));
      assert Finish(f).sections == sections + [TurnSection(f.turn.GetOr(1), f.turnRecords)];
    } else if f.pending != [] {
      PushSection(sections, TurnSection(f.turn.GetOr(1), f.pending));
      assert Finish(f).sections == sections + [TurnSection(f.turn.GetOr(1), f.pending)];
    } else {
      assert Finish(f).sections == sections;
    }
  }

  // At the end what is held is listed before the open turn.
  lemma FitsAtTheEnd(x: Shape, t: Traits)
    requires Fits(x, t)
    ensures Ascends(if x.inTurn then x.listed + x.held + x.turn else x.held + x.pending)
            <==> t.steady && !(t.inTurn && t.held)
  {
    if x.inTurn {
      AscendsJoined(x.listed + x.held, x.turn);
      PrecedesFrom(x.listed, x.held, x.turn);
      if x.held == [] {
        assert x.listed + x.held == x.listed;
      } else {
        Behind(x.turn, x.held);
      }
    }
  }

  /**
   The record numbers ascend across the whole ledger if and only if every compaction that a record of another kind
   precedes stands behind an open turn and is followed, with only compactions between, by the direct user record that
   closes it.
   */
  lemma NumbersAscendExactly(nodes: seq<Node>)
    ensures var numbers := Flattened(BuildTrajectory(nodes).sections);
            (forall i, j :: 0 <= i < j < |numbers| ==> numbers[i] < numbers[j]) <==> Orderly(Kinds(nodes))
  {
    var f, kinds := FoldNodes(EMPTY, nodes), Kinds(nodes);
    FoldFits(nodes);
    FinishedLine(f);
    FitsAtTheEnd(ShapeOf(f), Seen(kinds));
    OrderlyAtTheEnd(kinds);
    AscendsMeans(Flattened(BuildTrajectory(nodes).sections));
  }

  // Behind contexts alone a compaction is never in its place, whatever follows.
  lemma NeverBehindContexts(nodes: seq<Node>, k: nat)
    requires k < |Kinds(nodes)| && Kinds(nodes)[k].CompactedRecord?
    requires Started(Kinds(nodes)[..k]) && !Opened(Kinds(nodes)[..k])
    ensures var numbers := Flattened(BuildTrajectory(nodes).sections);
            exists i, j :: 0 <= i < j < |numbers| && numbers[i] >= numbers[j]
  {
    NumbersAscendExactly(nodes);
    assert !Closed(Kinds(nodes), k);
  }
}
