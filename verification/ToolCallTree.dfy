/**
 The forest of tool calls: whatever parents the rows claim, every call is shown once.
 */
module ToolCallTree {
  import opened Options

  const MAX_DEPTH := 256

  // A tool row; only its id and claimed parent matter here.
  datatype Call = Call(id: string, parent: Option<string>, title: string)

  datatype Tree = Tree(call: Call, children: seq<Tree>)

  type Parents = map<string, string>

  // ---- parent links ----

  // A numbering that grows from parent to child: there is no cycle.
  ghost predicate Ranked(parents: Parents, rank: map<string, nat>) {
    forall c {:trigger c in parents} :: c in parents ==> c in rank && parents[c] in rank && rank[parents[c]] < rank[c]
  }

  ghost function RankOf(rank: map<string, nat>, x: string): nat {
    if x in rank then rank[x] else 0
  }

  ghost function Depth(parents: Parents, rank: map<string, nat>, x: string): (depth: nat)
    requires Ranked(parents, rank)
    ensures depth >= 1
    decreases RankOf(rank, x)
  {
    if x in parents then 1 + Depth(parents, rank, parents[x]) else 1
  }

  // `y` is `x` or an ancestor of it.
  ghost predicate OnChain(parents: Parents, rank: map<string, nat>, x: string, y: string)
    requires Ranked(parents, rank)
    decreases RankOf(rank, x)
  {
    x == y || (x in parents && OnChain(parents, rank, parents[x], y))
  }

  lemma {:induction false} ChainRanks(parents: Parents, rank: map<string, nat>, x: string, y: string)
    requires Ranked(parents, rank) && OnChain(parents, rank, x, y) && x != y
    ensures x in rank && y in rank && rank[y] < rank[x]
    decreases RankOf(rank, x)
  {
    if parents[x] != y {
      ChainRanks(parents, rank, parents[x], y);
    }
  }

  // Climbs from the parent; without a cycle the `visited` guard never fires, and the answer is exact.
  method CreatesCycle(parents: Parents, childId: string, parentId: string, ghost rank: map<string, nat>)
    returns (cycle: bool)
    requires Ranked(parents, rank)
    ensures cycle == OnChain(parents, rank, parentId, childId)
  {
    var visited: set<string> := {};
    var cursor := parentId;
    while true
      invariant OnChain(parents, rank, parentId, childId) == OnChain(parents, rank, cursor, childId)
      invariant forall v :: v in visited ==> v in rank && RankOf(rank, cursor) < rank[v]
      decreases RankOf(rank, cursor)
    {
      if cursor == childId || cursor in visited {
        return true;
      }
      visited := visited + {cursor};
      if cursor !in parents {
        return false;
      }
      cursor := parents[cursor];
    }
  }

  // ---- adding a link ----

  ghost function Lifted(parents: Parents, rank: map<string, nat>, id: string, parent: string): map<string, nat>
    requires Ranked(parents, rank)
  {
    map x | x in rank.Keys + {id, parent} ::
      if OnChain(parents, rank, x, id) then RankOf(rank, x) + RankOf(rank, parent) + 1 else RankOf(rank, x)
  }

  // A link that closes no cycle can be added to links without one.
  lemma LinkKeepsRanks(parents: Parents, rank: map<string, nat>, id: string, parent: string)
    requires Ranked(parents, rank) && id !in parents && !OnChain(parents, rank, parent, id)
    ensures Ranked(parents[id := parent], Lifted(parents, rank, id, parent))
  {
    var after, lifted := parents[id := parent], Lifted(parents, rank, id, parent);
    forall c | c in after ensures c in lifted && after[c] in lifted && lifted[after[c]] < lifted[c] {
      if c == id {
        assert OnChain(parents, rank, id, id);
      } else {
        assert OnChain(parents, rank, c, id) == OnChain(parents, rank, parents[c], id);
      }
    }
  }

  // Chains and depths depend on the links alone.
  lemma {:induction false} RankDoesNotMatter(parents: Parents, a: map<string, nat>, b: map<string, nat>, x: string,
                                             y: string)
    requires Ranked(parents, a) && Ranked(parents, b)
    ensures OnChain(parents, a, x, y) == OnChain(parents, b, x, y)
    ensures Depth(parents, a, x) == Depth(parents, b, x)
    decreases RankOf(a, x)
  {
    if x in parents {
      RankDoesNotMatter(parents, a, b, parents[x], y);
    }
  }

  // ---- cutting a link ----

  lemma {:induction false} CutShortens(parents: Parents, rank: map<string, nat>, id: string, x: string)
    requires Ranked(parents, rank)
    ensures Ranked(parents - {id}, rank) && Depth(parents - {id}, rank, x) <= Depth(parents, rank, x)
    decreases RankOf(rank, x)
  {
    if x in parents {
      CutShortens(parents, rank, id, parents[x]);
    }
  }

  // Counts up to the limit and one beyond; here too the `visited` guard never fires.
  method DepthOf(parents: Parents, childId: string, ghost rank: map<string, nat>) returns (depth: int)
    requires Ranked(parents, rank)
    ensures depth <= MAX_DEPTH <==> Depth(parents, rank, childId) <= MAX_DEPTH
    ensures depth <= MAX_DEPTH ==> depth == Depth(parents, rank, childId)
  {
    depth := 1;
    var cursor := childId;
    var visited: set<string> := {};
    while true
      invariant 1 <= depth <= MAX_DEPTH
      invariant Depth(parents, rank, childId) == depth - 1 + Depth(parents, rank, cursor)
      invariant forall v :: v in visited ==> v in rank && RankOf(rank, cursor) < rank[v]
      decreases RankOf(rank, cursor)
    {
      if cursor in visited {
        depth := MAX_DEPTH + 1;
        break;
      }
      visited := visited + {cursor};
      if cursor !in parents {
        break;
      }
      depth := depth + 1;
      if depth > MAX_DEPTH {
        break;
      }
      cursor := parents[cursor];
    }
  }

  // ---- the three passes ----

  predicate Distinct(ids: seq<string>) {
    ids != [] ==> ids[|ids| - 1] !in ids[..|ids| - 1] && Distinct(ids[..|ids| - 1])
  }

  lemma {:induction false} DistinctSoFar(ids: seq<string>, i: nat)
    requires Distinct(ids) && i < |ids|
    ensures ids[i] !in ids[..i]
    decreases |ids|
  {
    if i < |ids| - 1 {
      DistinctSoFar(ids[..|ids| - 1], i);
      assert ids[..|ids| - 1][..i] == ids[..i];
    }
  }

  // The ids in the order they first appear.
  function FirstSeen(calls: seq<Call>): seq<string> {
    if calls == [] then []
    else
      var before := FirstSeen(calls[..|calls| - 1]);
      if calls[|calls| - 1].id in before then before else before + [calls[|calls| - 1].id]
  }

  // Of each id, the row that came first.
  function FirstRows(calls: seq<Call>): map<string, Call> {
    if calls == [] then map[]
    else
      var before := FirstRows(calls[..|calls| - 1]);
      var last := calls[|calls| - 1];
      if last.id in before then before else before[last.id := last]
  }

  lemma {:induction false} SeenExactly(calls: seq<Call>, id: string)
    ensures id in FirstSeen(calls) <==> id in FirstRows(calls)
    ensures id in FirstSeen(calls) <==> exists i :: 0 <= i < |calls| && calls[i].id == id
    decreases |calls|
  {
    if calls != [] {
      var before := calls[..|calls| - 1];
      SeenExactly(before, id);
      SeenExactly(before, calls[|calls| - 1].id);
    }
  }

  lemma {:induction false} FirstRowWins(calls: seq<Call>, i: nat)
    requires i < |calls| && forall j :: 0 <= j < i ==> calls[j].id != calls[i].id
    ensures calls[i].id in FirstRows(calls) && FirstRows(calls)[calls[i].id] == calls[i]
    decreases |calls|
  {
    var before := calls[..|calls| - 1];
    if i < |before| {
      FirstRowWins(before, i);
    } else {
      SeenExactly(before, calls[i].id);
    }
  }

  lemma {:induction false} FirstSeenDistinct(calls: seq<Call>)
    ensures Distinct(FirstSeen(calls))
    decreases |calls|
  {
    if calls != [] {
      FirstSeenDistinct(calls[..|calls| - 1]);
    }
  }

  method Deduplicate(calls: seq<Call>) returns (rows: map<string, Call>, order: seq<string>)
    ensures order == FirstSeen(calls) && rows == FirstRows(calls)
  {
    rows, order := map[], [];
    for i := 0 to |calls|
      invariant order == FirstSeen(calls[..i]) && rows == FirstRows(calls[..i])
    {
      assert calls[..i + 1][..i] == calls[..i];
      SeenExactly(calls[..i], calls[i].id);
      if calls[i].id !in rows {
        rows := rows[calls[i].id := calls[i]];
        order := order + [calls[i].id];
      }
    }
    assert calls[..|calls|] == calls;
  }

  // What a call claims, if the parent exists and is another call.
  predicate Claims(rows: map<string, Call>, id: string, parent: string) {
    id in rows && rows[id].parent == Some(parent) && parent in rows && parent != id
  }

  // Every link was claimed, and a claim is only passed over where it would close a cycle.
  ghost predicate Linked(rows: map<string, Call>, order: seq<string>, parents: Parents, rank: map<string, nat>) {
    && Ranked(parents, rank)
    && (forall id :: id in parents ==> id in order && Claims(rows, id, parents[id]))
    && (forall id, parent :: id in order && Claims(rows, id, parent) && id !in parents ==>
          OnChain(parents, rank, parent, id))
  }

  lemma {:induction false} ChainGrows(parents: Parents, rank: map<string, nat>, id: string, parent: string,
                                      more: map<string, nat>, x: string, y: string)
    requires Ranked(parents, rank) && id !in parents && Ranked(parents[id := parent], more)
             && OnChain(parents, rank, x, y)
    ensures OnChain(parents[id := parent], more, x, y)
    decreases RankOf(rank, x)
  {
    if x != y {
      ChainGrows(parents, rank, id, parent, more, parents[x], y);
    }
  }

  method LinkParents(rows: map<string, Call>, order: seq<string>)
    returns (parents: Parents, ghost rank: map<string, nat>)
    requires Distinct(order)
    ensures forall id :: id in parents ==> id in order && Claims(rows, id, parents[id])
    ensures Linked(rows, order, parents, rank)
  {
    parents, rank := map[], map[];
    for i := 0 to |order|
      invariant Linked(rows, order[..i], parents, rank)
    {
      var id := order[i];
      DistinctSoFar(order, i);
      assert order[..i + 1] == order[..i] + [id];
      if id in rows && rows[id].parent.Some? && rows[id].parent.value in rows && rows[id].parent.value != id {
        var parent := rows[id].parent.value;
        var cycle := CreatesCycle(parents, id, parent, rank);
        if !cycle {
          LinkKeepsRanks(parents, rank, id, parent);
          ghost var lifted := Lifted(parents, rank, id, parent);
          forall other, p | other in order[..i] && Claims(rows, other, p) && other !in parents
            ensures OnChain(parents[id := parent], lifted, p, other)
          {
            ChainGrows(parents, rank, id, parent, lifted, p, other);
          }
          parents, rank := parents[id := parent], lifted;
        }
      }
    }
    assert order[..|order|] == order;
  }

  // In the order given, each link whose call is too deep when its turn comes is cut.
  ghost function Trims(before: Parents, rank: map<string, nat>, order: seq<string>): (after: Parents)
    requires Ranked(before, rank)
    ensures Ranked(after, rank)
  {
    if order == [] then before
    else
      var sofar := Trims(before, rank, order[..|order| - 1]);
      var id := order[|order| - 1];
      if Depth(sofar, rank, id) > MAX_DEPTH then sofar - {id} else sofar
  }

  // Only links of calls that were too deep are cut, and those that stay are unchanged.
  lemma {:induction false} TrimsOnlyTheDeep(before: Parents, rank: map<string, nat>, order: seq<string>, id: string)
    requires Ranked(before, rank)
    ensures var after := Trims(before, rank, order);
      && Depth(after, rank, id) <= Depth(before, rank, id)
      && (id in after ==> id in before && after[id] == before[id])
      && (id in before && id !in after ==> Depth(before, rank, id) > MAX_DEPTH)
    decreases |order|
  {
    if order != [] {
      var sofar := Trims(before, rank, order[..|order| - 1]);
      TrimsOnlyTheDeep(before, rank, order[..|order| - 1], id);
      CutShortens(sofar, rank, order[|order| - 1], id);
    }
  }

  // Once its turn has come, no call is too deep again.
  lemma {:induction false} TrimsEnough(before: Parents, rank: map<string, nat>, order: seq<string>, id: string)
    requires Ranked(before, rank) && (id in before ==> id in order)
    ensures Depth(Trims(before, rank, order), rank, id) <= MAX_DEPTH
    decreases |order|
  {
    if id !in before {
      TrimsOnlyTheDeep(before, rank, order, id);
    } else {
      var init, last := order[..|order| - 1], order[|order| - 1];
      assert order == init + [last];
      var sofar := Trims(before, rank, init);
      if Depth(sofar, rank, last) > MAX_DEPTH {
        CutShortens(sofar, rank, last, id);
      }
      if id != last {
        TrimsEnough(before, rank, init, id);
      }
    }
  }

  method TrimOverDepthEdges(before: Parents, order: seq<string>, ghost rank: map<string, nat>)
    returns (parents: Parents)
    requires Ranked(before, rank)
    ensures parents == Trims(before, rank, order)
  {
    parents := before;
    for i := 0 to |order|
      invariant parents == Trims(before, rank, order[..i])
    {
      assert order[..i + 1][..i] == order[..i];
      var depth := DepthOf(parents, order[i], rank);
      if depth > MAX_DEPTH {
        parents := parents - {order[i]};
      }
    }
    assert order[..|order|] == order;
  }

  // ---- the forest ----

  // The calls under one parent, in the order they were first seen.
  function Children(order: seq<string>, parents: Parents, parent: string): (children: seq<string>)
    ensures forall c {:trigger c in children} :: c in children <==> c in order && c in parents && parents[c] == parent
  {
    if order == [] then []
    else
      var before := Children(order[..|order| - 1], parents, parent);
      var last := order[|order| - 1];
      assert order == order[..|order| - 1] + [last];
      if last in parents && parents[last] == parent then before + [last] else before
  }

  function Roots(order: seq<string>, parents: Parents): (roots: seq<string>)
    ensures forall c {:trigger c in roots} :: c in roots <==> c in order && c !in parents
  {
    if order == [] then []
    else
      var before := Roots(order[..|order| - 1], parents);
      var last := order[|order| - 1];
      assert order == order[..|order| - 1] + [last];
      if last !in parents then before + [last] else before
  }

  // What is listed first was seen first: the calls seen by then are a prefix of the list.
  lemma {:induction false} SiblingsKeepOrder(order: seq<string>, parents: Parents, parent: string, k: nat)
    requires k <= |order|
    ensures Children(order[..k], parents, parent) <= Children(order, parents, parent)
    ensures Roots(order[..k], parents) <= Roots(order, parents)
    decreases |order|
  {
    if k == |order| {
      assert order[..k] == order;
    } else {
      assert order[..|order| - 1][..k] == order[..k];
      SiblingsKeepOrder(order[..|order| - 1], parents, parent, k);
    }
  }

  function Listed(childrenByParent: map<string, seq<string>>, parent: string): seq<string> {
    if parent in childrenByParent then childrenByParent[parent] else []
  }

  // What the passes hand to the projection; the ranks are there for the proof.
  datatype Family = Family(rows: map<string, Call>, order: seq<string>, parents: Parents,
                           childrenByParent: map<string, seq<string>>, rank: map<string, nat>)

  // Links without a cycle or a long chain, between known calls.
  ghost predicate Sound(f: Family) {
    && Ranked(f.parents, f.rank)
    && Distinct(f.order)
    && (forall id :: id in f.order <==> id in f.rows)
    && (forall id {:trigger f.rows[id]} :: id in f.rows ==> f.rows[id].id == id)
    && (forall id {:trigger id in f.parents} :: id in f.parents ==> id in f.order && f.parents[id] in f.order)
    && (forall id :: Depth(f.parents, f.rank, id) <= MAX_DEPTH)
    && (forall p :: ChildrenOf(f, p) == Children(f.order, f.parents, p))
  }

  function ChildrenOf(f: Family, id: string): seq<string> {
    Listed(f.childrenByParent, id)
  }

  // Different known calls, all at one level of the forest.
  ghost predicate Level(f: Family, ids: seq<string>, level: nat)
    requires Ranked(f.parents, f.rank)
  {
    ids != [] ==>
      var init, last := ids[..|ids| - 1], ids[|ids| - 1];
      last !in init && last in f.rows && Depth(f.parents, f.rank, last) == level && Level(f, init, level)
  }

  lemma {:induction false} ChildrenLevel(f: Family, order: seq<string>, parent: string, level: nat)
    requires Ranked(f.parents, f.rank) && Distinct(order) && forall id :: id in order ==> id in f.rows
    ensures Depth(f.parents, f.rank, parent) == level ==> Level(f, Children(order, f.parents, parent), level + 1)
    ensures Level(f, Roots(order, f.parents), 1)
    decreases |order|
  {
    if order != [] {
      var init, last := order[..|order| - 1], order[|order| - 1];
      ChildrenLevel(f, init, parent, level);
      var children, roots := Children(init, f.parents, parent), Roots(init, f.parents);
      assert last !in init && last !in children && last !in roots;
      assert (children + [last])[..|children|] == children && (roots + [last])[..|roots|] == roots;
    }
  }

  ghost function RowOf(f: Family, id: string): Call {
    if id in f.rows then f.rows[id] else Call(id, None, "")
  }

  // One call with everything under it, down to `below` further levels.
  ghost function Full(f: Family, id: string, below: nat): Tree
    decreases below, 0
  {
    Tree(RowOf(f, id), if below == 0 then [] else Forest(f, ChildrenOf(f, id), below - 1))
  }

  ghost function Forest(f: Family, ids: seq<string>, below: nat): (forest: seq<Tree>)
    ensures |forest| == |ids|
    decreases below, |ids|
  {
    if ids == [] then [] else Forest(f, ids[..|ids| - 1], below) + [Full(f, ids[|ids| - 1], below)]
  }

  // ---- every call once ----

  // How often a call appears anywhere in the forest.
  function Shown(forest: seq<Tree>, x: string): nat
    decreases forest
  {
    if forest == [] then 0
    else
      var last := forest[|forest| - 1];
      Shown(forest[..|forest| - 1], x) + (if last.call.id == x then 1 else 0) + Shown(last.children, x)
  }

  function Height(forest: seq<Tree>): nat
    decreases forest
  {
    if forest == [] then 0
    else
      var before, last := Height(forest[..|forest| - 1]), 1 + Height(forest[|forest| - 1].children);
      if before < last then last else before
  }

  function Heads(forest: seq<Tree>): seq<string> {
    if forest == [] then [] else Heads(forest[..|forest| - 1]) + [forest[|forest| - 1].call.id]
  }

  // Each node carries the row of its id and exactly the children that claim it, in input order.
  predicate Faithful(f: Family, forest: seq<Tree>)
    decreases forest
  {
    forest != [] ==>
      var last := forest[|forest| - 1];
      && Faithful(f, forest[..|forest| - 1])
      && last.call.id in f.rows && f.rows[last.call.id] == last.call
      && Heads(last.children) == ChildrenOf(f, last.call.id)
      && Faithful(f, last.children)
  }

  // The ancestor (or self) of `x` at a level no deeper than `x`.
  ghost function Ancestor(parents: Parents, rank: map<string, nat>, x: string, level: nat): (a: string)
    requires Ranked(parents, rank) && 1 <= level <= Depth(parents, rank, x)
    ensures Depth(parents, rank, a) == level
    decreases RankOf(rank, x)
  {
    if Depth(parents, rank, x) == level then x
    else Ancestor(parents, rank, parents[x], level)
  }

  lemma {:induction false} NextAncestor(parents: Parents, rank: map<string, nat>, x: string, level: nat)
    requires Ranked(parents, rank) && 1 <= level < Depth(parents, rank, x)
    ensures var a := Ancestor(parents, rank, x, level + 1);
      a in parents && parents[a] == Ancestor(parents, rank, x, level)
    decreases RankOf(rank, x)
  {
    if Depth(parents, rank, x) != level + 1 {
      NextAncestor(parents, rank, parents[x], level);
    }
  }

  lemma {:induction false} AncestorIsKnown(f: Family, x: string, level: nat)
    requires Sound(f) && 1 <= level <= Depth(f.parents, f.rank, x)
    ensures Ancestor(f.parents, f.rank, x, level) in f.order <==> x in f.order
    decreases RankOf(f.rank, x)
  {
    if Depth(f.parents, f.rank, x) != level {
      AncestorIsKnown(f, f.parents[x], level);
    }
  }

  ghost function Under(f: Family, ids: seq<string>, level: nat, x: string): nat
    requires Ranked(f.parents, f.rank) && level >= 1
  {
    if level <= Depth(f.parents, f.rank, x) && Ancestor(f.parents, f.rank, x, level) in ids then 1 else 0
  }

  lemma UnderLast(f: Family, init: seq<string>, last: string, level: nat, x: string)
    requires Sound(f) && level >= 1 && Depth(f.parents, f.rank, last) == level && last !in init
    ensures Under(f, init + [last], level, x)
         == Under(f, init, level, x) + (if last == x then 1 else 0) + Under(f, ChildrenOf(f, last), level + 1, x)
  {
    if level < Depth(f.parents, f.rank, x) {
      NextAncestor(f.parents, f.rank, x, level);
    }
  }

  lemma SnocShows(forest: seq<Tree>, t: Tree, x: string)
    ensures Shown(forest + [t], x) == Shown(forest, x) + (if t.call.id == x then 1 else 0) + Shown(t.children, x)
  {
    assert (forest + [t])[..|forest|] == forest;
  }

  lemma SnocHeads(forest: seq<Tree>, t: Tree)
    ensures Heads(forest + [t]) == Heads(forest) + [t.call.id]
  {
    assert (forest + [t])[..|forest|] == forest;
  }

  lemma SnocRises(forest: seq<Tree>, t: Tree, limit: nat)
    requires Height(forest) <= limit && 1 + Height(t.children) <= limit
    ensures Height(forest + [t]) <= limit
  {
    assert (forest + [t])[..|forest|] == forest;
  }

  lemma SnocIsFaithful(f: Family, forest: seq<Tree>, t: Tree)
    requires Faithful(f, forest) && Faithful(f, t.children)
    requires t.call.id in f.rows && f.rows[t.call.id] == t.call && Heads(t.children) == ChildrenOf(f, t.call.id)
    ensures Faithful(f, forest + [t])
  {
    assert (forest + [t])[..|forest|] == forest;
  }

  // How often the tree of one call shows `x`, counted along the links.
  ghost function TallyAt(f: Family, id: string, below: nat, x: string): nat
    decreases below, 0
  {
    (if RowOf(f, id).id == x then 1 else 0) + (if below == 0 then 0 else Tally(f, ChildrenOf(f, id), below - 1, x))
  }

  ghost function Tally(f: Family, ids: seq<string>, below: nat, x: string): nat
    decreases below, |ids|
  {
    if ids == [] then 0 else Tally(f, ids[..|ids| - 1], below, x) + TallyAt(f, ids[|ids| - 1], below, x)
  }

  lemma {:induction false} ShowsTheTally(f: Family, ids: seq<string>, below: nat, x: string)
    ensures Shown(Forest(f, ids, below), x) == Tally(f, ids, below, x)
    decreases below, |ids|
  {
    if ids != [] {
      var init, last := ids[..|ids| - 1], ids[|ids| - 1];
      ShowsTheTally(f, init, below, x);
      FullShowsTheTally(f, last, below, x);
      SnocShows(Forest(f, init, below), Full(f, last, below), x);
    }
  }

  lemma {:induction false} FullShowsTheTally(f: Family, id: string, below: nat, x: string)
    ensures var t := Full(f, id, below);
            (if t.call.id == x then 1 else 0) + Shown(t.children, x) == TallyAt(f, id, below, x)
    decreases below, 0
  {
    if below > 0 {
      ShowsTheTally(f, ChildrenOf(f, id), below - 1, x);
    }
  }

  lemma {:induction false} ForestIsLow(f: Family, ids: seq<string>, below: nat)
    ensures Height(Forest(f, ids, below)) <= below + 1
    decreases below, |ids|
  {
    if ids != [] {
      var init, last := ids[..|ids| - 1], ids[|ids| - 1];
      ForestIsLow(f, init, below);
      if below > 0 {
        ForestIsLow(f, ChildrenOf(f, last), below - 1);
      }
      SnocRises(Forest(f, init, below), Full(f, last, below), below + 1);
    }
  }

  // No chain of children meets a call of its own path or goes on past the levels allowed: the guards never fire.
  ghost predicate FitsAt(f: Family, id: string, below: nat, path: set<string>)
    decreases below, 0
  {
    && id in f.rows && f.rows[id].id == id && id !in path
    && (if below == 0 then ChildrenOf(f, id) == [] else Fits(f, ChildrenOf(f, id), below - 1, path + {id}))
  }

  ghost predicate Fits(f: Family, ids: seq<string>, below: nat, path: set<string>)
    decreases below, |ids|
  {
    ids != [] ==> Fits(f, ids[..|ids| - 1], below, path) && FitsAt(f, ids[|ids| - 1], below, path)
  }

  lemma {:induction false} FitsEach(f: Family, ids: seq<string>, below: nat, path: set<string>, i: nat)
    requires Fits(f, ids, below, path) && i < |ids|
    ensures FitsAt(f, ids[i], below, path)
    decreases |ids|
  {
    if i < |ids| - 1 {
      FitsEach(f, ids[..|ids| - 1], below, path, i);
    }
  }

  lemma {:induction false} ForestHeads(f: Family, ids: seq<string>, below: nat, path: set<string>)
    requires Fits(f, ids, below, path)
    ensures Heads(Forest(f, ids, below)) == ids
    decreases below, |ids|
  {
    if ids != [] {
      var init, last := ids[..|ids| - 1], ids[|ids| - 1];
      ForestHeads(f, init, below, path);
      SnocHeads(Forest(f, init, below), Full(f, last, below));
    }
  }

  lemma {:induction false} ForestIsFaithful(f: Family, ids: seq<string>, below: nat, path: set<string>)
    requires Fits(f, ids, below, path)
    ensures Faithful(f, Forest(f, ids, below))
    decreases below, |ids|
  {
    if ids != [] {
      var init, last := ids[..|ids| - 1], ids[|ids| - 1];
      ForestIsFaithful(f, init, below, path);
      FullIsFaithful(f, last, below, path);
      SnocIsFaithful(f, Forest(f, init, below), Full(f, last, below));
    }
  }

  lemma {:induction false} FullIsFaithful(f: Family, id: string, below: nat, path: set<string>)
    requires FitsAt(f, id, below, path)
    ensures var t := Full(f, id, below);
      t.call == f.rows[id] && Faithful(f, t.children) && Heads(t.children) == ChildrenOf(f, id)
    decreases below, 0
  {
    if below > 0 {
      ForestHeads(f, ChildrenOf(f, id), below - 1, path + {id});
      ForestIsFaithful(f, ChildrenOf(f, id), below - 1, path + {id});
    }
  }

  lemma ChildIsDeeper(f: Family, id: string, child: string)
    requires Sound(f) && child in ChildrenOf(f, id)
    ensures Depth(f.parents, f.rank, id) < MAX_DEPTH
  {
    assert Depth(f.parents, f.rank, child) == Depth(f.parents, f.rank, id) + 1;
  }

  // At the depth limit a call has no children left to drop.
  lemma NoneBelowTheLimit(f: Family, id: string)
    requires Sound(f) && Depth(f.parents, f.rank, id) == MAX_DEPTH
    ensures ChildrenOf(f, id) == []
  {
    if ChildrenOf(f, id) != [] {
      ChildIsDeeper(f, id, ChildrenOf(f, id)[0]);
    }
  }

  // The calls above `id`, all of them different from it.
  ghost predicate Above(f: Family, visited: set<string>, id: string)
    requires Ranked(f.parents, f.rank)
  {
    forall v :: v in visited ==> v != id && OnChain(f.parents, f.rank, id, v)
  }

  lemma AboveChild(f: Family, visited: set<string>, id: string, child: string)
    requires Ranked(f.parents, f.rank) && Above(f, visited, id) && child in f.parents && f.parents[child] == id
    ensures Above(f, visited + {id}, child)
  {
    forall v | v in visited + {id} ensures v != child && OnChain(f.parents, f.rank, child, v) {
      assert OnChain(f.parents, f.rank, id, v);
      if v == child {
        ChainRanks(f.parents, f.rank, id, child);
      }
    }
  }

  // Sound links give the guards nothing to do.
  lemma {:induction false} SoundFits(f: Family, ids: seq<string>, level: nat, path: set<string>)
    requires Sound(f) && Level(f, ids, level) && 1 <= level <= MAX_DEPTH
    requires forall id :: id in ids ==> Above(f, path, id)
    ensures Fits(f, ids, MAX_DEPTH - level, path)
    decreases MAX_DEPTH - level, |ids|
  {
    if ids != [] {
      SoundFits(f, ids[..|ids| - 1], level, path);
      SoundFitsAt(f, ids[|ids| - 1], level, path);
    }
  }

  lemma {:induction false} SoundFitsAt(f: Family, id: string, level: nat, path: set<string>)
    requires Sound(f) && id in f.rows && Depth(f.parents, f.rank, id) == level && 1 <= level <= MAX_DEPTH
    requires Above(f, path, id)
    ensures FitsAt(f, id, MAX_DEPTH - level, path)
    decreases MAX_DEPTH - level, 0
  {
    ChildrenLevel(f, f.order, id, level);
    if level == MAX_DEPTH {
      NoneBelowTheLimit(f, id);
    } else {
      forall child | child in ChildrenOf(f, id) ensures Above(f, path + {id}, child) {
        AboveChild(f, path, id, child);
      }
      SoundFits(f, ChildrenOf(f, id), level + 1, path + {id});
    }
  }

  // The trees of `ids` show exactly the calls at or under them, each once.
  lemma {:induction false} TalliesOnce(f: Family, ids: seq<string>, level: nat, x: string)
    requires Sound(f) && Level(f, ids, level) && 1 <= level <= MAX_DEPTH
    ensures Tally(f, ids, MAX_DEPTH - level, x) == Under(f, ids, level, x)
    decreases MAX_DEPTH - level, |ids|
  {
    if ids != [] {
      var init, last := ids[..|ids| - 1], ids[|ids| - 1];
      assert ids == init + [last];
      TalliesOnce(f, init, level, x);
      TalliesOnceAt(f, last, level, x);
      UnderLast(f, init, last, level, x);
    }
  }

  lemma {:induction false} TalliesOnceAt(f: Family, id: string, level: nat, x: string)
    requires Sound(f) && id in f.rows && Depth(f.parents, f.rank, id) == level && 1 <= level <= MAX_DEPTH
    ensures TallyAt(f, id, MAX_DEPTH - level, x)
            == (if id == x then 1 else 0) + Under(f, ChildrenOf(f, id), level + 1, x)
    decreases MAX_DEPTH - level, 0
  {
    ChildrenLevel(f, f.order, id, level);
    if level == MAX_DEPTH {
      NoneBelowTheLimit(f, id);
    } else {
      TalliesOnce(f, ChildrenOf(f, id), level + 1, x);
    }
  }

  // ---- the projection ----

  // The ancestor path the recursion is on, shared by all its calls.
  class Path {
    var visited: set<string>

    constructor ()
      ensures visited == {}
    {
      visited := {};
    }

    // Neither the path nor the depth guard ever drops a child.
    method ProjectNode(id: string, rows: map<string, Call>, childrenByParent: map<string, seq<string>>, depth: nat,
                       ghost f: Family)
      returns (tree: Tree)
      requires 1 <= depth <= MAX_DEPTH && FitsAt(f, id, MAX_DEPTH - depth, visited)
      requires rows == f.rows && childrenByParent == f.childrenByParent
      modifies this
      ensures visited == old(visited)
      ensures tree == Full(f, id, MAX_DEPTH - depth)
      decreases MAX_DEPTH - depth
    {
      var node := rows[id];
      var children: seq<Tree> := [];
      if id !in visited && depth <= MAX_DEPTH {
        visited := visited + {id};
        var childIds := if depth == MAX_DEPTH then [] else Listed(childrenByParent, id);
        for i := 0 to |childIds|
          invariant visited == old(visited) + {id}
          invariant if depth == MAX_DEPTH then children == []
                    else children == Forest(f, childIds[..i], MAX_DEPTH - depth - 1)
        {
          FitsEach(f, childIds, MAX_DEPTH - depth - 1, visited, i);
          var child := ProjectNode(childIds[i], rows, childrenByParent, depth + 1, f);
          children := children + [child];
          assert childIds[..i + 1][..i] == childIds[..i];
        }
        assert childIds[..|childIds|] == childIds;
        visited := visited - {id};
      }
      tree := Tree(node, children);
    }
  }

  // ---- the whole projection ----

  method ListChildren(order: seq<string>, parents: Parents) returns (childrenByParent: map<string, seq<string>>)
    ensures forall p :: Listed(childrenByParent, p) == Children(order, parents, p)
  {
    childrenByParent := map[];
    for i := 0 to |order|
      invariant forall p :: Listed(childrenByParent, p) == Children(order[..i], parents, p)
    {
      assert order[..i + 1][..i] == order[..i];
      if order[i] in parents {
        var parent := parents[order[i]];
        childrenByParent := childrenByParent[parent := Listed(childrenByParent, parent) + [order[i]]];
      }
    }
    assert order[..|order|] == order;
  }

  lemma {:induction false} RootsAre(f: Family, x: string)
    requires Sound(f)
    ensures Level(f, Roots(f.order, f.parents), 1)
    ensures Under(f, Roots(f.order, f.parents), 1, x) == if x in f.order then 1 else 0
  {
    ChildrenLevel(f, f.order, x, Depth(f.parents, f.rank, x));
    AncestorIsKnown(f, x, 1);
  }

  // The links that the rows claim, minus those that would close a cycle and those that run too deep.
  ghost predicate Kin(calls: seq<Call>, f: Family, linked: Parents) {
    && f.rows == FirstRows(calls) && f.order == FirstSeen(calls)
    && Linked(f.rows, f.order, linked, f.rank)
    && f.parents == Trims(linked, f.rank, f.order)
    && (forall p :: ChildrenOf(f, p) == Children(f.order, f.parents, p))
  }

  lemma KinIsSound(calls: seq<Call>, f: Family, linked: Parents)
    requires Kin(calls, f, linked)
    ensures Sound(f)
  {
    FirstSeenDistinct(calls);
    forall id ensures id in f.order <==> id in f.rows {
      SeenExactly(calls, id);
    }
    forall id | id in f.rows ensures f.rows[id].id == id {
      RowHasId(calls, id);
    }
    forall id ensures Depth(f.parents, f.rank, id) <= MAX_DEPTH {
      TrimsEnough(linked, f.rank, f.order, id);
    }
    forall id | id in f.parents ensures id in f.order && f.parents[id] in f.order {
      TrimsOnlyTheDeep(linked, f.rank, f.order, id);
    }
  }

  lemma {:induction false} RowHasId(calls: seq<Call>, id: string)
    requires id in FirstRows(calls)
    ensures FirstRows(calls)[id].id == id
    decreases |calls|
  {
    if calls != [] && id in FirstRows(calls[..|calls| - 1]) {
      RowHasId(calls[..|calls| - 1], id);
    }
  }

  method ProjectRoots(roots: seq<string>, rows: map<string, Call>, childrenByParent: map<string, seq<string>>,
                      ghost f: Family)
    returns (forest: seq<Tree>)
    requires Fits(f, roots, MAX_DEPTH - 1, {}) && rows == f.rows && childrenByParent == f.childrenByParent
    ensures forest == Forest(f, roots, MAX_DEPTH - 1)
  {
    forest := [];
    var path := new Path();
    for i := 0 to |roots|
      invariant path.visited == {} && forest == Forest(f, roots[..i], MAX_DEPTH - 1)
    {
      FitsEach(f, roots, MAX_DEPTH - 1, {}, i);
      var tree := path.ProjectNode(roots[i], rows, childrenByParent, 1, f);
      forest := forest + [tree];
      assert roots[..i + 1][..i] == roots[..i];
    }
    assert roots[..|roots|] == roots;
  }

  /**
   Whatever the rows claim: every id of the input appears exactly once in the forest and nothing else does, no branch
   is longer than the limit, the roots are the calls without a parent, and both they and all siblings keep the order
   of the input. The links are those claimed: one is missing only where it would close a cycle or ran too deep.
   */
  method ProjectToolCallTree(calls: seq<Call>) returns (forest: seq<Tree>, ghost f: Family, ghost linked: Parents)
    ensures Kin(calls, f, linked)
    ensures forall x :: Shown(forest, x) == if (exists i :: 0 <= i < |calls| && calls[i].id == x) then 1 else 0
    ensures Height(forest) <= MAX_DEPTH
    ensures Heads(forest) == Roots(f.order, f.parents) && Faithful(f, forest)
  {
    var rows, order := Deduplicate(calls);
    FirstSeenDistinct(calls);
    ghost var rank;
    var parents;
    parents, rank := LinkParents(rows, order);
    linked := parents;
    parents := TrimOverDepthEdges(parents, order, rank);
    var childrenByParent := ListChildren(order, parents);
    f := Family(rows, order, parents, childrenByParent, rank);
    KinIsSound(calls, f, linked);
    RootsFit(f);
    forest := ProjectRoots(Roots(order, parents), rows, childrenByParent, f);
    ForestHolds(calls, f, linked);
  }

  lemma RootsFit(f: Family)
    requires Sound(f)
    ensures Fits(f, Roots(f.order, f.parents), MAX_DEPTH - 1, {})
  {
    RootsAre(f, "");
    SoundFits(f, Roots(f.order, f.parents), 1, {});
  }

  lemma ShownOnce(calls: seq<Call>, f: Family, linked: Parents, x: string)
    requires Kin(calls, f, linked)
    ensures Shown(Forest(f, Roots(f.order, f.parents), MAX_DEPTH - 1), x)
            == if (exists i :: 0 <= i < |calls| && calls[i].id == x) then 1 else 0
  {
    var roots := Roots(f.order, f.parents);
    KinIsSound(calls, f, linked);
    RootsAre(f, x);
    ShowsTheTally(f, roots, MAX_DEPTH - 1, x);
    TalliesOnce(f, roots, 1, x);
    SeenExactly(calls, x);
  }

  lemma ForestHolds(calls: seq<Call>, f: Family, linked: Parents)
    requires Kin(calls, f, linked)
    ensures var forest := Forest(f, Roots(f.order, f.parents), MAX_DEPTH - 1);
            && (forall x :: Shown(forest, x) == if (exists i :: 0 <= i < |calls| && calls[i].id == x) then 1 else 0)
            && Height(forest) <= MAX_DEPTH
            && Heads(forest) == Roots(f.order, f.parents) && Faithful(f, forest)
  {
    var roots := Roots(f.order, f.parents);
    KinIsSound(calls, f, linked);
    ForestIsLow(f, roots, MAX_DEPTH - 1);
    RootsFit(f);
    ForestHeads(f, roots, MAX_DEPTH - 1, {});
    ForestIsFaithful(f, roots, MAX_DEPTH - 1, {});
    var forest := Forest(f, roots, MAX_DEPTH - 1);
    forall x ensures Shown(forest, x) == if (exists i :: 0 <= i < |calls| && calls[i].id == x) then 1 else 0 {
      ShownOnce(calls, f, linked, x);
    }
  }
}
