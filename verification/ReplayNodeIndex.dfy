/**
 The replay index: positions of the rows by id, and of the previews of user messages, kept beside
 the working rows of a batch.
 */
module ReplayNodeIndex {
  import opened NodeLookup
  import opened Options
  import opened TimelineNodes

  // The rows a replay edits in place.
  class WorkingNodes {
    var items: seq<Node>

    constructor (nodes: seq<Node>)
      ensures items == nodes
    {
      items := nodes;
    }
  }

  // ---- what the index holds ----

  function Positions(rows: seq<Node>, id: string): seq<nat> {
    if rows == [] then []
    else
      Positions(rows[..|rows| - 1], id) + if rows[|rows| - 1].id == id then [|rows| - 1] else []
  }

  function Previews(rows: seq<Node>): seq<nat> {
    if rows == [] then []
    else Previews(rows[..|rows| - 1]) + if IsOptimistic(rows[|rows| - 1]) then [|rows| - 1] else []
  }

  lemma {:induction false} PositionsExact(rows: seq<Node>, id: string)
    ensures var p := Positions(rows, id);
            && (forall k :: 0 <= k < |p| ==> p[k] < |rows| && rows[p[k]].id == id)
            && (forall k, l :: 0 <= k < l < |p| ==> p[k] < p[l])
            && (forall i: nat :: i < |rows| && rows[i].id == id ==> i in p)
    decreases |rows|
  {
    if rows != [] {
      PositionsExact(rows[..|rows| - 1], id);
    }
  }

  lemma {:induction false} PreviewsExact(rows: seq<Node>)
    ensures var p := Previews(rows);
            && (forall k :: 0 <= k < |p| ==> p[k] < |rows| && IsOptimistic(rows[p[k]]))
            && (forall k, l :: 0 <= k < l < |p| ==> p[k] < p[l])
            && (forall i: nat :: i < |rows| && IsOptimistic(rows[i]) ==> i in p)
    decreases |rows|
  {
    if rows != [] {
      PreviewsExact(rows[..|rows| - 1]);
    }
  }

  // The rows may have changed since, but keep their ids, and none became a user message.
  predicate KeysAgree(was: seq<Node>, now: seq<Node>, count: nat) {
    && count <= |was| && count <= |now|
    && forall i :: 0 <= i < count ==> was[i].id == now[i].id && (now[i].body.User? ==> was[i].body.User?)
  }

  function Ids(rows: seq<Node>): seq<string> {
    seq(|rows|, i requires 0 <= i < |rows| => rows[i].id)
  }

  function Lookup(positionsById: map<string, seq<nat>>, id: string): seq<nat> {
    if id in positionsById then positionsById[id] else []
  }

  function Pushed(positionsById: map<string, seq<nat>>, id: string, index: nat): map<string, seq<nat>> {
    positionsById[id := Lookup(positionsById, id) + [index]]
  }

  function Popped(positionsById: map<string, seq<nat>>, id: string): map<string, seq<nat>> {
    var positions := Lookup(positionsById, id);
    if |positions| <= 1 then positionsById - {id} else positionsById[id := positions[..|positions| - 1]]
  }

  // The map of the rows, learnt one row at a time.
  function Located(rows: seq<Node>): map<string, seq<nat>> {
    if rows == [] then map[] else Pushed(Located(rows[..|rows| - 1]), rows[|rows| - 1].id, |rows| - 1)
  }

  lemma {:induction false} LocatedPositions(rows: seq<Node>, id: string)
    ensures Lookup(Located(rows), id) == Positions(rows, id)
    ensures id in Located(rows) ==> Positions(rows, id) != []
    decreases |rows|
  {
    if rows != [] {
      LocatedPositions(rows[..|rows| - 1], id);
    }
  }

  lemma PoppedPushed(m: map<string, seq<nat>>, id: string, index: nat)
    requires id in m ==> m[id] != []
    ensures Popped(Pushed(m, id, index), id) == m
  {
    var pushed := Pushed(m, id, index);
    var positions := Lookup(m, id);
    assert pushed[id] == positions + [index];
    assert (positions + [index])[..|positions + [index]| - 1] == positions;
    if id !in m {
      assert pushed - {id} == m;
    } else {
      assert |positions| >= 1;
      assert pushed[id := positions] == m;
    }
  }

  lemma PushLocated(rows: seq<Node>, node: Node)
    ensures Located(rows + [node]) == Pushed(Located(rows), node.id, |rows|)
  {
    assert (rows + [node])[..|rows|] == rows;
  }

  lemma PopLocated(rows: seq<Node>, node: Node)
    ensures Popped(Located(rows + [node]), node.id) == Located(rows)
  {
    PushLocated(rows, node);
    LocatedPositions(rows, node.id);
    PoppedPushed(Located(rows), node.id, |rows|);
  }

  lemma PushPreviews(rows: seq<Node>, node: Node)
    ensures Previews(rows + [node]) == if IsOptimistic(node) then Previews(rows) + [|rows|] else Previews(rows)
  {
    var all := rows + [node];
    assert all[..|rows|] == rows && all[|all| - 1] == node;
  }

  lemma PushIds(rows: seq<Node>, node: Node)
    ensures Ids(rows + [node]) == Ids(rows) + [node.id]
  {
  }

  class Index {
    const nodes: WorkingNodes
    var ids: seq<string>
    var positionsById: map<string, seq<nat>>
    var optimistic: seq<nat>
    // The rows the index was last brought up to.
    ghost var rows: seq<Node>

    ghost predicate Describes(known: seq<Node>)
      reads this
    {
      ids == Ids(known) && positionsById == Located(known) && optimistic == Previews(known)
    }

    ghost predicate Valid()
      reads this
    {
      Describes(rows)
    }

    // Lookups are right as long as no row changed its id or became a user message.
    ghost predicate Covers()
      reads this, nodes
    {
      |rows| == |nodes.items| && KeysAgree(rows, nodes.items, |rows|)
    }

    constructor (working: WorkingNodes)
      ensures nodes == working && Valid() && rows == working.items && Covers()
    {
      nodes := working;
      ids, positionsById, optimistic, rows := [], map[], [], [];
      new;
      Synchronize(0);
    }

    method Forget(ghost known: seq<Node>, ghost last: Node)
      requires Describes(known + [last])
      modifies this`ids, this`positionsById, this`optimistic
      ensures Describes(known)
    {
      var index := |ids| - 1;
      PopLocated(known, last);
      PushPreviews(known, last);
      PushIds(known, last);
      PreviewsExact(known);
      positionsById := Popped(positionsById, ids[index]);
      if |optimistic| > 0 && optimistic[|optimistic| - 1] == index {
        optimistic := optimistic[..|optimistic| - 1];
      }
      ids := ids[..index];
    }

    method Learn(ghost known: seq<Node>, node: Node)
      requires Describes(known)
      modifies this`ids, this`positionsById, this`optimistic
      ensures Describes(known + [node])
    {
      PushLocated(known, node);
      PushPreviews(known, node);
      PushIds(known, node);
      positionsById := Pushed(positionsById, node.id, |ids|);
      if IsOptimistic(node) {
        optimistic := optimistic + [|ids|];
      }
      ids := ids + [node.id];
    }

    method ForgetFrom(start: nat)
      requires Valid() && start <= |ids|
      modifies this`ids, this`positionsById, this`optimistic
      ensures Describes(rows[..start])
    {
      var index := |ids|;
      assert rows[..|rows|] == rows;
      while index > start
        invariant start <= index <= |rows| && Describes(rows[..index])
      {
        assert rows[..index] == rows[..index - 1] + [rows[index - 1]];
        Forget(rows[..index - 1], rows[index - 1]);
        index := index - 1;
      }
    }

    method LearnFrom(start: nat, ghost known: seq<Node>)
      requires start == |known| <= |nodes.items| && Describes(known)
      modifies this`ids, this`positionsById, this`optimistic
      ensures Describes(known + nodes.items[start..])
    {
      var index := start;
      ghost var learnt := known;
      while index < |nodes.items|
        invariant start <= index <= |nodes.items|
        invariant learnt == known + nodes.items[start..index] && Describes(learnt)
      {
        Learn(learnt, nodes.items[index]);
        learnt := learnt + [nodes.items[index]];
        assert nodes.items[start..index + 1] == nodes.items[start..index] + [nodes.items[index]];
        index := index + 1;
      }
      assert nodes.items[start..|nodes.items|] == nodes.items[start..];
    }

    // Everything from `from` on is forgotten and learnt again.
    method Synchronize(from: nat)
      requires Valid()
      modifies this
      ensures Valid() && |rows| == |nodes.items|
      ensures var start := Least(from, old(|rows|), |nodes.items|);
              rows == old(rows)[..start] + nodes.items[start..]
              && (KeysAgree(old(rows), nodes.items, start) ==> Covers())
    {
      var start := Least(from, |ids|, |nodes.items|);
      ForgetFrom(start);
      LearnFrom(start, rows[..start]);
      rows := rows[..start] + nodes.items[start..];
    }

    // The newest row of that id the query takes, as a scan from the end would find it.
    method ById(id: string, query: Query) returns (index: int)
      requires Valid()
      requires query == AnyWithId(id) || query == Conversation(id, false) || query == Conversation(id, true)
      ensures -1 <= index < |nodes.items|
      ensures index >= 0 ==> Matches(query, nodes.items[index])
      ensures Covers() ==> index == LastIndex(nodes.items, query)
    {
      var positions := Lookup(positionsById, id);
      PositionsExact(rows, id);
      LocatedPositions(rows, id);
      var cursor := |positions| - 1;
      while cursor >= 0
        invariant -1 <= cursor < |positions|
        invariant forall k :: cursor < k < |positions| && positions[k] < |nodes.items| ==>
                    !Matches(query, nodes.items[positions[k]])
      {
        index := positions[cursor];
        if index < |nodes.items| && Matches(query, nodes.items[index]) {
          if Covers() {
            FoundById(rows, nodes.items, id, query, cursor);
          }
          return;
        }
        cursor := cursor - 1;
      }
      index := -1;
      if Covers() {
        FoundById(rows, nodes.items, id, query, -1);
      }
    }

    // The first preview the message stands for, as a scan from the front would find it.
    method OptimisticUserOf(event: UserBody) returns (index: int)
      requires Valid()
      ensures -1 <= index < |nodes.items|
      ensures index >= 0 ==> nodes.items[index].body.User?
      ensures Covers() ==> index == OptimisticUser(nodes.items, event)
    {
      PreviewsExact(rows);
      var cursor := 0;
      while cursor < |optimistic|
        invariant 0 <= cursor <= |optimistic|
        invariant forall k :: 0 <= k < cursor && optimistic[k] < |nodes.items| ==>
                    !StandsIn(nodes.items[optimistic[k]], event)
      {
        index := optimistic[cursor];
        if index < |nodes.items| && StandsIn(nodes.items[index], event) {
          if Covers() {
            FoundPreview(rows, nodes.items, event, cursor);
          }
          return;
        }
        cursor := cursor + 1;
      }
      index := -1;
      if Covers() {
        FoundPreview(rows, nodes.items, event, |optimistic|);
      }
    }
  }

  function Least(a: nat, b: nat, c: nat): nat {
    var ab := if a < b then a else b;
    if ab < c then ab else c
  }

  // A user row of an indexed preview; its id is not looked at again.
  predicate StandsIn(node: Node, event: UserBody) {
    && node.body.User?
    && ((event.rpcId.Some? && node.body.user.rpcId == event.rpcId) || SameUserMessagePreview(node.body.user, event))
  }

  lemma FoundById(rows: seq<Node>, items: seq<Node>, id: string, query: Query, cursor: int)
    requires |rows| == |items| && KeysAgree(rows, items, |rows|)
    requires query == AnyWithId(id) || query == Conversation(id, false) || query == Conversation(id, true)
    requires -1 <= cursor < |Positions(rows, id)|
    requires cursor >= 0 ==> Positions(rows, id)[cursor] < |items| && Matches(query, items[Positions(rows, id)[cursor]])
    requires forall k :: cursor < k < |Positions(rows, id)| && Positions(rows, id)[k] < |items| ==>
               !Matches(query, items[Positions(rows, id)[k]])
    ensures LastIndex(items, query) == if cursor < 0 then -1 else Positions(rows, id)[cursor]
  {
    PositionsExact(rows, id);
    var p := Positions(rows, id);
    var index: int := if cursor < 0 then -1 else p[cursor];
    forall i | index < i < |items| ensures !Matches(query, items[i]) {
      if items[i].id == id {
        assert rows[i].id == id && i in p;
        var k :| 0 <= k < |p| && p[k] == i;
        assert cursor < k;
      }
    }
    LastIndexIs(items, query, index);
  }

  lemma FoundPreview(rows: seq<Node>, items: seq<Node>, event: UserBody, cursor: nat)
    requires |rows| == |items| && KeysAgree(rows, items, |rows|)
    requires cursor <= |Previews(rows)|
    requires cursor < |Previews(rows)| ==>
               Previews(rows)[cursor] < |items| && StandsIn(items[Previews(rows)[cursor]], event)
    requires forall k :: 0 <= k < cursor && Previews(rows)[k] < |items| ==> !StandsIn(items[Previews(rows)[k]], event)
    ensures OptimisticUser(items, event) == if cursor < |Previews(rows)| then Previews(rows)[cursor] else -1
  {
    PreviewsExact(rows);
    var p := Previews(rows);
    var index: int := if cursor < |p| then p[cursor] else -1;
    forall i | 0 <= i < (if index < 0 then |items| else index) ensures !StandsFor(items[i], event) {
      if IsOptimistic(items[i]) {
        assert IsOptimistic(rows[i]) && i in p;
        var k :| 0 <= k < |p| && p[k] == i;
        assert k < cursor;
      }
    }
    OptimisticUserIs(items, event, index);
  }
}
