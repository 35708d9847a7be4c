/**
 The broker's invariant over every step, and what it means over whole runs.
 */
module BrokerRuns {
  import opened BrokerInvariant
  import opened CompanionBroker
  import opened Options
  import opened Runs

  // ---- a read leaves its grant ----

  lemma {:induction false} NotQueued(queue: seq<PollEvent>, r: nat)
    requires r !in Asks(queue)
    ensures QueuedAt(queue, r) == |queue|
  {
    var i := QueuedAt(queue, r);
    if i < |queue| {
      AskIsQueued(queue, i);
    }
  }

  lemma {:induction false} QueuedSomewhere(queue: seq<PollEvent>, r: nat)
    requires r in Asks(queue)
    ensures QueuedAt(queue, r) < |queue|
    decreases |queue|
  {
    AsksOfRest(queue);
    if !(queue[0].Ask? && queue[0].id == r) {
      QueuedSomewhere(queue[1..], r);
    }
  }

  lemma AscendingWithout(a: seq<nat>, r: nat, b: seq<nat>)
    requires Ascending(a + [r] + b)
    ensures Ascending(a + b) && r !in a + b
  {
    var all := a + [r] + b;
    assert all[|a|] == r;
    forall i | 0 <= i < |a + b| ensures (a + b)[i] != r {
      assert (a + b)[i] == all[if i < |a| then i else i + 1];
    }
    forall i, j | 0 <= i < j < |a + b| ensures (a + b)[i] < (a + b)[j] {
      assert (a + b)[i] == all[if i < |a| then i else i + 1];
      assert (a + b)[j] == all[if j < |a| then j else j + 1];
    }
  }

  lemma UnqueuedAsks(queue: seq<PollEvent>, r: nat)
    requires Ascending(Asks(queue))
    ensures Ascending(Asks(Unqueued(queue, r)))
    ensures forall x :: x in Asks(Unqueued(queue, r)) <==> x in Asks(queue) && x != r
  {
    if r !in Asks(queue) {
      NotQueued(queue, r);
    } else {
      QueuedSomewhere(queue, r);
      var i := QueuedAt(queue, r);
      var a, b := queue[..i], queue[i + 1..];
      assert queue == a + [queue[i]] + b;
      AsksAppend(a + [queue[i]], b);
      AsksAppend(a, [queue[i]]);
      AsksOne(queue[i]);
      AsksAppend(a, b);
      AscendingWithout(Asks(a), r, Asks(b));
      forall x ensures x in Asks(a + b) <==> x in Asks(queue) && x != r {
        assert x in Asks(queue) <==> x in Asks(a) || x == r || x in Asks(b);
      }
    }
  }

  function Without(g: Grant, r: nat): Grant {
    g.(pending := g.pending - {r}, queue := Unqueued(g.queue, r))
  }

  lemma PendingShrinks(pending: map<nat, Pending>, r: nat)
    ensures |pending - {r}| <= |pending|
  {
    assert (pending - {r}).Keys == pending.Keys - {r};
    assert |pending - {r}| == |(pending - {r}).Keys| && |pending| == |pending.Keys|;
    if r in pending {
      assert pending.Keys == (pending.Keys - {r}) + {r};
    } else {
      assert pending.Keys - {r} == pending.Keys;
    }
  }

  lemma UnqueuedSubset(queue: seq<PollEvent>, r: nat, j: nat)
    requires j < |Unqueued(queue, r)|
    ensures exists i :: 0 <= i < |queue| && queue[i] == Unqueued(queue, r)[j]
  {
    var i := QueuedAt(queue, r);
    if i < |queue| && j >= i {
      assert queue[j + 1] == Unqueued(queue, r)[j];
    } else {
      assert queue[j] == Unqueued(queue, r)[j];
    }
  }

  lemma WithoutQueue(g: Grant, r: nat)
    requires QueueIsUndelivered(g.queue, g.pending)
    ensures QueueIsUndelivered(Without(g, r).queue, Without(g, r).pending)
  {
    UnqueuedAsks(g.queue, r);
  }

  lemma WithoutOk(g: Grant, handed: seq<nat>, r: nat)
    requires GrantOk(g, handed)
    ensures GrantOk(Without(g, r), handed)
  {
    WithoutQueue(g, r);
    PendingShrinks(g.pending, r);
    var after := Without(g, r);
    forall j | 0 <= j < |after.queue|
      ensures after.queue[j].Ask? && after.queue[j].id in after.pending ==>
                after.queue[j].request == after.pending[after.queue[j].id].request
      ensures after.queue[j].Withdraw? ==> after.queue[j].id in handed && after.queue[j].id !in after.pending
    {
      UnqueuedSubset(g.queue, r, j);
    }
  }

  lemma DeliveredIsNotQueued(g: Grant, r: nat)
    requires QueueIsUndelivered(g.queue, g.pending) && r in g.pending && g.pending[r].delivered
    ensures Unqueued(g.queue, r) == g.queue
  {
    NotQueued(g.queue, r);
  }

  lemma LeftOwners(grants: map<nat, Grant>, owner: map<nat, nat>, id: nat, g: Grant, r: nat)
    requires OwnersOk(grants, owner) && id in grants && r in grants[id].pending && g.pending == grants[id].pending - {r}
    ensures OwnersOk(grants[id := g], owner - {r})
  {
    var after, left := grants[id := g], owner - {r};
    assert owner[r] == id;
    forall x | x in left ensures x in after[left[x]].pending {
      assert x in grants[owner[x]].pending;
    }
    forall other, x | other in after && x in after[other].pending ensures x in left && left[x] == other {
      assert x in grants[other].pending && owner[x] == other;
      if other == id {
        assert x in g.pending;
      }
      assert x != r;
    }
  }

  lemma LeftBooks(owner: map<nat, nat>, settled: map<nat, Reply>, asked: set<nat>, r: nat, reply: Reply)
    requires BooksOk(owner.Keys, settled.Keys, asked) && r in owner
    ensures BooksOk((owner - {r}).Keys, settled[r := reply].Keys, asked) && r !in settled
  {
    assert (owner - {r}).Keys == owner.Keys - {r};
    assert settled[r := reply].Keys == settled.Keys + {r};
  }

  // The state once the read has settled and left queue and pending.
  function Left(s: State, id: nat, r: nat, reply: Reply): State
    requires id in s.grants
  {
    s.(grants := s.grants[id := Without(s.grants[id], r)], owner := s.owner - {r}, settled := s.settled[r := reply])
  }

  lemma LeftWards(s: State, id: nat, r: nat, reply: Reply)
    requires Wards(s.grants, s.owner, s.handed) && id in s.grants && r in s.grants[id].pending
    ensures var t := Left(s, id, r, reply);
            Wards(t.grants, t.owner, t.handed)
  {
    WithoutOk(s.grants[id], s.handed, r);
    PutEach(s.grants, s.handed, id, Without(s.grants[id], r));
    LeftOwners(s.grants, s.owner, id, Without(s.grants[id], r), r);
  }

  lemma LeftLines(s: State, id: nat, r: nat, reply: Reply)
    requires Lines(s.grants, s.polls, s.waiting) && id in s.grants
    ensures var t := Left(s, id, r, reply);
            Lines(t.grants, t.polls, t.waiting)
  {
    PutOnePerSession(s.grants, id, Without(s.grants[id], r));
    PutWaiting(s.grants, s.waiting, id, Without(s.grants[id], r));
    PutPolls(s.grants, s.polls, id, Without(s.grants[id], r));
  }

  lemma LeftLedger(s: State, id: nat, r: nat, reply: Reply)
    requires Ledger(s) && id in s.grants && r in s.owner
    ensures Ledger(Left(s, id, r, reply))
  {
    LeftBooks(s.owner, s.settled, s.asked, r, reply);
    assert Left(s, id, r, reply).grants.Keys == s.grants.Keys;
  }

  lemma PendingIsOwned(s: State, id: nat, r: nat)
    requires OwnersOk(s.grants, s.owner) && id in s.grants && r in s.grants[id].pending
    ensures r in s.owner && s.owner[r] == id
  {
  }

  lemma LeftKeeps(s: State, id: nat, r: nat, reply: Reply)
    requires Inv(s) && id in s.grants && r in s.grants[id].pending
    ensures Inv(Left(s, id, r, reply))
  {
    PendingIsOwned(s, id, r);
    LeftWards(s, id, r, reply);
    LeftLines(s, id, r, reply);
    LeftLedger(s, id, r, reply);
  }

  lemma GrantQueue(grants: map<nat, Grant>, handed: seq<nat>, id: nat)
    requires EachOk(grants, handed) && id in grants
    ensures QueueIsUndelivered(grants[id].queue, grants[id].pending) && Bounded(grants[id])
  {
  }

  lemma RespondedKeeps(s: State, id: nat, peerId: string, request: nat, reply: Reply)
    requires Inv(s)
    ensures Inv(Responded(s, id, peerId, request, reply))
  {
    if MayAnswer(s, id, peerId, request) {
      var settlement := if reply.Answer? && !reply.matches then Failure(InvalidResponse) else reply;
      GrantQueue(s.grants, s.handed, id);
      DeliveredIsNotQueued(s.grants[id], request);
      LeftKeeps(s, id, request, settlement);
      assert Without(s.grants[id], request) == s.grants[id].(pending := s.grants[id].pending - {request});
    }
  }

  // ---- a withdrawal is queued ----

  lemma WithdrawalQueued(g: Grant, handed: seq<nat>, r: nat)
    requires GrantOk(g, handed) && r in handed && r !in g.pending && g.polling.None? && |g.queue| < QUEUE_LIMIT
    ensures GrantOk(g.(queue := g.queue + [Withdraw(r)]), handed)
  {
    AsksAppend(g.queue, [Withdraw(r)]);
    AsksOne(Withdraw(r));
    assert Asks(g.queue) + [] == Asks(g.queue);
  }

  function Withdrawing(s: State, id: nat, r: nat): State
    requires id in s.grants
  {
    s.(grants := s.grants[id := s.grants[id].(queue := s.grants[id].queue + [Withdraw(r)])])
  }

  lemma WithdrawQueuedWards(s: State, id: nat, r: nat)
    requires Wards(s.grants, s.owner, s.handed)
    requires id in s.grants && s.grants[id].polling.None? && |s.grants[id].queue| < QUEUE_LIMIT
    requires r in s.handed && r !in s.grants[id].pending
    ensures Wards(Withdrawing(s, id, r).grants, s.owner, s.handed)
  {
    var g := s.grants[id].(queue := s.grants[id].queue + [Withdraw(r)]);
    WithdrawalOk(s.grants, s.handed, id, r);
    PutEach(s.grants, s.handed, id, g);
    PutOwners(s.grants, s.owner, id, g);
  }

  lemma WithdrawQueuedLines(s: State, id: nat, r: nat)
    requires Lines(s.grants, s.polls, s.waiting) && id in s.grants
    ensures Lines(Withdrawing(s, id, r).grants, s.polls, s.waiting)
  {
    var g := s.grants[id].(queue := s.grants[id].queue + [Withdraw(r)]);
    PutOnePerSession(s.grants, id, g);
    PutWaiting(s.grants, s.waiting, id, g);
    PutPolls(s.grants, s.polls, id, g);
  }

  lemma WithdrawQueuedLedger(s: State, id: nat, r: nat)
    requires Ledger(s) && id in s.grants
    ensures Ledger(Withdrawing(s, id, r))
  {
    assert Withdrawing(s, id, r).grants.Keys == s.grants.Keys;
  }

  lemma WithdrawQueued(s: State, id: nat, r: nat)
    requires Inv(s) && id in s.grants && s.grants[id].polling.None? && |s.grants[id].queue| < QUEUE_LIMIT
    requires r in s.handed && r !in s.grants[id].pending
    ensures Inv(Withdrawing(s, id, r))
  {
    WithdrawQueuedWards(s, id, r);
    WithdrawQueuedLines(s, id, r);
    WithdrawQueuedLedger(s, id, r);
  }

  lemma WithdrawalOk(grants: map<nat, Grant>, handed: seq<nat>, id: nat, r: nat)
    requires EachOk(grants, handed) && id in grants && grants[id].polling.None? && |grants[id].queue| < QUEUE_LIMIT
    requires r in handed && r !in grants[id].pending
    ensures GrantOk(grants[id].(queue := grants[id].queue + [Withdraw(r)]), handed)
  {
    WithdrawalQueued(grants[id], handed, r);
  }

  lemma StillOk(grants: map<nat, Grant>, handed: seq<nat>, id: nat)
    requires EachOk(grants, handed) && id in grants
    ensures GrantOk(grants[id].(polling := None), handed)
  {
  }

  lemma WithdrawResolvesKeeps(s: State, id: nat, r: nat)
    requires Inv(s) && id in s.grants && s.grants[id].polling.Some?
    ensures Inv(Enqueue(s, id, Withdraw(r)))
  {
    StillOk(s.grants, s.handed, id);
    ResolveWith(s, id, s.grants[id].(polling := None), Withdraw(r));
    WithdrawResolves(s, id, r);
  }

  lemma WithdrawOtherwise(s: State, id: nat, r: nat)
    requires id in s.grants && s.grants[id].polling.None?
    ensures Enqueue(s, id, Withdraw(r)) == if |s.grants[id].queue| < QUEUE_LIMIT then Withdrawing(s, id, r) else s
  {
  }

  lemma WithdrawKeeps(s: State, id: nat, r: nat)
    requires Inv(s) && id in s.grants && r in s.handed && r !in s.grants[id].pending
    ensures Inv(Enqueue(s, id, Withdraw(r)))
  {
    if s.grants[id].polling.Some? {
      WithdrawResolvesKeeps(s, id, r);
    } else {
      WithdrawOtherwise(s, id, r);
      WithdrawWaitsKeeps(s, id, r);
    }
  }

  lemma WithdrawWaitsKeeps(s: State, id: nat, r: nat)
    requires Inv(s) && id in s.grants && r in s.handed && r !in s.grants[id].pending && s.grants[id].polling.None?
    ensures Inv(if |s.grants[id].queue| < QUEUE_LIMIT then Withdrawing(s, id, r) else s)
  {
    if |s.grants[id].queue| < QUEUE_LIMIT {
      WithdrawQueued(s, id, r);
    }
  }

  lemma WithdrawResolves(s: State, id: nat, r: nat)
    requires id in s.grants && s.grants[id].polling.Some?
    ensures Enqueue(s, id, Withdraw(r))
            == s.(grants := s.grants[id := s.grants[id].(polling := None)],
                  polls := s.polls[s.grants[id].polling.value := Poll(id, Some(Withdraw(r)))])
  {
    assert s.handed + [] == s.handed;
    assert s.grants[id := s.grants[id]][id := s.grants[id].(polling := None)]
      == s.grants[id := s.grants[id].(polling := None)];
  }

  lemma HandedIfDelivered(grants: map<nat, Grant>, handed: seq<nat>, id: nat, r: nat)
    requires EachOk(grants, handed) && id in grants && r in grants[id].pending && grants[id].pending[r].delivered
    ensures r in handed
  {
  }

  // Cancelling a read: it leaves, and if it was handed out its withdrawal follows.
  lemma CancelIs(s: State, request: nat, reason: Reason)
    requires request in s.owner && s.owner[request] in s.grants && request in s.grants[s.owner[request]].pending
    ensures var id := s.owner[request];
            var left := Left(s, id, request, Failure(reason));
            ReadCancelled(s, request, reason)
            == if s.grants[id].pending[request].delivered then Enqueue(left, id, Withdraw(request)) else left
  {
    var id := s.owner[request];
    var g := s.grants[id].(pending := s.grants[id].pending - {request});
    assert s.grants[id := g][id := Without(s.grants[id], request)] == s.grants[id := Without(s.grants[id], request)];
  }

  lemma CancelledKeeps(s: State, request: nat, reason: Reason)
    requires Inv(s)
    ensures Inv(ReadCancelled(s, request, reason))
  {
    if request in s.owner && s.owner[request] in s.grants && request in s.grants[s.owner[request]].pending {
      var id := s.owner[request];
      CancelIs(s, request, reason);
      LeftKeeps(s, id, request, Failure(reason));
      if s.grants[id].pending[request].delivered {
        HandedIfDelivered(s.grants, s.handed, id, request);
        WithdrawKeeps(Left(s, id, request, Failure(reason)), id, request);
      }
    }
  }

  // ---- a grant goes ----

  lemma ReleasedEach(grants: map<nat, Grant>, handed: seq<nat>, id: nat)
    requires EachOk(grants, handed)
    ensures EachOk(grants - {id}, handed)
  {
  }

  lemma ReleasedOwners(grants: map<nat, Grant>, owner: map<nat, nat>, id: nat)
    requires OwnersOk(grants, owner) && id in grants
    ensures OwnersOk(grants - {id}, owner - grants[id].pending.Keys)
  {
    var left := owner - grants[id].pending.Keys;
    forall r | r in left ensures left[r] in grants - {id} {
      assert r in grants[id].pending.Keys <==> r in grants[id].pending;
    }
    var after := grants - {id};
    forall other, r | other in after && r in after[other].pending ensures r in left && left[r] == other {
      assert r in grants[other].pending && owner[r] == other;
      assert r !in grants[id].pending;
    }
  }

  lemma ReleasedWards(s: State, id: nat)
    requires Wards(s.grants, s.owner, s.handed) && id in s.grants
    ensures Wards(s.grants - {id}, s.owner - s.grants[id].pending.Keys, s.handed)
  {
    ReleasedEach(s.grants, s.handed, id);
    ReleasedOwners(s.grants, s.owner, id);
  }

  lemma FewerPerSession(grants: map<nat, Grant>, id: nat)
    requires OnePerSession(grants) && id in grants
    ensures OnePerSession(grants - {id})
  {
    assert (grants - {id}).Keys == grants.Keys - {id};
    assert |grants - {id}| == |(grants - {id}).Keys|;
  }

  lemma ReleasedPolls(grants: map<nat, Grant>, polls: map<nat, Poll>, id: nat)
    requires PollsOk(grants, polls) && id in grants
    ensures PollsOk(grants - {id},
                    if grants[id].polling.Some? then polls[grants[id].polling.value := Poll(id, Some(Idle))] else polls)
  {
  }

  lemma ReleasedLines(s: State, id: nat)
    requires Lines(s.grants, s.polls, s.waiting) && id in s.grants
    ensures var t := Released(s, id);
            Lines(t.grants, t.polls, t.waiting) && t.polls.Keys == s.polls.Keys
  {
    FewerPerSession(s.grants, id);
    ReleasedPolls(s.grants, s.polls, id);
    if s.grants[id].polling.Some? {
      ResolvedKeys(s.grants, s.polls, id, Idle);
    }
  }

  lemma ReleasedBooks(owner: map<nat, nat>, settled: map<nat, Reply>, asked: set<nat>, pending: set<nat>, reply: Reply)
    requires BooksOk(owner.Keys, settled.Keys, asked) && pending <= owner.Keys
    ensures BooksOk((owner - pending).Keys, (settled + map r | r in pending :: reply).Keys, asked)
    ensures pending !! settled.Keys
  {
    assert (owner - pending).Keys == owner.Keys - pending;
    assert (settled + map r | r in pending :: reply).Keys == settled.Keys + pending;
  }

  lemma PendingOwned(grants: map<nat, Grant>, owner: map<nat, nat>, id: nat)
    requires OwnersOk(grants, owner) && id in grants
    ensures grants[id].pending.Keys <= owner.Keys
  {
    forall r | r in grants[id].pending.Keys ensures r in owner {
      assert r in grants[id].pending;
    }
  }

  lemma ReleasedLedger(s: State, id: nat)
    requires Ledger(s) && id in s.grants && s.grants[id].pending.Keys <= s.owner.Keys
    requires Released(s, id).polls.Keys == s.polls.Keys
    ensures Ledger(Released(s, id))
  {
    ReleasedBooks(s.owner, s.settled, s.asked, s.grants[id].pending.Keys, Failure(NotBound));
    assert (map r | r in s.grants[id].pending :: Failure(NotBound))
      == (map r | r in s.grants[id].pending.Keys :: Failure(NotBound));
  }

  lemma ReleasedKeeps(s: State, id: nat)
    requires Inv(s)
    ensures Inv(Released(s, id))
  {
    if id in s.grants {
      PendingOwned(s.grants, s.owner, id);
      ReleasedWards(s, id);
      ReleasedLines(s, id);
      ReleasedLedger(s, id);
    }
  }

  // ---- a grant comes ----

  lemma NewOwners(grants: map<nat, Grant>, owner: map<nat, nat>, id: nat, g: Grant)
    requires OwnersOk(grants, owner) && id !in grants && g.pending == map[]
    ensures OwnersOk(grants[id := g], owner)
  {
  }

  lemma FreshOk(g: Grant, handed: seq<nat>)
    requires g.pending == map[] && g.queue == []
    ensures GrantOk(g, handed)
  {
  }

  lemma NewWards(grants: map<nat, Grant>, owner: map<nat, nat>, handed: seq<nat>, id: nat, g: Grant)
    requires Wards(grants, owner, handed) && id !in grants && g.pending == map[] && g.queue == []
    ensures Wards(grants[id := g], owner, handed)
  {
    FreshOk(g, handed);
    PutEach(grants, handed, id, g);
    NewOwners(grants, owner, id, g);
  }

  lemma NewPerSession(grants: map<nat, Grant>, id: nat, g: Grant)
    requires OnePerSession(grants) && id !in grants && |grants| < GRANT_LIMIT && !HasSession(grants, g.sessionId)
    ensures OnePerSession(grants[id := g])
  {
    assert grants[id := g].Keys == grants.Keys + {id};
    assert |grants[id := g]| == |grants[id := g].Keys|;
  }

  lemma NewGrantPolls(grants: map<nat, Grant>, polls: map<nat, Poll>, id: nat, g: Grant)
    requires PollsOk(grants, polls) && id !in grants && g.polling.None?
    ensures PollsOk(grants[id := g], polls)
  {
  }

  lemma FewerWaitingOk(grants: map<nat, Grant>, waiting: map<string, set<nat>>, sessionId: string)
    requires WaitingOk(grants, waiting)
    ensures WaitingOk(grants, waiting - {sessionId})
  {
    FewerWaiting(waiting, sessionId);
  }

  lemma PutNewWaiting(grants: map<nat, Grant>, waiting: map<string, set<nat>>, id: nat, g: Grant)
    requires WaitingOk(grants, waiting) && g.sessionId !in waiting
    ensures WaitingOk(grants[id := g], waiting)
  {
  }

  lemma NewGrantWaiting(grants: map<nat, Grant>, waiting: map<string, set<nat>>, id: nat, g: Grant)
    requires WaitingOk(grants, waiting)
    ensures WaitingOk(grants[id := g], waiting - {g.sessionId})
  {
    FewerWaitingOk(grants, waiting, g.sessionId);
    PutNewWaiting(grants, waiting - {g.sessionId}, id, g);
  }

  lemma FewerWaiting(waiting: map<string, set<nat>>, sessionId: string)
    ensures |waiting - {sessionId}| <= |waiting|
  {
    assert (waiting - {sessionId}).Keys == waiting.Keys - {sessionId};
    assert |waiting - {sessionId}| == |(waiting - {sessionId}).Keys| && |waiting| == |waiting.Keys|;
    if sessionId in waiting {
      assert waiting.Keys == (waiting.Keys - {sessionId}) + {sessionId};
    } else {
      assert waiting.Keys - {sessionId} == waiting.Keys;
    }
  }

  function Granted(s: State, g: Grant): State {
    s.(grants := s.grants[s.next := g],
    woken := WakeAll(s.woken, Group(s.waiting, g.sessionId), true),
    waiting := s.waiting - {g.sessionId},
    next := s.next + 1)
  }

  lemma GrantedLines(s: State, g: Grant)
    requires Lines(s.grants, s.polls, s.waiting) && s.next !in s.grants && |s.grants| < GRANT_LIMIT
    requires !HasSession(s.grants, g.sessionId) && g.polling.None?
    ensures Lines(Granted(s, g).grants, s.polls, Granted(s, g).waiting)
  {
    NewPerSession(s.grants, s.next, g);
    NewGrantPolls(s.grants, s.polls, s.next, g);
    NewGrantWaiting(s.grants, s.waiting, s.next, g);
  }

  lemma GrantedWards(s: State, g: Grant)
    requires Wards(s.grants, s.owner, s.handed) && s.next !in s.grants && g.pending == map[] && g.queue == []
    ensures Wards(Granted(s, g).grants, s.owner, s.handed)
  {
    NewWards(s.grants, s.owner, s.handed, s.next, g);
  }

  lemma GrantedLedger(s: State, g: Grant)
    requires Ledger(s)
    ensures Ledger(Granted(s, g)) && s.next !in s.grants
  {
    NextIssued(s.grants.Keys, s.asked, s.polls.Keys, s.next);
    assert Granted(s, g).grants.Keys == s.grants.Keys + {s.next};
  }

  lemma GrantedKeeps(s: State, g: Grant)
    requires Inv(s) && |s.grants| < GRANT_LIMIT && !HasSession(s.grants, g.sessionId)
    requires g.pending == map[] && g.queue == [] && g.polling.None?
    ensures Inv(Granted(s, g))
  {
    GrantedLedger(s, g);
    GrantedWards(s, g);
    GrantedLines(s, g);
  }

  lemma AttachedKeeps(s: State, sessionId: string, ownerId: string, peerId: string, capabilities: seq<string>)
    requires Inv(s)
    ensures Inv(Attached(s, sessionId, ownerId, peerId, capabilities))
  {
    if !HasSession(s.grants, sessionId) && |s.grants| < GRANT_LIMIT {
      GrantedKeeps(s, Grant(sessionId, ownerId, peerId, capabilities, map[], [], None));
    }
  }

  // ---- waiters ----

  lemma WaitedKeeps(s: State, sessionId: string, aborted: bool)
    requires Inv(s)
    ensures Inv(Waited(s, sessionId, aborted))
  {
    if MayWait(s, sessionId, aborted) {
      NextIssued(s.grants.Keys, s.asked, s.polls.Keys, s.next);
      NewWaiter(s.grants, s.waiting, sessionId, s.next);
    }
  }

  lemma NewWaiter(grants: map<nat, Grant>, waiting: map<string, set<nat>>, sessionId: string, waiter: nat)
    requires WaitingOk(grants, waiting) && !HasSession(grants, sessionId)
    requires |Group(waiting, sessionId)| < WAITER_LIMIT && (sessionId in waiting || |waiting| < WAITING_LIMIT)
    ensures WaitingOk(grants, waiting[sessionId := Group(waiting, sessionId) + {waiter}])
  {
    var group := Group(waiting, sessionId) + {waiter};
    var after := waiting[sessionId := group];
    assert after.Keys == waiting.Keys + {sessionId};
    assert |after| == |after.Keys| && |waiting| == |waiting.Keys|;
    assert |group| <= |Group(waiting, sessionId)| + 1;
    if sessionId in waiting {
      assert after.Keys == waiting.Keys;
    }
    assert waiter in group;
  }

  lemma LeavesGroup(grants: map<nat, Grant>, waiting: map<string, set<nat>>, sessionId: string, waiter: nat)
    requires WaitingOk(grants, waiting) && sessionId in waiting && waiter in waiting[sessionId]
    ensures var group := waiting[sessionId] - {waiter};
            WaitingOk(grants, if group == {} then waiting - {sessionId} else waiting[sessionId := group])
  {
    var group := waiting[sessionId] - {waiter};
    FewerWaiting(waiting, sessionId);
    assert waiting[sessionId := group].Keys == waiting.Keys;
    assert |waiting[sessionId := group]| == |waiting.Keys|;
    assert waiting[sessionId] == group + {waiter};
  }

  lemma WaitEndedKeeps(s: State, sessionId: string, waiter: nat)
    requires Inv(s)
    ensures Inv(WaitEnded(s, sessionId, waiter))
  {
    if sessionId in s.waiting && waiter in s.waiting[sessionId] {
      LeavesGroup(s.grants, s.waiting, sessionId, waiter);
    }
  }

  lemma DisposedLedger(s: State)
    requires Ledger(s)
    ensures Ledger(Disposed(s))
  {
    ReleasedBooks(s.owner, s.settled, s.asked, s.owner.Keys, Failure(NotBound));
    assert (s.owner - s.owner.Keys) == map[];
    assert (map r | r in s.owner :: Failure(NotBound)) == (map r | r in s.owner.Keys :: Failure(NotBound));
    assert Disposed(s).polls.Keys == s.polls.Keys;
  }

  lemma DisposedKeeps(s: State)
    requires Inv(s)
    ensures Inv(Disposed(s))
  {
    DisposedLedger(s);
    DisposedPolls(s);
  }

  lemma DisposedPolls(s: State)
    requires PollsOk(s.grants, s.polls)
    ensures PollsOk(map[], Disposed(s).polls) && Disposed(s).polls.Keys == s.polls.Keys
  {
  }

  // ---- every step, every run ----

  // The state an action leads to, action by action.
  lemma StepIs(s: State, action: Action)
    ensures action.Attach? ==>
              Step(s, action) == Attached(s, action.sessionId, action.ownerId, action.peerId, action.capabilities)
    ensures action.LeaseExpires? ==> Step(s, action) == Released(s, action.id)
    ensures action.Detach? ==> Step(s, action) == s || Step(s, action) == Released(s, action.id)
    ensures action.PollCall? ==> Step(s, action) == Polled(s, action.id, action.peerId, action.aborted)
    ensures action.Respond? ==> Step(s, action) == Responded(s, action.id, action.peerId, action.request, action.reply)
    ensures action.ReadCall? ==> Step(s, action) == ReadAdmitted(s, action.session, action.asking, action.aborted)
    ensures action.CancelRead? ==> Step(s, action) == ReadCancelled(s, action.request, action.reason)
  {
  }

  lemma StepKeeps(s: State, action: Action)
    requires Inv(s)
    ensures Inv(Step(s, action))
  {
    if action.PollEnds? || action.PollResumes? || action.WaitCall? || action.WaitEnds? || action.Dispose? {
      QuietKeeps(s, action);
    } else {
      StepIs(s, action);
      match action {
        case Attach(sessionId, ownerId, peerId, capabilities) =>
          AttachedKeeps(s, sessionId, ownerId, peerId, capabilities);
        case LeaseExpires(id) => ReleasedKeeps(s, id);
        case Detach(id, peerId) => ReleasedKeeps(s, id);
        case PollCall(id, peerId, aborted) => PolledKeeps(s, id, peerId, aborted);
        case Respond(id, peerId, request, reply) => RespondedKeeps(s, id, peerId, request, reply);
        case ReadCall(session, asking, aborted) => ReadKeeps(s, session, asking, aborted);
        case CancelRead(request, reason) => CancelledKeeps(s, request, reason);
      }
    }
  }

  lemma PollStepIs(s: State, action: Action)
    ensures action.PollEnds? ==> Step(s, action) == PollEnded(s, action.poll)
    ensures action.PollResumes? ==> Step(s, action) == PollResumed(s, action.poll)
  {
  }

  lemma WaitStepIs(s: State, action: Action)
    ensures action.WaitCall? ==> Step(s, action) == Waited(s, action.sessionId, action.aborted)
    ensures action.WaitEnds? ==> Step(s, action) == WaitEnded(s, action.sessionId, action.waiter)
  {
  }

  lemma QuietKeeps(s: State, action: Action)
    requires Inv(s)
    requires action.PollEnds? || action.PollResumes? || action.WaitCall? || action.WaitEnds? || action.Dispose?
    ensures Inv(Step(s, action))
  {
    PollStepIs(s, action);
    WaitStepIs(s, action);
    match action {
      case PollEnds(poll) => PollEndedKeeps(s, poll);
      case PollResumes(poll) => PollResumedKeeps(s, poll);
      case WaitCall(sessionId, aborted) => WaitedKeeps(s, sessionId, aborted);
      case WaitEnds(sessionId, waiter) => WaitEndedKeeps(s, sessionId, waiter);
      case Dispose => DisposedKeeps(s);
    }
  }

  // Every state a run of calls, timers and aborts leads to satisfies the invariant.
  lemma Reachable(actions: seq<Action>)
    ensures Inv(Run(Step, EMPTY, actions))
  {
    var holds := (s: State, past: seq<Action>) => Inv(s);
    forall s: State, past: seq<Action>, action: Action | holds(s, past)
      ensures holds(Step(s, action), past + [action]) {
      StepKeeps(s, action);
    }
    assert actions[..0] == [];
    RunKeeps(Step, holds, (action: Action) => true, EMPTY, actions, 0);
  }

  // ---- promises settle once ----

  // What has settled or been handed out stays so.
  ghost predicate Remembers(s: State, t: State) {
    && (forall r :: r in s.settled ==> r in t.settled && t.settled[r] == s.settled[r])
    && s.asked <= t.asked && s.handed <= t.handed
  }

  lemma LeftRemembers(s: State, id: nat, r: nat, reply: Reply)
    requires BooksOk(s.owner.Keys, s.settled.Keys, s.asked) && OwnersOk(s.grants, s.owner)
    requires id in s.grants && r in s.grants[id].pending
    ensures Remembers(s, Left(s, id, r, reply)) && r !in s.settled
  {
    PendingIsOwned(s, id, r);
  }

  lemma CancelRemembers(s: State, request: nat, reason: Reason)
    requires Inv(s)
    ensures Remembers(s, ReadCancelled(s, request, reason))
  {
    if request in s.owner && s.owner[request] in s.grants && request in s.grants[s.owner[request]].pending {
      var id := s.owner[request];
      CancelIs(s, request, reason);
      LeftRemembers(s, id, request, Failure(reason));
      var left := Left(s, id, request, Failure(reason));
      if s.grants[id].pending[request].delivered {
        if left.grants[id].polling.Some? {
          WithdrawResolves(left, id, request);
        } else {
          WithdrawOtherwise(left, id, request);
        }
      }
    }
  }

  lemma ReleasedRemembers(s: State, id: nat)
    requires BooksOk(s.owner.Keys, s.settled.Keys, s.asked) && OwnersOk(s.grants, s.owner)
    ensures Remembers(s, Released(s, id))
  {
    if id in s.grants {
      PendingOwned(s.grants, s.owner, id);
      ReleasedBooks(s.owner, s.settled, s.asked, s.grants[id].pending.Keys, Failure(NotBound));
    }
  }

  lemma AskedRemembers(s: State, id: nat, request: Request)
    requires id in s.grants && (s.grants[id].polling.Some? || |s.grants[id].queue| < QUEUE_LIMIT)
    ensures Remembers(s, Asked(s, id, request))
  {
    if s.grants[id].polling.Some? {
      AskedHanded(s, id, request);
    } else {
      AskedQueued(s, id, request);
    }
  }

  lemma RespondedRemembers(s: State, id: nat, peerId: string, request: nat, reply: Reply)
    requires BooksOk(s.owner.Keys, s.settled.Keys, s.asked) && OwnersOk(s.grants, s.owner)
    ensures Remembers(s, Responded(s, id, peerId, request, reply))
  {
    if MayAnswer(s, id, peerId, request) {
      PendingIsOwned(s, id, request);
    }
  }

  lemma ReadRemembers(s: State, session: Option<string>, asking: Request, aborted: bool)
    ensures Remembers(s, ReadAdmitted(s, session, asking, aborted))
  {
    if ReadOutcome(s, session, asking, aborted).Suspended? {
      AskedRemembers(s, SessionGrant(s.grants, session.value).value, asking);
    }
  }

  lemma PolledRemembers(s: State, id: nat, peerId: string, aborted: bool)
    ensures Remembers(s, Polled(s, id, peerId, aborted))
  {
  }

  lemma DisposedRemembers(s: State)
    requires BooksOk(s.owner.Keys, s.settled.Keys, s.asked)
    ensures Remembers(s, Disposed(s))
  {
    ReleasedBooks(s.owner, s.settled, s.asked, s.owner.Keys, Failure(NotBound));
  }

  lemma QuietRemembers(s: State, action: Action)
    requires action.Attach? || action.PollEnds? || action.PollResumes? || action.WaitCall? || action.WaitEnds?
    ensures Remembers(s, Step(s, action))
  {
  }

  lemma StepRemembers(s: State, action: Action)
    requires Inv(s)
    ensures Remembers(s, Step(s, action))
  {
    StepIs(s, action);
    match action {
      case LeaseExpires(id) => ReleasedRemembers(s, id);
      case Detach(id, peerId) => ReleasedRemembers(s, id);
      case PollCall(id, peerId, aborted) => PolledRemembers(s, id, peerId, aborted);
      case Respond(id, peerId, request, reply) => RespondedRemembers(s, id, peerId, request, reply);
      case ReadCall(session, asking, aborted) => ReadRemembers(s, session, asking, aborted);
      case CancelRead(request, reason) => CancelRemembers(s, request, reason);
      case Dispose => DisposedRemembers(s);
      case _ => QuietRemembers(s, action);
    }
  }

  lemma RememberedThrough(a: State, b: State, c: State)
    requires Remembers(a, b) && Remembers(b, c)
    ensures Remembers(a, c)
  {
  }

  // A read that has settled keeps its answer in every later state: no promise settles twice.
  lemma {:induction false} SettlesOnce(s: State, actions: seq<Action>)
    requires Inv(s)
    ensures Inv(Run(Step, s, actions)) && Remembers(s, Run(Step, s, actions))
    decreases |actions|
  {
    if actions != [] {
      var init := actions[..|actions| - 1];
      SettlesOnce(s, init);
      StepKeeps(Run(Step, s, init), actions[|actions| - 1]);
      StepRemembers(Run(Step, s, init), actions[|actions| - 1]);
      RememberedThrough(s, Run(Step, s, init), Run(Step, s, actions));
    }
  }

  // ---- at most once is all there is ----

  lemma ThreeSteps(a: Action, b: Action, c: Action)
    ensures Run(Step, EMPTY, [a, b, c]) == Step(Step(Step(EMPTY, a), b), c)
  {
    assert Run(Step, EMPTY, []) == EMPTY;
    assert [a][..0] == [] && [a, b][..1] == [a] && [a, b, c][..2] == [a, b];
    assert Run(Step, EMPTY, [a]) == Step(EMPTY, a);
    assert Run(Step, EMPTY, [a, b]) == Step(Step(EMPTY, a), b);
  }

  // A companion that is waiting for work.
  lemma CompanionWaits()
    ensures var s := Step(Step(EMPTY, Attach("s", "o", "p", [])), PollCall(0, "p", false));
            && s.grants == map[0 := Grant("s", "o", "p", [], map[], [], Some(1))]
            && s.polls == map[1 := Poll(0, None)] && s.next == 2
  {
    var a := Step(EMPTY, Attach("s", "o", "p", []));
    assert a.grants == map[0 := Grant("s", "o", "p", [], map[], [], None)] && a.next == 1;
  }

  lemma WorkIsHanded(s: State, request: Request)
    requires request.capability.None?
    requires s.grants == map[0 := Grant("s", "o", "p", [], map[], [], Some(1))] && s.polls == map[1 := Poll(0, None)]
             && s.next == 2
    ensures var t := Step(s, ReadCall(Some("s"), request, false));
            && t.grants == map[0 := Grant("s", "o", "p", [], map[2 := Pending(request, true)], [], None)]
            && t.polls == map[1 := Poll(0, Some(Ask(2, request)))]
  {
    assert HasSession(s.grants, "s") by {
      assert 0 in s.grants;
    }
    assert SessionGrant(s.grants, "s") == Some(0);
    AskedHanded(s, 0, request);
  }

  // A request handed to a poll whose signal is aborted before it runs on is delivered to nobody: it
  // stays pending and counts as delivered, and no later poll is given it.
  lemma HandedRequestCanBeLost(request: Request)
    requires request.capability.None?
    ensures var s :=
              Run(Step, EMPTY,
                  [Attach("s", "o", "p", []), PollCall(0, "p", false), ReadCall(Some("s"), request, false)]);
            && 1 in s.polls && s.polls[1].event == Some(Ask(2, request))
            && ResumeOutcome(s, 1, true) == Fail(Aborted)
            && var t := Step(s, PollResumes(1));
               && 0 in t.grants && t.grants[0].pending == map[2 := Pending(request, true)] && t.grants[0].queue == []
               && PollOutcome(t, 0, "p", false).Suspended?
  {
    ThreeSteps(Attach("s", "o", "p", []), PollCall(0, "p", false), ReadCall(Some("s"), request, false));
    CompanionWaits();
    WorkIsHanded(Step(Step(EMPTY, Attach("s", "o", "p", [])), PollCall(0, "p", false)), request);
  }
}
