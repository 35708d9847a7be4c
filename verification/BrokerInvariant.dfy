/**
 What every reachable state of the companion broker satisfies.
 */
module BrokerInvariant {
  import opened CompanionBroker
  import opened Options
  import opened Runs

  // ---- one grant ----

  // The ids of the requests in the queue, in order.
  function Asks(queue: seq<PollEvent>): seq<nat> {
    if queue == [] then []
    else Asks(queue[..|queue| - 1]) + if queue[|queue| - 1].Ask? then [queue[|queue| - 1].id] else []
  }

  ghost predicate Ascending(ids: seq<nat>) {
    forall i, j :: 0 <= i < j < |ids| ==> ids[i] < ids[j]
  }

  // The queued requests are the undelivered pending ones, oldest first.
  ghost predicate QueueIsUndelivered(queue: seq<PollEvent>, pending: map<nat, Pending>) {
    && Ascending(Asks(queue))
    && (forall r :: r in Asks(queue) <==> r in pending && !pending[r].delivered)
  }

  ghost predicate Bounded(g: Grant) {
    && |g.pending| <= REQUEST_LIMIT && |g.queue| <= QUEUE_LIMIT
    && (g.polling.Some? ==> g.queue == [])
  }

  // Every queued request is asked as it was made.
  ghost predicate AsksAsMade(g: Grant) {
    forall i :: 0 <= i < |g.queue| && g.queue[i].Ask? && g.queue[i].id in g.pending ==>
      g.queue[i].request == g.pending[g.queue[i].id].request
  }

  // Delivered means handed out; only what was handed out is withdrawn, and only once it has settled.
  ghost predicate HandedOk(g: Grant, handed: seq<nat>) {
    && (forall r :: r in g.pending ==> (g.pending[r].delivered <==> r in handed))
    && (forall i :: 0 <= i < |g.queue| && g.queue[i].Withdraw? ==>
          g.queue[i].id in handed && g.queue[i].id !in g.pending)
  }

  ghost predicate GrantOk(g: Grant, handed: seq<nat>) {
    QueueIsUndelivered(g.queue, g.pending) && Bounded(g) && AsksAsMade(g) && HandedOk(g, handed)
  }

  // ---- all of them ----

  ghost predicate EachOk(grants: map<nat, Grant>, handed: seq<nat>) {
    forall id :: id in grants ==> GrantOk(grants[id], handed)
  }

  ghost predicate OnePerSession(grants: map<nat, Grant>) {
    && |grants| <= GRANT_LIMIT
    && forall a, b :: a in grants && b in grants && a != b ==> grants[a].sessionId != grants[b].sessionId
  }

  // An outstanding read is pending at its one grant, and nothing else is pending anywhere.
  ghost predicate OwnersOk(grants: map<nat, Grant>, owner: map<nat, nat>) {
    && (forall r :: r in owner ==> owner[r] in grants && r in grants[owner[r]].pending)
    && (forall id, r :: id in grants && r in grants[id].pending ==> r in owner && owner[r] == id)
  }

  // Every read ever asked is outstanding or settled, never both.
  ghost predicate BooksOk(outstanding: set<nat>, settled: set<nat>, asked: set<nat>) {
    asked == outstanding + settled && outstanding !! settled
  }

  // The unresolved polls are exactly those a live grant waits on.
  ghost predicate PollsOk(grants: map<nat, Grant>, polls: map<nat, Poll>) {
    && (forall id :: id in grants && grants[id].polling.Some? ==>
          grants[id].polling.value in polls && polls[grants[id].polling.value] == Poll(id, None))
    && (forall p :: p in polls && polls[p].event.None? ==>
          polls[p].grant in grants && grants[polls[p].grant].polling == Some(p))
  }

  // At most four wait for a session, for at most sixteen sessions, none of which has a grant.
  ghost predicate WaitingOk(grants: map<nat, Grant>, waiting: map<string, set<nat>>) {
    && |waiting| <= WAITING_LIMIT
    && (forall s :: s in waiting ==> 0 < |waiting[s]| <= WAITER_LIMIT)
    && (forall id :: id in grants ==> grants[id].sessionId !in waiting)
  }

  ghost predicate HandedOnce(handed: seq<nat>, asked: set<nat>) {
    && (forall i, j :: 0 <= i < j < |handed| ==> handed[i] != handed[j])
    && (forall i :: 0 <= i < |handed| ==> handed[i] in asked)
  }

  ghost predicate Issued(grants: set<nat>, asked: set<nat>, polls: set<nat>, next: nat) {
    && (forall id :: id in grants ==> id < next)
    && (forall r :: r in asked ==> r < next)
    && (forall p :: p in polls ==> p < next)
  }

  // The grants with what is pending at them and queued for them.
  ghost predicate Wards(grants: map<nat, Grant>, owner: map<nat, nat>, handed: seq<nat>) {
    EachOk(grants, handed) && OwnersOk(grants, owner)
  }

  // The calls that are suspended.
  ghost predicate Lines(grants: map<nat, Grant>, polls: map<nat, Poll>, waiting: map<string, set<nat>>) {
    OnePerSession(grants) && PollsOk(grants, polls) && WaitingOk(grants, waiting)
  }

  // The ids given out, and what became of them.
  ghost predicate Ledger(s: State) {
    && BooksOk(s.owner.Keys, s.settled.Keys, s.asked)
    && HandedOnce(s.handed, s.asked)
    && Issued(s.grants.Keys, s.asked, s.polls.Keys, s.next)
  }

  ghost predicate Inv(s: State) {
    Wards(s.grants, s.owner, s.handed) && Lines(s.grants, s.polls, s.waiting) && Ledger(s)
  }

  // ---- one grant changes ----

  lemma PutOnePerSession(grants: map<nat, Grant>, id: nat, g: Grant)
    requires OnePerSession(grants) && id in grants && g.sessionId == grants[id].sessionId
    ensures OnePerSession(grants[id := g])
  {
    assert grants[id := g].Keys == grants.Keys;
    assert |grants[id := g]| == |grants.Keys|;
  }

  lemma PutWaiting(grants: map<nat, Grant>, waiting: map<string, set<nat>>, id: nat, g: Grant)
    requires WaitingOk(grants, waiting) && id in grants && g.sessionId == grants[id].sessionId
    ensures WaitingOk(grants[id := g], waiting)
  {
  }

  lemma PutPolls(grants: map<nat, Grant>, polls: map<nat, Poll>, id: nat, g: Grant)
    requires PollsOk(grants, polls) && id in grants && g.polling == grants[id].polling
    ensures PollsOk(grants[id := g], polls)
  {
  }

  lemma PutEach(grants: map<nat, Grant>, handed: seq<nat>, id: nat, g: Grant)
    requires EachOk(grants, handed) && GrantOk(g, handed)
    ensures EachOk(grants[id := g], handed)
  {
  }

  lemma PutOwners(grants: map<nat, Grant>, owner: map<nat, nat>, id: nat, g: Grant)
    requires OwnersOk(grants, owner) && id in grants && g.pending.Keys == grants[id].pending.Keys
    ensures OwnersOk(grants[id := g], owner)
  {
    assert forall r :: r in g.pending <==> r in g.pending.Keys;
    assert forall r :: r in grants[id].pending <==> r in grants[id].pending.Keys;
  }

  lemma KeptByHanding(g: Grant, handed: seq<nat>, r: nat)
    requires GrantOk(g, handed) && r !in g.pending
    ensures GrantOk(g, handed + [r])
  {
  }

  lemma PendingAtOne(grants: map<nat, Grant>, owner: map<nat, nat>, id: nat, other: nat, r: nat)
    requires OwnersOk(grants, owner) && (r in owner ==> owner[r] == id) && other in grants && other != id
    ensures r !in grants[other].pending
  {
  }

  lemma PutHandedAt(grants: map<nat, Grant>, handed: seq<nat>, id: nat, g: Grant, r: nat)
    requires forall other :: other in grants && other != id ==> GrantOk(grants[other], handed + [r])
    requires GrantOk(g, handed + [r])
    ensures EachOk(grants[id := g], handed + [r])
  {
  }

  // Handing out a request of one grant concerns no other.
  lemma PutHanded(grants: map<nat, Grant>, owner: map<nat, nat>, handed: seq<nat>, id: nat, g: Grant, r: nat)
    requires EachOk(grants, handed) && OwnersOk(grants, owner)
    requires r in owner ==> owner[r] == id
    requires GrantOk(g, handed + [r])
    ensures EachOk(grants[id := g], handed + [r])
  {
    forall other | other in grants && other != id ensures GrantOk(grants[other], handed + [r]) {
      OtherKept(grants, owner, handed, id, other, r);
    }
    PutHandedAt(grants, handed, id, g, r);
  }

  lemma OtherKept(grants: map<nat, Grant>, owner: map<nat, nat>, handed: seq<nat>, id: nat, other: nat, r: nat)
    requires EachOk(grants, handed) && OwnersOk(grants, owner) && (r in owner ==> owner[r] == id)
    requires other in grants && other != id
    ensures GrantOk(grants[other], handed + [r])
  {
    PendingAtOne(grants, owner, id, other, r);
    KeptByHanding(grants[other], handed, r);
  }

  lemma PendingIsAsked(grants: map<nat, Grant>, owner: map<nat, nat>, settled: set<nat>, asked: set<nat>, id: nat,
                       r: nat)
    requires OwnersOk(grants, owner) && BooksOk(owner.Keys, settled, asked) && id in grants && r in grants[id].pending
    ensures r in asked && r in owner && owner[r] == id && r !in settled
  {
  }

  // ---- the queue's requests ----

  lemma AsksAppend(a: seq<PollEvent>, b: seq<PollEvent>)
    ensures Asks(a + b) == Asks(a) + Asks(b)
    decreases |b|
  {
    if b == [] {
      assert a + b == a;
    } else {
      assert (a + b)[..|a + b| - 1] == a + b[..|b| - 1];
      AsksAppend(a, b[..|b| - 1]);
    }
  }

  lemma AsksOne(e: PollEvent)
    ensures Asks([e]) == HandedIds(e)
  {
    assert [e][..0] == [];
  }

  lemma AsksOfRest(queue: seq<PollEvent>)
    requires queue != []
    ensures Asks(queue) == HandedIds(queue[0]) + Asks(queue[1..])
  {
    assert queue == [queue[0]] + queue[1..];
    AsksAppend([queue[0]], queue[1..]);
    AsksOne(queue[0]);
  }

  lemma {:induction false} AskIsQueued(queue: seq<PollEvent>, i: nat)
    requires i < |queue| && queue[i].Ask?
    ensures queue[i].id in Asks(queue)
    decreases |queue|
  {
    if i < |queue| - 1 {
      AskIsQueued(queue[..|queue| - 1], i);
    }
  }

  lemma AscendingPush(ids: seq<nat>, r: nat)
    requires Ascending(ids) && forall i :: 0 <= i < |ids| ==> ids[i] < r
    ensures Ascending(ids + [r])
  {
  }

  lemma AscendingRest(first: nat, rest: seq<nat>)
    requires Ascending([first] + rest)
    ensures Ascending(rest) && first !in rest
  {
    var all := [first] + rest;
    forall i | 0 <= i < |rest| ensures rest[i] == all[i + 1] && first < rest[i] {
      assert all[0] < all[i + 1];
    }
  }

  lemma PendingSize(a: map<nat, Pending>, b: map<nat, Pending>)
    requires a.Keys == b.Keys
    ensures |a| == |b|
  {
    assert |a| == |a.Keys| && |b| == |b.Keys|;
  }

  // ---- the head of the queue is handed out ----

  function Popped(g: Grant): Grant
    requires g.queue != []
  {
    Marked(g.(queue := g.queue[1..]), g.queue[0])
  }

  lemma PoppedQueue(g: Grant)
    requires QueueIsUndelivered(g.queue, g.pending) && g.queue != []
    ensures QueueIsUndelivered(Popped(g).queue, Popped(g).pending)
    ensures g.queue[0].Ask? ==> g.queue[0].id in g.pending
  {
    var head, rest := g.queue[0], g.queue[1..];
    AsksOfRest(g.queue);
    if head.Ask? {
      AscendingRest(head.id, Asks(rest));
      assert head.id in Asks(g.queue);
    } else {
      assert [] + Asks(rest) == Asks(rest);
    }
    forall r ensures r in Asks(rest) <==> r in Popped(g).pending && !Popped(g).pending[r].delivered {
      assert r in Asks(g.queue) <==> r in HandedIds(head) || r in Asks(rest);
    }
  }

  lemma PoppedBounded(g: Grant)
    requires Bounded(g) && g.queue != []
    ensures Bounded(Popped(g)) && Popped(g).pending.Keys == g.pending.Keys
  {
    assert Popped(g).pending.Keys == g.pending.Keys;
    PendingSize(g.pending, Popped(g).pending);
  }

  lemma PoppedHanded(g: Grant, handed: seq<nat>)
    requires HandedOk(g, handed) && g.queue != [] && (g.queue[0].Ask? ==> g.queue[0].id in g.pending)
    ensures HandedOk(Popped(g), handed + HandedIds(g.queue[0]))
  {
  }

  lemma PopOk(g: Grant, handed: seq<nat>)
    requires GrantOk(g, handed) && g.queue != []
    ensures GrantOk(Popped(g), handed + HandedIds(g.queue[0])) && Popped(g).pending.Keys == g.pending.Keys
    ensures g.queue[0].Ask? ==> g.queue[0].id in g.pending && g.queue[0].id !in handed
  {
    PoppedQueue(g);
    PoppedBounded(g);
    PoppedHanded(g, handed);
    AsksOfRest(g.queue);
    if g.queue[0].Ask? {
      assert g.queue[0].id in Asks(g.queue);
    }
  }

  lemma HandedPush(handed: seq<nat>, asked: set<nat>, r: nat)
    requires HandedOnce(handed, asked) && r in asked && r !in handed
    ensures HandedOnce(handed + [r], asked)
  {
  }

  lemma HeadEach(grants: map<nat, Grant>, owner: map<nat, nat>, handed: seq<nat>, id: nat)
    requires EachOk(grants, handed) && OwnersOk(grants, owner) && id in grants && grants[id].queue != []
    ensures EachOk(grants[id := Popped(grants[id])], handed + HandedIds(grants[id].queue[0]))
  {
    var g := grants[id];
    var head := g.queue[0];
    PopOk(g, handed);
    if head.Ask? {
      PutHanded(grants, owner, handed, id, Popped(g), head.id);
    } else {
      assert handed + [] == handed;
      PutEach(grants, handed, id, Popped(g));
    }
  }

  lemma HeadOnce(handed: seq<nat>, asked: set<nat>, head: PollEvent)
    requires HandedOnce(handed, asked) && (head.Ask? ==> head.id in asked && head.id !in handed)
    ensures HandedOnce(handed + HandedIds(head), asked)
  {
    if head.Ask? {
      HandedPush(handed, asked, head.id);
    } else {
      assert handed + [] == handed;
    }
  }

  lemma HeadIsNew(s: State, id: nat)
    requires EachOk(s.grants, s.handed) && OwnersOk(s.grants, s.owner) && BooksOk(s.owner.Keys, s.settled.Keys, s.asked)
    requires id in s.grants && s.grants[id].queue != []
    ensures var head := s.grants[id].queue[0];
            head.Ask? ==> head.id in s.asked && head.id !in s.handed
  {
    PopOk(s.grants[id], s.handed);
    var head := s.grants[id].queue[0];
    if head.Ask? {
      PendingIsAsked(s.grants, s.owner, s.settled.Keys, s.asked, id, head.id);
    }
  }

  lemma HeadShown(grants: map<nat, Grant>, handed: seq<nat>, id: nat)
    requires EachOk(grants, handed) && id in grants && grants[id].queue != []
    ensures var g := grants[id];
            Shown(g.(queue := g.queue[1..]), g.queue[0]) == g.queue[0]
            && Popped(g).sessionId == g.sessionId && Popped(g).polling == g.polling
            && Popped(g).pending.Keys == g.pending.Keys
  {
    PopOk(grants[id], handed);
  }

  lemma HeadHandedOut(s: State, id: nat)
    requires Inv(s) && id in s.grants && s.grants[id].queue != [] && s.grants[id].polling.None?
    ensures Inv(s.(grants := s.grants[id := Popped(s.grants[id])],
                   handed := s.handed + HandedIds(s.grants[id].queue[0])))
  {
    var g := Popped(s.grants[id]);
    HeadShown(s.grants, s.handed, id);
    HeadEach(s.grants, s.owner, s.handed, id);
    HeadIsNew(s, id);
    HeadOnce(s.handed, s.asked, s.grants[id].queue[0]);
    PutOnePerSession(s.grants, id, g);
    PutWaiting(s.grants, s.waiting, id, g);
    PutPolls(s.grants, s.polls, id, g);
    PutOwners(s.grants, s.owner, id, g);
    assert s.grants[id := g].Keys == s.grants.Keys;
  }

  // ---- polls ----

  lemma NextIssued(grants: set<nat>, asked: set<nat>, polls: set<nat>, next: nat)
    requires Issued(grants, asked, polls, next)
    ensures Issued(grants, asked + {next}, polls, next + 1) && next !in asked
    ensures Issued(grants, asked, polls + {next}, next + 1) && next !in polls
    ensures Issued(grants + {next}, asked, polls, next + 1) && next !in grants
  {
  }

  function Waiting(s: State, id: nat): State
    requires id in s.grants
  {
    s.(grants := s.grants[id := s.grants[id].(polling := Some(s.next))], polls := s.polls[s.next := Poll(id, None)],
       next := s.next + 1)
  }

  lemma PollWaitsWards(s: State, id: nat)
    requires Wards(s.grants, s.owner, s.handed) && id in s.grants && s.grants[id].queue == []
    ensures Wards(Waiting(s, id).grants, s.owner, s.handed)
  {
    var g := s.grants[id].(polling := Some(s.next));
    PutOwners(s.grants, s.owner, id, g);
    PutEach(s.grants, s.handed, id, g);
  }

  lemma PollWaitsLines(s: State, id: nat)
    requires Lines(s.grants, s.polls, s.waiting) && id in s.grants && s.grants[id].polling.None? && s.next !in s.polls
    ensures Lines(Waiting(s, id).grants, Waiting(s, id).polls, s.waiting)
  {
    var g := s.grants[id].(polling := Some(s.next));
    PutOnePerSession(s.grants, id, g);
    PutWaiting(s.grants, s.waiting, id, g);
    NewPoll(s.grants, s.polls, id, s.next);
  }

  lemma PollWaitsLedger(s: State, id: nat)
    requires Ledger(s) && id in s.grants
    ensures Ledger(Waiting(s, id)) && s.next !in s.polls
  {
    NextIssued(s.grants.Keys, s.asked, s.polls.Keys, s.next);
    assert Waiting(s, id).grants.Keys == s.grants.Keys;
    assert Waiting(s, id).polls.Keys == s.polls.Keys + {s.next};
  }

  lemma PollWaits(s: State, id: nat)
    requires Inv(s) && id in s.grants && s.grants[id].queue == [] && s.grants[id].polling.None?
    ensures Inv(Waiting(s, id))
  {
    PollWaitsLedger(s, id);
    PollWaitsWards(s, id);
    PollWaitsLines(s, id);
  }

  lemma NewPoll(grants: map<nat, Grant>, polls: map<nat, Poll>, id: nat, poll: nat)
    requires PollsOk(grants, polls) && id in grants && grants[id].polling.None? && poll !in polls
    ensures PollsOk(grants[id := grants[id].(polling := Some(poll))], polls[poll := Poll(id, None)])
  {
  }

  lemma PolledKeeps(s: State, id: nat, peerId: string, aborted: bool)
    requires Inv(s)
    ensures Inv(Polled(s, id, peerId, aborted))
  {
    if Owns(s.grants, id, peerId) && !aborted && s.grants[id].polling.None? {
      if s.grants[id].queue != [] {
        HeadShown(s.grants, s.handed, id);
        HeadHandedOut(s, id);
      } else {
        PollWaits(s, id);
      }
    }
  }

  lemma ResolvedPolls(grants: map<nat, Grant>, polls: map<nat, Poll>, id: nat, g: Grant, event: PollEvent)
    requires PollsOk(grants, polls) && id in grants && grants[id].polling.Some? && g.polling.None?
    ensures PollsOk(grants[id := g], polls[grants[id].polling.value := Poll(id, Some(event))])
  {
  }

  lemma ResolvedKeys(grants: map<nat, Grant>, polls: map<nat, Poll>, id: nat, event: PollEvent)
    requires PollsOk(grants, polls) && id in grants && grants[id].polling.Some?
    ensures polls[grants[id].polling.value := Poll(id, Some(event))].Keys == polls.Keys
  {
  }

  // The event reaches the waiting poll; the grant may have changed on the way.
  lemma ResolveWith(s: State, id: nat, g: Grant, event: PollEvent)
    requires Inv(s) && id in s.grants && s.grants[id].polling.Some?
    requires g.polling.None? && g.sessionId == s.grants[id].sessionId && g.pending.Keys == s.grants[id].pending.Keys
    requires GrantOk(g, s.handed)
    ensures Inv(s.(grants := s.grants[id := g], polls := s.polls[s.grants[id].polling.value := Poll(id, Some(event))]))
  {
    PutOnePerSession(s.grants, id, g);
    PutWaiting(s.grants, s.waiting, id, g);
    PutOwners(s.grants, s.owner, id, g);
    PutEach(s.grants, s.handed, id, g);
    ResolvedPolls(s.grants, s.polls, id, g, event);
    ResolvedKeys(s.grants, s.polls, id, event);
    assert s.grants[id := g].Keys == s.grants.Keys;
  }

  lemma PollEndedKeeps(s: State, poll: nat)
    requires Inv(s)
    ensures Inv(PollEnded(s, poll))
  {
    if PollEnded(s, poll) != s {
      var id := s.polls[poll].grant;
      ResolveWith(s, id, s.grants[id].(polling := None), Idle);
    }
  }

  lemma ResumedPolls(grants: map<nat, Grant>, polls: map<nat, Poll>, poll: nat)
    requires PollsOk(grants, polls) && poll in polls && polls[poll].event.Some?
    ensures PollsOk(grants, polls - {poll})
  {
  }

  lemma PollResumedKeeps(s: State, poll: nat)
    requires Inv(s)
    ensures Inv(PollResumed(s, poll))
  {
    if poll in s.polls && s.polls[poll].event.Some? {
      ResumedPolls(s.grants, s.polls, poll);
    }
  }

  // ---- a read is asked ----

  lemma AskedQueue(g: Grant, r: nat, request: Request)
    requires QueueIsUndelivered(g.queue, g.pending) && forall a :: a in g.pending ==> a < r
    ensures QueueIsUndelivered(g.queue + [Ask(r, request)], g.pending[r := Pending(request, false)])
  {
    AsksAppend(g.queue, [Ask(r, request)]);
    AsksOne(Ask(r, request));
    forall i | 0 <= i < |Asks(g.queue)| ensures Asks(g.queue)[i] < r {
      assert Asks(g.queue)[i] in Asks(g.queue);
    }
    AscendingPush(Asks(g.queue), r);
  }

  lemma PendingGrows(pending: map<nat, Pending>, r: nat, p: Pending)
    requires r !in pending
    ensures |pending[r := p]| == |pending| + 1 && pending[r := p].Keys == pending.Keys + {r}
  {
    assert pending[r := p].Keys == pending.Keys + {r};
    assert |pending[r := p]| == |pending[r := p].Keys| && |pending| == |pending.Keys|;
  }

  lemma AskedMade(g: Grant, r: nat, request: Request)
    requires AsksAsMade(g) && QueueIsUndelivered(g.queue, g.pending) && r !in g.pending
    ensures AsksAsMade(g.(pending := g.pending[r := Pending(request, false)], queue := g.queue + [Ask(r, request)]))
  {
    forall i | 0 <= i < |g.queue| && g.queue[i].Ask? ensures g.queue[i].id in g.pending {
      AskIsQueued(g.queue, i);
    }
  }

  lemma QueuedOk(g: Grant, handed: seq<nat>, r: nat, request: Request)
    requires GrantOk(g, handed) && g.polling.None? && |g.pending| < REQUEST_LIMIT && |g.queue| < QUEUE_LIMIT
    requires (forall a :: a in g.pending ==> a < r) && (forall h :: h in handed ==> h < r)
    ensures GrantOk(g.(pending := g.pending[r := Pending(request, false)], queue := g.queue + [Ask(r, request)]),
                    handed)
  {
    AskedQueue(g, r, request);
    AskedMade(g, r, request);
    PendingGrows(g.pending, r, Pending(request, false));
  }

  lemma HandedDirectlyOk(g: Grant, handed: seq<nat>, r: nat, request: Request)
    requires GrantOk(g, handed) && g.polling.Some? && |g.pending| < REQUEST_LIMIT && r !in g.pending
    ensures GrantOk(g.(pending := g.pending[r := Pending(request, true)], polling := None), handed + [r])
  {
    PendingGrows(g.pending, r, Pending(request, true));
  }

  lemma AskedOwners(grants: map<nat, Grant>, owner: map<nat, nat>, id: nat, g: Grant, r: nat, p: Pending)
    requires OwnersOk(grants, owner) && id in grants && r !in owner && g.pending == grants[id].pending[r := p]
    ensures OwnersOk(grants[id := g], owner[r := id])
  {
  }

  lemma AskedBooks(owner: map<nat, nat>, settled: set<nat>, asked: set<nat>, r: nat, id: nat)
    requires BooksOk(owner.Keys, settled, asked) && r !in asked
    ensures BooksOk(owner[r := id].Keys, settled, asked + {r})
  {
    assert owner[r := id].Keys == owner.Keys + {r};
  }

  lemma HandedFewer(handed: seq<nat>, asked: set<nat>, more: set<nat>)
    requires HandedOnce(handed, asked) && asked <= more
    ensures HandedOnce(handed, more)
  {
  }

  lemma HandedBelow(handed: seq<nat>, asked: set<nat>, next: nat)
    requires HandedOnce(handed, asked) && forall r :: r in asked ==> r < next
    ensures forall h :: h in handed ==> h < next
  {
  }

  lemma PendingBelow(s: State, id: nat)
    requires OwnersOk(s.grants, s.owner) && BooksOk(s.owner.Keys, s.settled.Keys, s.asked) && id in s.grants
    requires forall r :: r in s.asked ==> r < s.next
    ensures forall a :: a in s.grants[id].pending ==> a < s.next
  {
    forall a | a in s.grants[id].pending ensures a < s.next {
      PendingIsAsked(s.grants, s.owner, s.settled.Keys, s.asked, id, a);
    }
  }

  lemma AskQueuesWards(s: State, id: nat, request: Request)
    requires Wards(s.grants, s.owner, s.handed) && s.next !in s.owner
    requires id in s.grants && s.grants[id].polling.None?
    requires |s.grants[id].pending| < REQUEST_LIMIT && |s.grants[id].queue| < QUEUE_LIMIT
    requires (forall a :: a in s.grants[id].pending ==> a < s.next) && (forall h :: h in s.handed ==> h < s.next)
    ensures var t := Asked(s, id, request);
            Wards(t.grants, t.owner, t.handed)
  {
    var g := s.grants[id];
    var after := g.(pending := g.pending[s.next := Pending(request, false)], queue := g.queue + [Ask(s.next, request)]);
    QueuedOk(g, s.handed, s.next, request);
    PutEach(s.grants, s.handed, id, after);
    AskedOwners(s.grants, s.owner, id, after, s.next, Pending(request, false));
    AskedQueued(s, id, request);
  }

  lemma AskQueuesLines(s: State, id: nat, request: Request)
    requires Lines(s.grants, s.polls, s.waiting) && id in s.grants && s.grants[id].polling.None?
             && |s.grants[id].queue| < QUEUE_LIMIT
    ensures var t := Asked(s, id, request);
            Lines(t.grants, t.polls, t.waiting)
  {
    var g := s.grants[id];
    var after := g.(pending := g.pending[s.next := Pending(request, false)], queue := g.queue + [Ask(s.next, request)]);
    PutOnePerSession(s.grants, id, after);
    PutWaiting(s.grants, s.waiting, id, after);
    PutPolls(s.grants, s.polls, id, after);
    AskedQueued(s, id, request);
  }

  lemma AskQueuesLedger(s: State, id: nat, request: Request)
    requires Ledger(s) && id in s.grants && s.grants[id].polling.None? && |s.grants[id].queue| < QUEUE_LIMIT
    ensures Ledger(Asked(s, id, request))
  {
    NextIssued(s.grants.Keys, s.asked, s.polls.Keys, s.next);
    AskedBooks(s.owner, s.settled.Keys, s.asked, s.next, id);
    HandedFewer(s.handed, s.asked, s.asked + {s.next});
    AskedQueued(s, id, request);
    assert Asked(s, id, request).grants.Keys == s.grants.Keys;
  }

  lemma NewIds(s: State, id: nat)
    requires Ledger(s) && OwnersOk(s.grants, s.owner) && id in s.grants
    ensures s.next !in s.owner && (forall a :: a in s.grants[id].pending ==> a < s.next)
            && (forall h :: h in s.handed ==> h < s.next)
  {
    NextIssued(s.grants.Keys, s.asked, s.polls.Keys, s.next);
    PendingBelow(s, id);
    HandedBelow(s.handed, s.asked, s.next);
  }

  lemma AskQueues(s: State, id: nat, request: Request)
    requires Inv(s) && id in s.grants && s.grants[id].polling.None?
    requires |s.grants[id].pending| < REQUEST_LIMIT && |s.grants[id].queue| < QUEUE_LIMIT
    ensures Inv(Asked(s, id, request))
  {
    NewIds(s, id);
    AskQueuesWards(s, id, request);
    AskQueuesLines(s, id, request);
    AskQueuesLedger(s, id, request);
  }

  lemma AskedQueued(s: State, id: nat, request: Request)
    requires id in s.grants && s.grants[id].polling.None? && |s.grants[id].queue| < QUEUE_LIMIT
    ensures var g := s.grants[id];
            Asked(s, id, request)
            == s.(grants :=
                    s.grants[id := g.(pending := g.pending[s.next := Pending(request, false)],
                                      queue := g.queue + [Ask(s.next, request)])],
                  owner := s.owner[s.next := id], asked := s.asked + {s.next}, next := s.next + 1)
  {
    var g := s.grants[id].(pending := s.grants[id].pending[s.next := Pending(request, false)]);
    assert s.grants[id := g][id := g.(queue := g.queue + [Ask(s.next, request)])]
        == s.grants[id := g.(queue := g.queue + [Ask(s.next, request)])];
  }

  lemma AskedHanded(s: State, id: nat, request: Request)
    requires id in s.grants && s.grants[id].polling.Some?
    ensures var g := s.grants[id];
            Asked(s, id, request)
            == s.(grants := s.grants[id := g.(pending := g.pending[s.next := Pending(request, true)], polling := None)],
                  polls := s.polls[g.polling.value := Poll(id, Some(Ask(s.next, request)))],
                  handed := s.handed + [s.next],
                  owner := s.owner[s.next := id], asked := s.asked + {s.next}, next := s.next + 1)
  {
    var g := s.grants[id];
    var pending := g.pending[s.next := Pending(request, false)];
    assert pending[s.next := Pending(request, true)] == g.pending[s.next := Pending(request, true)];
    var final := g.(pending := g.pending[s.next := Pending(request, true)], polling := None);
    assert Asked(s, id, request).grants == s.grants[id := final];
  }

  lemma AskHandsWards(s: State, id: nat, request: Request)
    requires Wards(s.grants, s.owner, s.handed) && s.next !in s.owner
    requires id in s.grants && s.grants[id].polling.Some? && |s.grants[id].pending| < REQUEST_LIMIT
    ensures var t := Asked(s, id, request);
            Wards(t.grants, t.owner, t.handed)
  {
    var after := s.grants[id].(pending := s.grants[id].pending[s.next := Pending(request, true)], polling := None);
    HandedDirectlyOk(s.grants[id], s.handed, s.next, request);
    PutHanded(s.grants, s.owner, s.handed, id, after, s.next);
    AskedOwners(s.grants, s.owner, id, after, s.next, Pending(request, true));
    AskedHanded(s, id, request);
  }

  lemma AskHandsLines(s: State, id: nat, request: Request)
    requires Lines(s.grants, s.polls, s.waiting) && id in s.grants && s.grants[id].polling.Some?
    ensures var t := Asked(s, id, request);
            Lines(t.grants, t.polls, t.waiting) && t.polls.Keys == s.polls.Keys
  {
    var after := s.grants[id].(pending := s.grants[id].pending[s.next := Pending(request, true)], polling := None);
    PutOnePerSession(s.grants, id, after);
    PutWaiting(s.grants, s.waiting, id, after);
    ResolvedPolls(s.grants, s.polls, id, after, Ask(s.next, request));
    ResolvedKeys(s.grants, s.polls, id, Ask(s.next, request));
    AskedHanded(s, id, request);
  }

  lemma AskHandsLedger(s: State, id: nat, request: Request)
    requires Ledger(s) && id in s.grants && s.grants[id].polling.Some?
    requires Asked(s, id, request).polls.Keys == s.polls.Keys
    ensures Ledger(Asked(s, id, request))
  {
    NextIssued(s.grants.Keys, s.asked, s.polls.Keys, s.next);
    HandedBelow(s.handed, s.asked, s.next);
    AskedBooks(s.owner, s.settled.Keys, s.asked, s.next, id);
    HandedFewer(s.handed, s.asked, s.asked + {s.next});
    HandedPush(s.handed, s.asked + {s.next}, s.next);
    AskedHanded(s, id, request);
    assert Asked(s, id, request).grants.Keys == s.grants.Keys;
  }

  lemma AskHands(s: State, id: nat, request: Request)
    requires Inv(s) && id in s.grants && s.grants[id].polling.Some? && |s.grants[id].pending| < REQUEST_LIMIT
    ensures Inv(Asked(s, id, request))
  {
    NewIds(s, id);
    AskHandsWards(s, id, request);
    AskHandsLines(s, id, request);
    AskHandsLedger(s, id, request);
  }

  lemma ReadKeeps(s: State, sessionId: Option<string>, request: Request, aborted: bool)
    requires Inv(s)
    ensures Inv(ReadAdmitted(s, sessionId, request, aborted))
  {
    if ReadOutcome(s, sessionId, request, aborted).Suspended? {
      var id := SessionGrant(s.grants, sessionId.value).value;
      if s.grants[id].polling.Some? {
        AskHands(s, id, request);
      } else {
        AskQueues(s, id, request);
      }
    }
  }
}
