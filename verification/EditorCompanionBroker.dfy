/**
 The broker object: grants and waiters updated in place, each method tied to the step it takes.
 */
module EditorCompanionBroker {
  import opened BrokerInvariant
  import opened BrokerRuns
  import opened CompanionBroker
  import opened Options

  class Broker {
    var grants: map<nat, Grant>
    var owner: map<nat, nat>
    var waiting: map<string, set<nat>>
    var polls: map<nat, Poll>
    var settled: map<nat, Reply>
    var asked: set<nat>
    var handed: seq<nat>
    var woken: map<nat, bool>
    var next: nat

    function Value(): State
      reads this
    {
      State(grants, owner, waiting, polls, settled, asked, handed, woken, next)
    }

    constructor ()
      ensures Value() == EMPTY
    {
      grants, owner, waiting, polls := map[], map[], map[], map[];
      settled, asked, handed, woken, next := map[], {}, [], map[], 0;
    }

    // The grant of the session; there is at most one to find.
    method Session(sessionId: string) returns (r: Option<nat>)
      requires OnePerSession(grants)
      ensures r == SessionGrant(grants, sessionId)
    {
      var left := grants.Keys;
      while left != {}
        invariant left <= grants.Keys
        invariant forall id :: id in grants && id !in left ==> grants[id].sessionId != sessionId
        decreases |left|
      {
        var id :| id in left;
        if grants[id].sessionId == sessionId {
          OnlyGrant(grants, sessionId, id);
          return Some(id);
        }
        left := left - {id};
      }
      return None;
    }

    method Attach(sessionId: string, ownerId: string, peerId: string, capabilities: seq<string>)
      returns (outcome: Outcome<nat>)
      requires OnePerSession(grants)
      modifies this
      ensures Value() == Attached(old(Value()), sessionId, ownerId, peerId, capabilities)
      ensures outcome == old(AttachOutcome(Value(), sessionId, ownerId, peerId, capabilities))
    {
      var existing := Session(sessionId);
      if existing.Some? {
        if !SameGrant(grants[existing.value], ownerId, peerId, capabilities) {
          return Fail(Busy);
        }
        return Ok(existing.value);
      }
      if |grants| >= GRANT_LIMIT {
        return Fail(Busy);
      }
      outcome := Ok(next);
      Admit(Grant(sessionId, ownerId, peerId, capabilities, map[], [], None));
    }

    method Admit(g: Grant)
      modifies this
      ensures Value() == Granted(old(Value()), g)
    {
      grants := grants[next := g];
      next := next + 1;
      WakeGroup(g.sessionId, true);
    }

    // Every waiter of the session is told, and leaves its group.
    method WakeGroup(sessionId: string, available: bool)
      modifies this`waiting, this`woken
      ensures waiting == old(waiting) - {sessionId}
      ensures woken == WakeAll(old(woken), Group(old(waiting), sessionId), available)
    {
      woken := TellEach(woken, Group(waiting, sessionId), available);
      waiting := waiting - {sessionId};
    }

    method Delivered(id: nat, event: PollEvent) returns (shown: PollEvent)
      requires id in grants
      modifies this`grants, this`handed
      ensures grants == old(grants)[id := Marked(old(grants)[id], event)]
      ensures shown == Shown(old(grants)[id], event) && handed == old(handed) + HandedIds(shown)
    {
      shown := event;
      var g := grants[id];
      if event.Ask? {
        if event.id !in g.pending {
          shown := Idle;
        } else {
          g := g.(pending := g.pending[event.id := g.pending[event.id].(delivered := true)]);
          handed := handed + [event.id];
        }
      }
      grants := grants[id := g];
    }

    // Resolves the poll that waits at the grant.
    method FinishPoll(id: nat, event: PollEvent)
      requires id in grants && grants[id].polling.Some?
      modifies this`grants, this`polls
      ensures Value() == ResolvePoll(old(Value()), id, event)
    {
      var poll := grants[id].polling.value;
      grants := grants[id := grants[id].(polling := None)];
      polls := polls[poll := Poll(id, Some(event))];
    }

    method Enqueue(id: nat, event: PollEvent)
      requires id in grants
      modifies this
      ensures Value() == CompanionBroker.Enqueue(old(Value()), id, event)
    {
      if grants[id].polling.Some? {
        var shown := Delivered(id, event);
        FinishPoll(id, shown);
      } else if |grants[id].queue| < QUEUE_LIMIT {
        grants := grants[id := grants[id].(queue := grants[id].queue + [event])];
      }
    }

    method PollOnce(id: nat, peerId: string, aborted: bool) returns (outcome: Outcome<PollEvent>)
      modifies this
      ensures Value() == Polled(old(Value()), id, peerId, aborted)
      ensures outcome == old(PollOutcome(Value(), id, peerId, aborted))
    {
      if !Owns(grants, id, peerId) {
        return Fail(NotBound);
      }
      if aborted {
        return Fail(Aborted);
      }
      if grants[id].polling.Some? {
        return Fail(Busy);
      }
      var queue := grants[id].queue;
      if |queue| > 0 {
        grants := grants[id := grants[id].(queue := queue[1..])];
        var shown := Delivered(id, queue[0]);
        return Ok(shown);
      }
      var poll := next;
      next := next + 1;
      polls := polls[poll := Poll(id, None)];
      grants := grants[id := grants[id].(polling := Some(poll))];
      return Suspended(poll);
    }

    method EndPoll(poll: nat)
      modifies this
      ensures Value() == PollEnded(old(Value()), poll)
    {
      if poll in polls && polls[poll].event.None? && polls[poll].grant in grants
        && grants[polls[poll].grant].polling == Some(poll) {
        FinishPoll(polls[poll].grant, Idle);
      }
    }

    method ResumePoll(poll: nat, aborted: bool) returns (outcome: Outcome<PollEvent>)
      requires poll in polls && polls[poll].event.Some?
      modifies this
      ensures Value() == PollResumed(old(Value()), poll)
      ensures outcome == old(ResumeOutcome(Value(), poll, aborted))
    {
      var resolved := polls[poll];
      polls := polls - {poll};
      if aborted {
        return Fail(Aborted);
      }
      return if resolved.grant in grants then Ok(resolved.event.value) else Fail(NotBound);
    }

    method Settle(id: nat, request: nat, reply: Reply)
      requires id in grants
      modifies this
      ensures Value() == Finished(old(Value()), id, request, reply)
    {
      grants := grants[id := grants[id].(pending := grants[id].pending - {request})];
      owner := owner - {request};
      settled := settled[request := reply];
    }

    method Respond(id: nat, peerId: string, request: nat, reply: Reply) returns (outcome: Outcome<bool>)
      modifies this
      ensures Value() == Responded(old(Value()), id, peerId, request, reply)
      ensures outcome == old(RespondOutcome(Value(), id, peerId, request, reply))
    {
      if !Owns(grants, id, peerId) {
        return Fail(NotBound);
      }
      if request !in grants[id].pending || !grants[id].pending[request].delivered {
        return Fail(StaleRequest);
      }
      if reply.Answer? && !reply.matches {
        Settle(id, request, Failure(InvalidResponse));
        return Fail(InvalidResponse);
      }
      Settle(id, request, reply);
      return Ok(true);
    }

    method Read(sessionId: Option<string>, request: Request, aborted: bool) returns (outcome: Outcome<bool>)
      requires OnePerSession(grants)
      modifies this
      ensures Value() == ReadAdmitted(old(Value()), sessionId, request, aborted)
      ensures outcome == old(ReadOutcome(Value(), sessionId, request, aborted))
    {
      if aborted {
        return Fail(Aborted);
      }
      if sessionId.None? {
        return Fail(NotBound);
      }
      var grant := Session(sessionId.value);
      if grant.None? {
        return Fail(NotBound);
      }
      var id := grant.value;
      if request.capability.Some? && request.capability.value !in grants[id].capabilities {
        return Fail(Denied);
      }
      if |grants[id].pending| >= REQUEST_LIMIT || |grants[id].queue| >= QUEUE_LIMIT {
        return Fail(Busy);
      }
      var requestId := next;
      next := next + 1;
      grants := grants[id := grants[id].(pending := grants[id].pending[requestId := Pending(request, false)])];
      owner, asked := owner[requestId := id], asked + {requestId};
      Enqueue(id, Ask(requestId, request));
      return Suspended(requestId);
    }

    method FindQueued(queue: seq<PollEvent>, request: nat) returns (i: nat)
      ensures i == QueuedAt(queue, request)
    {
      i := 0;
      while i < |queue| && !(queue[i].Ask? && queue[i].id == request)
        invariant i <= |queue| && QueuedAt(queue, request) == i + QueuedAt(queue[i..], request)
      {
        assert queue[i..][1..] == queue[i + 1..];
        i := i + 1;
      }
    }

    method Cancel(request: nat, reason: Reason)
      modifies this
      ensures Value() == ReadCancelled(old(Value()), request, reason)
    {
      if request !in owner || owner[request] !in grants || request !in grants[owner[request]].pending {
        return;
      }
      var id := owner[request];
      var delivered := grants[id].pending[request].delivered;
      Settle(id, request, Failure(reason));
      var queue := grants[id].queue;
      var queued := FindQueued(queue, request);
      grants :=
        grants[id := grants[id].(queue := if queued < |queue| then queue[..queued] + queue[queued + 1..] else queue)];
      if delivered {
        Enqueue(id, Withdraw(request));
      }
    }

    // Every pending read of the grant fails, its queue is dropped and its poll let go.
    method Release(id: nat)
      modifies this
      ensures Value() == Released(old(Value()), id)
    {
      if id !in grants {
        return;
      }
      var g := grants[id];
      grants := grants - {id};
      settled := TellEach(settled, g.pending.Keys, Failure(NotBound));
      owner := owner - g.pending.Keys;
      assert (map r | r in g.pending :: Failure(NotBound)) == (map r | r in g.pending.Keys :: Failure(NotBound));
      if g.polling.Some? {
        polls := polls[g.polling.value := Poll(id, Some(Idle))];
      }
    }

    // Every waiter is told no, then the grants are released one after the other.
    method Dispose()
      requires Inv(Value())
      modifies this
      ensures Value() == Disposed(old(Value()))
    {
      WakeEveryone();
      WokenKeeps(old(Value()));
      assert Value() == Woken(old(Value()));
      ReleaseAll();
    }

    method ReleaseAll()
      requires Inv(Value()) && waiting == map[]
      modifies this
      ensures Value() == Disposed(old(Value()))
    {
      ghost var before := Disposed(Value());
      while grants != map[]
        invariant Inv(Value()) && waiting == map[] && Disposed(Value()) == before
        decreases grants.Keys
      {
        var id :| id in grants;
        ReleasedKeeps(Value(), id);
        DisposesTheRest(Value(), id);
        Release(id);
      }
      NothingLeft(Value());
    }

    method WakeEveryone()
      modifies this`waiting, this`woken
      ensures waiting == map[] && woken == WakeAll(old(woken), AllWaiters(old(waiting)), false)
    {
      while waiting != map[]
        invariant WakeAll(woken, AllWaiters(waiting), false) == WakeAll(old(woken), AllWaiters(old(waiting)), false)
        decreases waiting.Keys
      {
        var sessionId :| sessionId in waiting;
        WakesTheRest(woken, waiting, sessionId);
        WakeGroup(sessionId, false);
      }
    }

    method Detach(id: nat, peerId: string) returns (outcome: Outcome<bool>)
      modifies this
      ensures Value() == if old(Owns(grants, id, peerId)) then Released(old(Value()), id) else old(Value())
      ensures outcome == if old(Owns(grants, id, peerId)) then Ok(true) else Fail(NotBound)
    {
      if !Owns(grants, id, peerId) {
        return Fail(NotBound);
      }
      Release(id);
      return Ok(true);
    }

    method WaitForSession(sessionId: string, aborted: bool) returns (outcome: Outcome<bool>)
      requires OnePerSession(grants)
      modifies this
      ensures Value() == Waited(old(Value()), sessionId, aborted)
      ensures outcome == old(WaitOutcome(Value(), sessionId, aborted))
    {
      var grant := Session(sessionId);
      if grant.Some? {
        return Ok(true);
      }
      if aborted {
        return Ok(false);
      }
      var group := Group(waiting, sessionId);
      if |group| >= WAITER_LIMIT || (|waiting| >= WAITING_LIMIT && sessionId !in waiting) {
        return Ok(false);
      }
      var waiter := next;
      next := next + 1;
      waiting := waiting[sessionId := group + {waiter}];
      return Suspended(waiter);
    }

    method EndWait(sessionId: string, waiter: nat)
      modifies this
      ensures Value() == WaitEnded(old(Value()), sessionId, waiter)
    {
      if sessionId in waiting && waiter in waiting[sessionId] {
        var group := waiting[sessionId] - {waiter};
        woken := woken[waiter := false];
        if group == {} {
          waiting := waiting - {sessionId};
        } else {
          waiting := waiting[sessionId := group];
        }
      }
    }
  }

  // Resolves each of the promises with the value, one after the other.
  method TellEach<T>(told: map<nat, T>, promises: set<nat>, value: T) returns (after: map<nat, T>)
    ensures after == told + map p | p in promises :: value
  {
    after := told;
    var left := promises;
    while left != {}
      invariant left <= promises && after.Keys == told.Keys + (promises - left)
      invariant forall p :: p in after ==> after[p] == if p in promises && p !in left then value else told[p]
      decreases |left|
    {
      var p :| p in left;
      after := after[p := value];
      left := left - {p};
    }
  }

  // ---- disposal, one promise at a time ----

  lemma WakesTwice(woken: map<nat, bool>, some: set<nat>, rest: set<nat>)
    ensures WakeAll(WakeAll(woken, some, false), rest, false) == WakeAll(woken, some + rest, false)
  {
  }

  lemma WaitersSplit(waiting: map<string, set<nat>>, sessionId: string)
    requires sessionId in waiting
    ensures AllWaiters(waiting) == waiting[sessionId] + AllWaiters(waiting - {sessionId})
  {
    var rest := waiting - {sessionId};
    forall w | w in AllWaiters(waiting) ensures w in waiting[sessionId] || w in AllWaiters(rest) {
      var group :| group in waiting && w in waiting[group];
      assert group == sessionId || w in rest[group];
    }
    forall w | w in AllWaiters(rest) ensures w in AllWaiters(waiting) {
      var group :| group in rest && w in rest[group];
      assert w in waiting[group];
    }
  }

  lemma WakesTheRest(woken: map<nat, bool>, waiting: map<string, set<nat>>, sessionId: string)
    requires sessionId in waiting
    ensures WakeAll(WakeAll(woken, Group(waiting, sessionId), false), AllWaiters(waiting - {sessionId}), false)
         == WakeAll(woken, AllWaiters(waiting), false)
  {
    WaitersSplit(waiting, sessionId);
    WakesTwice(woken, waiting[sessionId], AllWaiters(waiting - {sessionId}));
  }

  ghost function Woken(s: State): State {
    s.(waiting := map[], woken := WakeAll(s.woken, AllWaiters(s.waiting), false))
  }

  lemma NobodyWaits(woken: map<nat, bool>)
    ensures WakeAll(woken, AllWaiters(map[]), false) == woken
  {
    assert AllWaiters(map[]) == {};
  }

  lemma WokenKeeps(s: State)
    requires Inv(s)
    ensures Inv(Woken(s)) && Disposed(Woken(s)) == Disposed(s)
  {
    WokenDisposed(s);
    WokenLines(s.grants, s.polls, s.waiting);
  }

  lemma WokenLines(grants: map<nat, Grant>, polls: map<nat, Poll>, waiting: map<string, set<nat>>)
    requires Lines(grants, polls, waiting)
    ensures Lines(grants, polls, map[])
  {
  }

  lemma WokenDisposed(s: State)
    ensures Disposed(Woken(s)) == Disposed(s)
  {
    NobodyWaits(Woken(s).woken);
  }

  lemma DisposesTheRest(s: State, id: nat)
    requires Inv(s) && id in s.grants && s.waiting == map[]
    ensures Disposed(Released(s, id)) == Disposed(s)
  {
    PendingOwned(s.grants, s.owner, id);
    FailsTheRest(s.settled, s.owner, s.grants[id].pending);
    IdlesTheRest(s, id);
  }

  lemma FailsTheRest(settled: map<nat, Reply>, owner: map<nat, nat>, pending: map<nat, Pending>)
    requires pending.Keys <= owner.Keys
    ensures (settled + map r | r in pending :: Failure(NotBound))
            + (map r | r in owner - pending.Keys :: Failure(NotBound))
         == settled + map r | r in owner :: Failure(NotBound)
  {
    assert (owner - pending.Keys).Keys + pending.Keys == owner.Keys;
  }

  lemma IdlesTheRest(s: State, id: nat)
    requires PollsOk(s.grants, s.polls) && id in s.grants
    ensures Disposed(Released(s, id)).polls == Disposed(s).polls
  {
  }

  lemma NothingLeft(s: State)
    requires Inv(s) && s.grants == map[] && s.waiting == map[]
    ensures Disposed(s) == s
  {
    NobodyWaits(s.woken);
    NothingOwned(s.grants, s.owner);
  }

  lemma NothingOwned(grants: map<nat, Grant>, owner: map<nat, nat>)
    requires OwnersOk(grants, owner) && grants == map[]
    ensures owner == map[]
  {
    assert owner.Keys == {};
  }

  lemma OnlyGrant(grants: map<nat, Grant>, sessionId: string, id: nat)
    requires OnePerSession(grants) && id in grants && grants[id].sessionId == sessionId
    ensures SessionGrant(grants, sessionId) == Some(id)
  {
    assert HasSession(grants, sessionId);
  }
}
