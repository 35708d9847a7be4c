/**
 What becomes of a request that was handed to a suspended poll: it reaches the companion when that poll runs on, or
 nobody ever.
 */
module BrokerDelivery {
  import opened BrokerInvariant
  import opened BrokerRuns
  import opened CompanionBroker
  import opened Options
  import opened Runs

  predicate Carries(polls: map<nat, Poll>, p: nat, request: nat) {
    p in polls && polls[p].event.Some? && polls[p].event.value.Ask? && polls[p].event.value.id == request
  }

  // What polls carry was handed out, each request to one of them.
  ghost predicate Carried(polls: map<nat, Poll>, handed: seq<nat>) {
    && (forall p, r :: Carries(polls, p, r) ==> r in handed)
    && (forall p, q, r :: Carries(polls, p, r) && Carries(polls, q, r) ==> p == q)
  }

  // Of all polls only `k` may come to carry something, and that was not handed out before.
  ghost predicate OneMore(s: State, t: State, k: nat) {
    && (forall p, r :: Carries(t.polls, p, r) && p != k ==> Carries(s.polls, p, r))
    && (forall r :: Carries(t.polls, k, r) ==> Carries(s.polls, k, r) || (r !in s.handed && r in t.handed))
    && s.handed <= t.handed
  }

  lemma OneMoreCarried(s: State, t: State, k: nat)
    requires Carried(s.polls, s.handed) && OneMore(s, t, k)
    ensures Carried(t.polls, t.handed)
  {
    forall p, r | Carries(t.polls, p, r) ensures r in t.handed {
      if r in s.handed {
        var i :| 0 <= i < |s.handed| && s.handed[i] == r;
        assert t.handed[i] == r;
      }
    }
  }

  lemma AskCarries(s: State, id: nat, request: Request)
    requires id in s.grants && s.next !in s.handed
    ensures OneMore(s, Asked(s, id, request), s.grants[id].polling.GetOr(0))
  {
    if s.grants[id].polling.Some? {
      AskedHanded(s, id, request);
    }
  }

  lemma CancelCarries(s: State, request: nat, reason: Reason)
    ensures OneMore(s, ReadCancelled(s, request, reason), 0)
  {
  }

  lemma QuietCarries(s: State, action: Action)
    requires !action.ReadCall? && !action.CancelRead?
    ensures OneMore(s, Step(s, action), 0)
  {
  }

  lemma NextIsNew(s: State)
    requires Inv(s)
    ensures s.next !in s.handed
  {
    HandedBelow(s.handed, s.asked, s.next);
  }

  lemma StepCarries(s: State, action: Action) returns (k: nat)
    requires s.next !in s.handed
    ensures OneMore(s, Step(s, action), k)
  {
    StepIs(s, action);
    k := 0;
    match action {
      case ReadCall(session, asking, aborted) =>
        if ReadOutcome(s, session, asking, aborted).Suspended? {
          var id := SessionGrant(s.grants, session.value).value;
          AskCarries(s, id, asking);
          k := s.grants[id].polling.GetOr(0);
        }
      case CancelRead(request, reason) => CancelCarries(s, request, reason);
      case _ => QuietCarries(s, action);
    }
  }

  // The invariant with what is on its way.
  ghost predicate InvCarried(s: State) {
    Inv(s) && Carried(s.polls, s.handed)
  }

  lemma CarriedStep(s: State, action: Action)
    requires InvCarried(s)
    ensures InvCarried(Step(s, action))
  {
    NextIsNew(s);
    var k := StepCarries(s, action);
    OneMoreCarried(s, Step(s, action), k);
    StepKeeps(s, action);
  }

  lemma CarriedReachable(actions: seq<Action>)
    ensures InvCarried(Run(Step, EMPTY, actions))
  {
    var holds := (s: State, past: seq<Action>) => InvCarried(s);
    forall s: State, past: seq<Action>, action: Action | holds(s, past)
      ensures holds(Step(s, action), past + [action]) {
      CarriedStep(s, action);
    }
    assert actions[..0] == [];
    RunKeeps(Step, holds, (action: Action) => true, EMPTY, actions, 0);
  }

  // ---- handed out, and on its way to nobody ----

  ghost predicate Gone(s: State, request: nat) {
    InvCarried(s) && request in s.handed && forall p :: !Carries(s.polls, p, request)
  }

  lemma GoneStep(s: State, request: nat, action: Action)
    requires Gone(s, request)
    ensures Gone(Step(s, action), request)
  {
    NextIsNew(s);
    CarriedStep(s, action);
    var k := StepCarries(s, action);
    var i :| 0 <= i < |s.handed| && s.handed[i] == request;
    assert Step(s, action).handed[i] == request;
  }

  lemma {:induction false} GoneForGood(s: State, request: nat, actions: seq<Action>)
    requires Gone(s, request)
    ensures Gone(Run(Step, s, actions), request)
    decreases |actions|
  {
    if actions != [] {
      GoneForGood(s, request, actions[..|actions| - 1]);
      GoneStep(Run(Step, s, actions[..|actions| - 1]), request, actions[|actions| - 1]);
    }
  }

  // Some poll, called or resumed now, would return the request.
  ghost predicate Returned(s: State, request: nat) {
    || (exists id, peerId, aborted, asked :: PollOutcome(s, id, peerId, aborted) == Ok(Ask(request, asked)))
    || (exists p, aborted, asked ::
          p in s.polls && s.polls[p].event.Some? && ResumeOutcome(s, p, aborted) == Ok(Ask(request, asked)))
  }

  // What was handed out is queued nowhere.
  lemma HandedIsNotQueued(g: Grant, handed: seq<nat>, request: nat, i: nat)
    requires GrantOk(g, handed) && request in handed && i < |g.queue| && g.queue[i].Ask?
    ensures g.queue[i].id != request
  {
    AskIsQueued(g.queue, i);
  }

  lemma NotAtHead(grants: map<nat, Grant>, handed: seq<nat>, id: nat, request: nat)
    requires EachOk(grants, handed) && id in grants && grants[id].queue != [] && request in handed
    ensures grants[id].queue[0].Ask? ==> grants[id].queue[0].id != request
  {
    if grants[id].queue[0].Ask? {
      HandedIsNotQueued(grants[id], handed, request, 0);
    }
  }

  lemma PollReturnsAnother(s: State, request: nat, id: nat, peerId: string, aborted: bool, asked: Request)
    requires EachOk(s.grants, s.handed) && request in s.handed
    ensures PollOutcome(s, id, peerId, aborted) != Ok(Ask(request, asked))
  {
    if id in s.grants && s.grants[id].queue != [] {
      NotAtHead(s.grants, s.handed, id, request);
    }
  }

  lemma ResumeReturnsAnother(s: State, request: nat, p: nat, aborted: bool, asked: Request)
    requires !Carries(s.polls, p, request) && p in s.polls && s.polls[p].event.Some?
    ensures ResumeOutcome(s, p, aborted) != Ok(Ask(request, asked))
  {
  }

  lemma NoneReturns(s: State, request: nat)
    requires EachOk(s.grants, s.handed) && request in s.handed && forall p :: !Carries(s.polls, p, request)
    ensures !Returned(s, request)
  {
    forall id, peerId, aborted, asked ensures PollOutcome(s, id, peerId, aborted) != Ok(Ask(request, asked)) {
      PollReturnsAnother(s, request, id, peerId, aborted, asked);
    }
    forall p, aborted, asked | p in s.polls && s.polls[p].event.Some?
      ensures ResumeOutcome(s, p, aborted) != Ok(Ask(request, asked))
    {
      ResumeReturnsAnother(s, request, p, aborted, asked);
    }
  }

  // ---- the poll that has it runs on ----

  lemma ResumedIsGone(s: State, p: nat, request: nat)
    requires InvCarried(s) && Carries(s.polls, p, request)
    ensures Gone(Step(s, PollResumes(p)), request)
  {
    CarriedStep(s, PollResumes(p));
    ResumedCarriesNot(s, p, request);
  }

  lemma ResumedCarriesNot(s: State, p: nat, request: nat)
    requires Carried(s.polls, s.handed) && Carries(s.polls, p, request)
    ensures var t := Step(s, PollResumes(p));
      request in t.handed && forall q :: !Carries(t.polls, q, request)
  {
    var t := Step(s, PollResumes(p));
    assert t.polls == s.polls - {p} && t.handed == s.handed;
    forall q ensures !Carries(t.polls, q, request) {
      assert Carries(t.polls, q, request) ==> Carries(s.polls, q, request);
    }
  }

  /**
   In every reachable state, a poll that a request was handed to brings it to the companion if and only if its signal is
   not aborted and its grant is still there when it runs on. After that, delivered or not, no call in any later state
   returns the request again.
   */
  lemma ReachesItsCompanion(past: seq<Action>, p: nat, id: nat, asked: Request, aborted: bool, later: seq<Action>)
    requires p in Run(Step, EMPTY, past).polls && Run(Step, EMPTY, past).polls[p].event == Some(Ask(id, asked))
    ensures var s := Run(Step, EMPTY, past);
      && (ResumeOutcome(s, p, aborted) == Ok(Ask(id, asked)) <==> !aborted && s.polls[p].grant in s.grants)
      && !Returned(Run(Step, Step(s, PollResumes(p)), later), id)
  {
    var s := Run(Step, EMPTY, past);
    CarriedReachable(past);
    assert Carries(s.polls, p, id);
    ResumedIsGone(s, p, id);
    GoneForGood(Step(s, PollResumes(p)), id, later);
    var t := Run(Step, Step(s, PollResumes(p)), later);
    NoneReturns(t, id);
  }

  // ---- how its read settles then ----

  // What an action may settle a read with, when the action is no answer to it.
  ghost predicate SettledBy(action: Action, request: nat, reply: Reply) {
    match action
    case CancelRead(r, reason) => r == request && reply == Failure(reason)
    case LeaseExpires(_) => reply == Failure(NotBound)
    case Detach(_, _) => reply == Failure(NotBound)
    case Dispose => reply == Failure(NotBound)
    case _ => false
  }

  lemma SettlingStep(s: State, action: Action, request: nat)
    requires request !in s.settled && request in Step(s, action).settled
    requires action.Respond? ==> action.request != request
    ensures SettledBy(action, request, Step(s, action).settled[request])
  {
    StepIs(s, action);
    match action {
      case ReadCall(session, asking, aborted) => AskSettlesNothing(s, session, asking, aborted);
      case CancelRead(r, reason) => CancelSettles(s, r, reason, request);
      case Attach(sessionId, ownerId, peerId, capabilities) =>
      case _ => OtherwiseSettled(s, action, request);
    }
  }

  lemma AskSettlesNothing(s: State, session: Option<string>, asking: Request, aborted: bool)
    ensures ReadAdmitted(s, session, asking, aborted).settled == s.settled
  {
  }

  lemma CancelSettles(s: State, r: nat, reason: Reason, request: nat)
    requires request !in s.settled && request in ReadCancelled(s, r, reason).settled
    ensures r == request && ReadCancelled(s, r, reason).settled[request] == Failure(reason)
  {
    var id := s.owner[r];
    CancelIs(s, r, reason);
    EnqueueSettlesNothing(Left(s, id, r, Failure(reason)), id, Withdraw(r));
  }

  lemma EnqueueSettlesNothing(s: State, id: nat, event: PollEvent)
    requires id in s.grants
    ensures Enqueue(s, id, event).settled == s.settled
  {
  }

  lemma OtherwiseSettled(s: State, action: Action, request: nat)
    requires !action.ReadCall? && !action.CancelRead? && !action.Attach?
    requires request !in s.settled && request in Step(s, action).settled
    requires action.Respond? ==> action.request != request
    ensures SettledBy(action, request, Step(s, action).settled[request])
  {
  }

  /**
   A companion that never saw the request cannot name it. Whatever else happens, its read settles only when it is
   cancelled or times out, or when the grant goes: with that failure, never with an answer.
   */
  lemma {:induction false} SettlesUnanswered(s: State, request: nat, actions: seq<Action>)
    requires Inv(s) && request !in s.settled
    requires forall i :: 0 <= i < |actions| && actions[i].Respond? ==> actions[i].request != request
    ensures var t := Run(Step, s, actions);
      request in t.settled ==> exists i :: 0 <= i < |actions| && SettledBy(actions[i], request, t.settled[request])
    decreases |actions|
  {
    if actions != [] {
      var init, last := actions[..|actions| - 1], actions[|actions| - 1];
      var before := Run(Step, s, init);
      SettlesUnanswered(s, request, init);
      SettlesOnce(s, init);
      if request in before.settled {
        StepRemembers(before, last);
        var i :| 0 <= i < |init| && SettledBy(init[i], request, before.settled[request]);
        assert SettledBy(actions[i], request, before.settled[request]);
      } else if request in Step(before, last).settled {
        SettlingStep(before, last, request);
        assert SettledBy(actions[|actions| - 1], request, Step(before, last).settled[request]);
      }
    }
  }

  // A request that does not reach its companion is lost for good: nobody is given it later, and its read, if it has not
  // settled yet, fails when it is cancelled, times out or loses its grant.
  lemma LostForGood(past: seq<Action>, p: nat, id: nat, asked: Request, aborted: bool, later: seq<Action>)
    requires p in Run(Step, EMPTY, past).polls && Run(Step, EMPTY, past).polls[p].event == Some(Ask(id, asked))
    requires aborted || Run(Step, EMPTY, past).polls[p].grant !in Run(Step, EMPTY, past).grants
    requires forall i :: 0 <= i < |later| && later[i].Respond? ==> later[i].request != id
    ensures var s := Run(Step, EMPTY, past);
      var t := Run(Step, Step(s, PollResumes(p)), later);
      && ResumeOutcome(s, p, aborted).Fail? && !Returned(t, id)
      && (id !in s.settled && id in t.settled ==>
            exists i :: 0 <= i < |later| && SettledBy(later[i], id, t.settled[id]))
  {
    var s := Run(Step, EMPTY, past);
    ReachesItsCompanion(past, p, id, asked, aborted, later);
    CarriedReachable(past);
    if id !in s.settled {
      SettlesAfterwards(s, p, id, later);
    }
  }

  lemma SettlesAfterwards(s: State, p: nat, request: nat, later: seq<Action>)
    requires Inv(s) && request !in s.settled
    requires forall i :: 0 <= i < |later| && later[i].Respond? ==> later[i].request != request
    ensures var t := Run(Step, Step(s, PollResumes(p)), later);
      request in t.settled ==> exists i :: 0 <= i < |later| && SettledBy(later[i], request, t.settled[request])
  {
    StepKeeps(s, PollResumes(p));
    ResumeSettlesNothing(s, p);
    SettlesUnanswered(Step(s, PollResumes(p)), request, later);
  }

  lemma ResumeSettlesNothing(s: State, p: nat)
    ensures Step(s, PollResumes(p)).settled == s.settled
  {
  }
}
