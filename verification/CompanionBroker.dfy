/**
 The broker between editor tools that read and the editor companions that answer: what each call,
 timer and abort does to its state. Calls suspend where the source awaits; what happens meanwhile is
 other steps.
 */
module CompanionBroker {
  import opened Options

  const GRANT_LIMIT := 16
  const REQUEST_LIMIT := 4
  const QUEUE_LIMIT := 32
  const WAITER_LIMIT := 4
  const WAITING_LIMIT := 16

  datatype Reason =
    | NotBound | Busy | Aborted | TimedOut | InvalidResponse | StaleRequest | Denied | Refused(text: string)

  datatype Request = Request(payload: string, capability: Option<string>)

  // A value either has the shape the request asks for or not.
  datatype Reply = Answer(value: string, matches: bool) | Failure(reason: Reason)

  datatype PollEvent = Idle | Ask(id: nat, request: Request) | Withdraw(id: nat)

  datatype Pending = Pending(request: Request, delivered: bool)

  datatype Grant = Grant(
    sessionId: string, ownerId: string, peerId: string, capabilities: seq<string>,
    pending: map<nat, Pending>, queue: seq<PollEvent>, polling: Option<nat>)

  // A suspended poll, and the event it has been resolved with.
  datatype Poll = Poll(grant: nat, event: Option<PollEvent>)

  // `owner` is the grant an outstanding read was asked of. `settled`, `asked`, `handed` and `woken`
  // record what the promises handed out have come to.
  datatype State = State(
    grants: map<nat, Grant>,
    owner: map<nat, nat>,
    waiting: map<string, set<nat>>,
    polls: map<nat, Poll>,
    settled: map<nat, Reply>,
    asked: set<nat>,
    handed: seq<nat>,
    woken: map<nat, bool>,
    next: nat)

  const EMPTY := State(map[], map[], map[], map[], map[], {}, [], map[], 0)

  datatype Outcome<T> = Ok(value: T) | Fail(reason: Reason) | Suspended(id: nat)

  predicate HasSession(grants: map<nat, Grant>, sessionId: string) {
    exists id :: id in grants && grants[id].sessionId == sessionId
  }

  ghost function SessionGrant(grants: map<nat, Grant>, sessionId: string): (r: Option<nat>)
    ensures r.Some? ==> r.value in grants && grants[r.value].sessionId == sessionId
    ensures r.None? <==> !HasSession(grants, sessionId)
  {
    if HasSession(grants, sessionId) then
      var id :| id in grants && grants[id].sessionId == sessionId;
      Some(id)
    else None
  }

  predicate Owns(grants: map<nat, Grant>, id: nat, peerId: string) {
    id in grants && grants[id].peerId == peerId
  }

  // ---- handing events out ----

  // Handing a request out marks it delivered; one that is gone is not handed out.
  function Marked(g: Grant, event: PollEvent): Grant {
    if event.Ask? && event.id in g.pending then
      g.(pending := g.pending[event.id := g.pending[event.id].(delivered := true)])
    else g
  }

  function Shown(g: Grant, event: PollEvent): PollEvent {
    if event.Ask? && event.id !in g.pending then Idle else event
  }

  function HandedIds(event: PollEvent): seq<nat> {
    if event.Ask? then [event.id] else []
  }

  function ResolvePoll(s: State, id: nat, event: PollEvent): State
    requires id in s.grants && s.grants[id].polling.Some?
  {
    s.(grants := s.grants[id := s.grants[id].(polling := None)],
    polls := s.polls[s.grants[id].polling.value := Poll(id, Some(event))])
  }

  function Enqueue(s: State, id: nat, event: PollEvent): State
    requires id in s.grants
  {
    var g := s.grants[id];
    if g.polling.Some? then
      ResolvePoll(s.(grants := s.grants[id := Marked(g, event)], handed := s.handed + HandedIds(Shown(g, event))), id,
                  Shown(g, event))
    else if |g.queue| < QUEUE_LIMIT then s.(grants := s.grants[id := g.(queue := g.queue + [event])])
    else s
  }

  // ---- the calls ----

  function Released(s: State, id: nat): State {
    if id !in s.grants then s
    else
      var g := s.grants[id];
      s.(grants := s.grants - {id},
      owner := s.owner - g.pending.Keys,
      settled := s.settled + map r | r in g.pending :: Failure(NotBound),
      polls := if g.polling.Some? then s.polls[g.polling.value := Poll(id, Some(Idle))] else s.polls)
  }

  predicate SameGrant(g: Grant, ownerId: string, peerId: string, capabilities: seq<string>) {
    && g.ownerId == ownerId && g.peerId == peerId && |g.capabilities| == |capabilities|
    && forall i :: 0 <= i < |g.capabilities| ==> g.capabilities[i] in capabilities
  }

  function WakeAll(woken: map<nat, bool>, group: set<nat>, available: bool): map<nat, bool> {
    woken + map w | w in group :: available
  }

  function Group(waiting: map<string, set<nat>>, sessionId: string): set<nat> {
    if sessionId in waiting then waiting[sessionId] else {}
  }

  ghost function Attached(s: State, sessionId: string, ownerId: string, peerId: string,
                          capabilities: seq<string>): State {
    if HasSession(s.grants, sessionId) || |s.grants| >= GRANT_LIMIT then s
    else
      s.(grants := s.grants[s.next := Grant(sessionId, ownerId, peerId, capabilities, map[], [], None)],
      woken := WakeAll(s.woken, Group(s.waiting, sessionId), true),
      waiting := s.waiting - {sessionId},
      next := s.next + 1)
  }

  ghost function AttachOutcome(s: State, sessionId: string, ownerId: string, peerId: string,
                               capabilities: seq<string>): Outcome<nat> {
    var existing := SessionGrant(s.grants, sessionId);
    if existing.Some? then
      if SameGrant(s.grants[existing.value], ownerId, peerId, capabilities) then Ok(existing.value) else Fail(Busy)
    else if |s.grants| >= GRANT_LIMIT then Fail(Busy)
    else Ok(s.next)
  }

  function Polled(s: State, id: nat, peerId: string, aborted: bool): State {
    if !Owns(s.grants, id, peerId) || aborted || s.grants[id].polling.Some? then s
    else
      var g := s.grants[id];
      if g.queue != [] then
        var rest := g.(queue := g.queue[1..]);
        s.(grants := s.grants[id := Marked(rest, g.queue[0])], handed := s.handed + HandedIds(Shown(rest, g.queue[0])))
      else
        s.(grants := s.grants[id := g.(polling := Some(s.next))], polls := s.polls[s.next := Poll(id, None)],
           next := s.next + 1)
  }

  function PollOutcome(s: State, id: nat, peerId: string, aborted: bool): Outcome<PollEvent> {
    if !Owns(s.grants, id, peerId) then Fail(NotBound)
    else if aborted then Fail(Aborted)
    else if s.grants[id].polling.Some? then Fail(Busy)
    else
      var g := s.grants[id];
      if g.queue != [] then Ok(Shown(g.(queue := g.queue[1..]), g.queue[0])) else Suspended(s.next)
  }

  // The poll's timer fires or its signal aborts before anything was handed to it.
  function PollEnded(s: State, poll: nat): State {
    if poll in s.polls && s.polls[poll].event.None? && s.polls[poll].grant in s.grants
       && s.grants[s.polls[poll].grant].polling == Some(poll) then ResolvePoll(s, s.polls[poll].grant, Idle)
    else s
  }

  // A resolved poll runs on; by then its signal may be aborted, or its grant released.
  function PollResumed(s: State, poll: nat): State {
    if poll in s.polls && s.polls[poll].event.Some? then s.(polls := s.polls - {poll}) else s
  }

  function ResumeOutcome(s: State, poll: nat, aborted: bool): Outcome<PollEvent>
    requires poll in s.polls && s.polls[poll].event.Some?
  {
    if aborted then Fail(Aborted)
    else if s.polls[poll].grant in s.grants then Ok(s.polls[poll].event.value)
    else Fail(NotBound)
  }

  function Finished(s: State, id: nat, request: nat, reply: Reply): State
    requires id in s.grants
  {
    var g := s.grants[id];
    s.(grants := s.grants[id := g.(pending := g.pending - {request})],
    owner := s.owner - {request},
    settled := s.settled[request := reply])
  }

  predicate MayAnswer(s: State, id: nat, peerId: string, request: nat) {
    Owns(s.grants, id, peerId) && request in s.grants[id].pending && s.grants[id].pending[request].delivered
  }

  function Responded(s: State, id: nat, peerId: string, request: nat, reply: Reply): State {
    if !MayAnswer(s, id, peerId, request) then s
    else Finished(s, id, request, if reply.Answer? && !reply.matches then Failure(InvalidResponse) else reply)
  }

  function RespondOutcome(s: State, id: nat, peerId: string, request: nat, reply: Reply): Outcome<bool> {
    if !Owns(s.grants, id, peerId) then Fail(NotBound)
    else if !MayAnswer(s, id, peerId, request) then Fail(StaleRequest)
    else if reply.Answer? && !reply.matches then Fail(InvalidResponse)
    else Ok(true)
  }

  // A read that no longer waits for its session: refused, or asked of the session's companion.
  ghost function ReadOutcome(s: State, sessionId: Option<string>, request: Request, aborted: bool): Outcome<bool> {
    if aborted then Fail(Aborted)
    else if sessionId.None? || !HasSession(s.grants, sessionId.value) then Fail(NotBound)
    else
      var g := s.grants[SessionGrant(s.grants, sessionId.value).value];
      if request.capability.Some? && request.capability.value !in g.capabilities then Fail(Denied)
      else if |g.pending| >= REQUEST_LIMIT || |g.queue| >= QUEUE_LIMIT then Fail(Busy)
      else Suspended(s.next)
  }

  function Asked(s: State, id: nat, request: Request): State
    requires id in s.grants
  {
    var g := s.grants[id];
    Enqueue(s.(grants := s.grants[id := g.(pending := g.pending[s.next := Pending(request, false)])],
               owner := s.owner[s.next := id], asked := s.asked + {s.next}, next := s.next + 1),
            id, Ask(s.next, request))
  }

  ghost function ReadAdmitted(s: State, sessionId: Option<string>, request: Request, aborted: bool): State {
    if ReadOutcome(s, sessionId, request, aborted).Suspended? then
      Asked(s, SessionGrant(s.grants, sessionId.value).value, request)
    else s
  }

  // The position of the queued request, or the length.
  function QueuedAt(queue: seq<PollEvent>, request: nat): (i: nat)
    ensures i <= |queue|
    ensures i < |queue| ==> queue[i].Ask? && queue[i].id == request
    ensures forall j :: 0 <= j < i ==> !(queue[j].Ask? && queue[j].id == request)
  {
    if queue == [] then 0
    else if queue[0].Ask? && queue[0].id == request then 0
    else QueuedAt(queue[1..], request) + 1
  }

  function Unqueued(queue: seq<PollEvent>, request: nat): seq<PollEvent> {
    var i := QueuedAt(queue, request);
    if i < |queue| then queue[..i] + queue[i + 1..] else queue
  }

  // Abort or timeout of a read: it settles, leaves the queue, and a companion that has it is told.
  function ReadCancelled(s: State, request: nat, reason: Reason): State {
    if request !in s.owner || s.owner[request] !in s.grants || request !in s.grants[s.owner[request]].pending then s
    else
      var id := s.owner[request];
      var delivered := s.grants[id].pending[request].delivered;
      var settled := Finished(s, id, request, Failure(reason));
      var g := settled.grants[id];
      var unqueued := settled.(grants := settled.grants[id := g.(queue := Unqueued(g.queue, request))]);
      if delivered then Enqueue(unqueued, id, Withdraw(request)) else unqueued
  }

  // ---- waiting for a session ----

  predicate MayWait(s: State, sessionId: string, aborted: bool) {
    && !HasSession(s.grants, sessionId) && !aborted
    && |Group(s.waiting, sessionId)| < WAITER_LIMIT
    && (sessionId in s.waiting || |s.waiting| < WAITING_LIMIT)
  }

  function Waited(s: State, sessionId: string, aborted: bool): State {
    if !MayWait(s, sessionId, aborted) then s
    else s.(waiting := s.waiting[sessionId := Group(s.waiting, sessionId) + {s.next}], next := s.next + 1)
  }

  function WaitOutcome(s: State, sessionId: string, aborted: bool): Outcome<bool> {
    if HasSession(s.grants, sessionId) then Ok(true)
    else if !MayWait(s, sessionId, aborted) then Ok(false)
    else Suspended(s.next)
  }

  // The waiter's timer fires or its signal aborts.
  function WaitEnded(s: State, sessionId: string, waiter: nat): State {
    if sessionId !in s.waiting || waiter !in s.waiting[sessionId] then s
    else
      var group := s.waiting[sessionId] - {waiter};
      s.(waiting := if group == {} then s.waiting - {sessionId} else s.waiting[sessionId := group],
      woken := s.woken[waiter := false])
  }

  function AllWaiters(waiting: map<string, set<nat>>): set<nat> {
    set sessionId, w | sessionId in waiting && w in waiting[sessionId] :: w
  }

  // Every waiter is told no, every grant released.
  function Disposed(s: State): State {
    s.(waiting := map[],
    woken := WakeAll(s.woken, AllWaiters(s.waiting), false),
    grants := map[],
    owner := map[],
    settled := s.settled + map r | r in s.owner :: Failure(NotBound),
    polls := map p | p in s.polls ::
      if s.polls[p].event.None? && s.polls[p].grant in s.grants && s.grants[s.polls[p].grant].polling == Some(p) then
        Poll(s.polls[p].grant, Some(Idle))
      else s.polls[p])
  }

  // ---- steps ----

  datatype Action =
    | Attach(sessionId: string, ownerId: string, peerId: string, capabilities: seq<string>)
    | LeaseExpires(id: nat)
    | PollCall(id: nat, peerId: string, aborted: bool)
    | PollEnds(poll: nat)
    | PollResumes(poll: nat)
    | Respond(id: nat, peerId: string, request: nat, reply: Reply)
    | Detach(id: nat, peerId: string)
    | ReadCall(session: Option<string>, asking: Request, aborted: bool)
    | CancelRead(request: nat, reason: Reason)
    | WaitCall(sessionId: string, aborted: bool)
    | WaitEnds(sessionId: string, waiter: nat)
    | Dispose

  ghost function Step(s: State, action: Action): State {
    match action
    case Attach(sessionId, ownerId, peerId, capabilities) => Attached(s, sessionId, ownerId, peerId, capabilities)
    case LeaseExpires(id) => Released(s, id)
    case PollCall(id, peerId, aborted) => Polled(s, id, peerId, aborted)
    case PollEnds(poll) => PollEnded(s, poll)
    case PollResumes(poll) => PollResumed(s, poll)
    case Respond(id, peerId, request, reply) => Responded(s, id, peerId, request, reply)
    case Detach(id, peerId) => if Owns(s.grants, id, peerId) then Released(s, id) else s
    case ReadCall(session, asking, aborted) => ReadAdmitted(s, session, asking, aborted)
    case CancelRead(request, reason) => ReadCancelled(s, request, reason)
    case WaitCall(sessionId, aborted) => Waited(s, sessionId, aborted)
    case WaitEnds(sessionId, waiter) => WaitEnded(s, sessionId, waiter)
    case Dispose => Disposed(s)
  }
}
