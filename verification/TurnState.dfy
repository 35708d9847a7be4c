/**
 What a transition of the reducer does to the turns: which is active, which are closed, when their
 steps began, and the usage ledger of each.
 */
module TurnState {
  import opened Options
  import opened TimelineNodes
  import opened TurnLedger

  datatype Turns = Turns(
    timings: map<(int, int), Timing>,
    usage: map<int, TurnUsage>,
    active: Option<int>,
    closed: set<int>)

  function EntryOf(usage: map<int, TurnUsage>, turn: int): Option<TurnUsage> {
    if turn in usage then Some(usage[turn]) else None
  }

  function Put(usage: map<int, TurnUsage>, turn: int, entry: Option<TurnUsage>): map<int, TurnUsage> {
    match entry
    case Some(value) => usage[turn := value]
    case None => usage - {turn}
  }

  // The ledger entry an event addresses, and what it means there.
  datatype Addressed = Addressed(turn: int, event: TurnEvent)

  function UsageEvent(turns: Turns, event: Event): Option<Addressed> {
    match event
    case TurnStarted(turn) => Some(Addressed(turn, TurnStart(turn in turns.closed)))
    case StepStarted(turn, step, _) => Some(Addressed(turn, StepStart(step)))
    case MessageDelta(d) =>
      if d.turn.Some? then Some(Addressed(d.turn.value, Activity(d.step)))
      else if turns.active.Some? then Some(Addressed(turns.active.value, Invalidated))
      else None
    case MessageCompleted(c) =>
      if c.turn.Some? then Some(Addressed(c.turn.value, Settled(c.step, c.usage, true)))
      else if turns.active.Some? then Some(Addressed(turns.active.value, Invalidated))
      else None
    case AssistantAttempt(turn, step, usage) => Some(Addressed(turn, Settled(Some(step), usage, false)))
    case StepEnded(turn, step) => Some(Addressed(turn, StepEnd(step)))
    case ModelRetry(r) =>
      Some(Addressed(r.turn,
                     if r.begun then RetryStarted(r.step, r.id, r.attempt) else Scheduled(r.step, r.id, r.attempt)))
    case _ => None
  }

  function UsageAfter(turns: Turns, event: Event): map<int, TurnUsage> {
    if event.TurnEnded? then turns.usage - {event.turn}
    else
      match UsageEvent(turns, event)
      case Some(a) => Put(turns.usage, a.turn, Apply(EntryOf(turns.usage, a.turn), a.event))
      case None => turns.usage
  }

  // The turn an event opens, unless that turn is closed.
  function OpenedTurn(event: Event): Option<int> {
    match event
    case StepStarted(turn, _, _) => Some(turn)
    case MessageDelta(d) => d.turn
    case MessageCompleted(c) => c.turn
    case AssistantAttempt(turn, _, _) => Some(turn)
    case StepEnded(turn, _) => Some(turn)
    case ToolUpdated(_, tool) => tool.turn
    case ModelRetry(r) => Some(r.turn)
    case _ => None
  }

  function ActiveAfter(turns: Turns, event: Event): Option<int> {
    match event
    case TurnStarted(turn) => Some(turn)
    case TurnEnded(turn, _, _) => if turns.active == Some(turn) then None else turns.active
    case ConnectionLost(_) => None
    case _ =>
      if OpenedTurn(event).Some? && OpenedTurn(event).value !in turns.closed then OpenedTurn(event) else turns.active
  }

  function TimingAt(timings: map<(int, int), Timing>, key: (int, int)): Timing {
    if key in timings then timings[key] else Timing(None, None, None)
  }

  // The timing a delta's row shows: its step's, the first token noted.
  function NoteFirstToken(timings: map<(int, int), Timing>, turn: Option<int>, step: Option<int>,
                          time: Option<int>): Option<Timing> {
    if turn.None? || step.None? then None
    else
      var key := (turn.value, step.value);
      if time.None? then if key in timings then Some(timings[key]) else None
      else
        var previous := TimingAt(timings, key);
        Some(if previous.firstToken.None? then previous.(firstToken := time) else previous)
  }

  function CompleteTiming(timings: map<(int, int), Timing>, turn: Option<int>, step: Option<int>,
                          time: Option<int>): Option<Timing> {
    if turn.None? || step.None? then None
    else
      var key := (turn.value, step.value);
      if time.None? then if key in timings then Some(timings[key]) else None
      else Some(TimingAt(timings, key).(completed := time))
  }

  function TimingsAfter(turns: Turns, event: Event): map<(int, int), Timing> {
    match event
    case TurnEnded(turn, _, _) => map key | key in turns.timings && key.0 != turn :: turns.timings[key]
    case StepStarted(turn, step, time) =>
      if time.None? then turns.timings
      else turns.timings[(turn, step) := TimingAt(turns.timings, (turn, step)).(stepStart := time)]
    case MessageDelta(d) =>
      var timing := NoteFirstToken(turns.timings, d.turn, d.step, d.time);
      if d.delta == "" || timing.None? then turns.timings
      else turns.timings[(d.turn.value, d.step.value) := timing.value]
    case MessageCompleted(c) =>
      if c.turn.None? || c.step.None? then turns.timings else turns.timings - {(c.turn.value, c.step.value)}
    case StepEnded(turn, step) => turns.timings - {(turn, step)}
    case _ => turns.timings
  }

  function ClosedAfter(turns: Turns, event: Event): set<int> {
    match event
    case TurnStarted(turn) => turns.closed - {turn}
    case TurnEnded(turn, _, _) => turns.closed + {turn}
    case _ => turns.closed
  }

  function Track(turns: Turns, event: Event): Turns {
    Turns(TimingsAfter(turns, event), UsageAfter(turns, event), ActiveAfter(turns, event), ClosedAfter(turns, event))
  }
}
