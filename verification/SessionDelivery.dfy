/**
 One session's slice of the stream controller, as a machine over the pieces that run between two
 `await`s. A step is one accepted frame, one piece of a snapshot replay, one pass of a drain loop,
 one settled history read, or one lifecycle event; a schedule is any sequence of steps.
 */
module SessionDelivery {
  import opened Options
  import opened OrderedDelivery

  // ---- the projection side channel ----

  datatype Projection = Projection(asOfSequence: int, keys: set<string>)

  datatype Fence = Fence(baseline: Option<int>, last: map<string, int>)
  {
    // Whether a projection row is newer than everything known for its key, and the fence after it.
    function Remember(key: string, sequence: int): (bool, Fence) {
      if baseline.Some? && sequence <= baseline.value then (false, this)
      else if key in last && sequence <= last[key] then (false, this)
      else (true, this.(last := last[key := sequence]))
    }

    function RememberBaseline(projection: Option<Projection>): Fence {
      if projection.None? then this
      else
        var asOf := projection.value.asOfSequence;
        if baseline.Some? && asOf <= baseline.value then this
        else
          Fence(Some(asOf),
                map key | key in last.Keys + projection.value.keys ::
                  if key in projection.value.keys && (key in last ==> last[key] < asOf) then asOf else last[key])
    }

    function Truncate(cursor: int): Fence {
      this.(last := map key | key in last && last[key] <= cursor :: last[key])
    }
  }

  const OPEN_FENCE := Fence(None, map[])

  // ---- rows from a snapshot or a history read ----

  function InsertSorted(event: Event, rows: seq<Event>): seq<Event> {
    if rows == [] || event.sequence.GetOr(0) <= rows[0].sequence.GetOr(0) then [event] + rows
    else [rows[0]] + InsertSorted(event, rows[1..])
  }

  // A stable sort by sequence.
  function Sorted(rows: seq<Event>): seq<Event> {
    if rows == [] then [] else InsertSorted(rows[0], Sorted(rows[1..]))
  }

  // A row below the cursor or above `through` is dropped, a stale projection only marks its position.
  function Absorb(d: Delivery, fence: Fence, event: Event, through: Option<int>): (Delivery, Fence) {
    if event.sequence.None? || event.sequence.value < d.nextSequence
       || (through.Some? && through.value < event.sequence.value) then (d, fence)
    else if event.projectionKey.Some? then
      var (isNew, fence') := fence.Remember(event.projectionKey.value, event.sequence.value);
      (if isNew then Queue(d, event.sequence.value, event) else Pass(d, event.sequence.value), fence')
    else (Queue(d, event.sequence.value, event), fence)
  }

  function AbsorbAll(d: Delivery, fence: Fence, rows: seq<Event>, through: Option<int>): (Delivery, Fence)
    decreases |rows|
  {
    if rows == [] then (d, fence)
    else
      var (d', fence') := Absorb(d, fence, rows[0], through);
      AbsorbAll(d', fence', rows[1..], through)
  }

  // ---- the machine ----

  // Where a drain stands: at the head of one of its loops (also while it yields there), waiting for
  // a history read, settled but not yet cleaned up, or gone.
  datatype Phase =
    | Looping
    | Recovering(fromSequence: int, toSequence: int)
    | Filling(toSequence: int)
    | Stopped
    | Done

  // A drain of the session's `epoch`-th delivery, started under the abort signal of one stream
  // generation.
  datatype Drain = Drain(epoch: nat, signal: nat, phase: Phase)

  // The delivery in the controller's map, with its drain bookkeeping. `owner` records which drain
  // works on it; no step reads that.
  datatype Slot = Slot(delivery: Delivery, draining: bool, drainSignal: Option<nat>, owner: Option<nat>)

  // An unfinished snapshot replay; the reader accepts nothing else meanwhile.
  datatype Replay = Replay(cursor: int, signal: nat, rows: seq<Event>, mode: ReplayMode)

  datatype ReplayMode =
    | Baseline(emitted: set<Event>)
    | Tail(epoch: nat, previous: int)

  datatype Output =
    | FromQueue(epoch: nat, item: Item)
    | Direct(event: Event)
    | Marker(cursor: int)

  // The session's deliveries and their drains. `retired` keeps the deliveries that were replaced or
  // dropped, oldest first: the current one, if there is one, is number |retired|.
  datatype Desk = Desk(current: Option<Slot>, retired: seq<Delivery>, drains: seq<Drain>)
  {
    // The controller's map still holds that very delivery.
    predicate Holds(epoch: nat) {
      current.Some? && epoch == |retired|
    }

    function Delivery(): Delivery
      requires current.Some?
    {
      current.value.delivery
    }

    function Drop(): Desk {
      if current.None? then this
      else Desk(None, retired + [current.value.delivery], drains)
    }

    function Replace(nextSequence: int): Desk {
      Drop().(current := Some(Slot(Create(nextSequence), false, None, None)))
    }

    function Ensure(nextSequence: int): Desk {
      if current.None? then Replace(nextSequence) else this
    }

    function With(d: Delivery): Desk
      requires current.Some?
    {
      this.(current := Some(current.value.(delivery := d)))
    }

    function RaiseRecovery(cursor: int): Desk
      requires current.Some?
    {
      With(Delivery().(recoveryThrough := Some(Max(Delivery().recoveryThrough.GetOr(-1), cursor))))
    }

    function StartDrain(signal: nat): Desk
      requires current.Some?
    {
      var slot := current.value.(drainSignal := Some(signal));
      if slot.draining then this.(current := Some(slot))
      else
        Desk(Some(slot.(draining := true, owner := Some(|drains|))), retired,
             drains + [Drain(|retired|, signal, Looping)])
    }

    function SetPhase(i: nat, phase: Phase): Desk
      requires i < |drains|
    {
      this.(drains := drains[i := drains[i].(phase := phase)])
    }

    // The `finally` of a drain: give the queue up, or hand it to the generation seen last. A closed
    // stream holds no delivery any more.
    function Settle(i: nat, abortedSignals: set<nat>): Desk
      requires i < |drains|
    {
      var settled := SetPhase(i, Done);
      if !Holds(drains[i].epoch) then settled
      else
        var slot := current.value.(draining := false, owner := None);
        var released := settled.(current := Some(slot));
        if slot.drainSignal.Some? && slot.drainSignal.value !in abortedSignals && HasWork(slot.delivery) then
          released.StartDrain(slot.drainSignal.value)
        else released
    }
  }

  predicate HasWork(d: Delivery) {
    d.recoveryThrough.Some? || d.pending != map[]
  }

  datatype Session = Session(
    bounded: bool,
    closed: bool,
    generation: nat,
    abortedSignals: set<nat>,
    lastSequence: Option<int>,
    subscribed: bool,
    snapshot: Option<seq<Event>>,
    fence: Fence,
    desk: Desk,
    replay: Option<Replay>,
    output: seq<Output>)
  {
    predicate Accepting() {
      !closed && generation !in abortedSignals && replay.None?
    }

    predicate Alive(drain: Drain) {
      !closed && drain.signal !in abortedSignals && desk.Holds(drain.epoch)
    }
  }

  function Init(bounded: bool): Session {
    Session(bounded, false, 0, {}, None, false, None, OPEN_FENCE, Desk(None, [], []), None, [])
  }

  // What a listener does while it is called: nothing, or tear the stream down after it has seen
  // `after` events of the bucket.
  datatype Reentry = Quiet | Unsubscribe | RestartAfter(after: nat) | CloseAfter(after: nat)

  datatype Step =
    | Row(event: Event)
    | Subscribed(cursor: int, projection: Option<Projection>)
    | ControlBaseline(projection: Option<Projection>)
    | ReplayRow
    | Removed
    | Restart
    | Close
    | EndGeneration
    | NextGeneration
    | DrainPass(drain: nat, reentry: Reentry, elapsed: nat)
    | Recovered(drain: nat, rows: seq<Event>)
    | Settle(drain: nat)

  function Emit(s: Session, output: Output): Session {
    s.(output := s.output + [output])
  }

  // A projection is passed on at once when it is news for its key.
  function EmitProjection(s: Session, event: Event): Session
    requires event.sequence.Some? && event.projectionKey.Some?
  {
    var (isNew, fence) := s.fence.Remember(event.projectionKey.value, event.sequence.value);
    if isNew then Emit(s.(fence := fence), Direct(event)) else s
  }

  function QueueRow(s: Session, event: Event): Session
    requires event.sequence.Some?
  {
    var sequence := event.sequence.value;
    var watermark := s.lastSequence.GetOr(-1);
    var desk := s.desk.Ensure(0);
    var d := desk.Delivery();
    if sequence < d.nextSequence || event in d.Bucket(sequence) then s.(lastSequence := Some(watermark), desk := desk)
    else
      s.(lastSequence := Some(Max(watermark, sequence)),
      desk := desk.With(Queue(d, sequence, event)).StartDrain(s.generation))
  }

  function AcceptRow(s: Session, event: Event): Session {
    if s.bounded && !s.subscribed && event.sequence.Some? then
      s.(snapshot := Some(s.snapshot.GetOr([]) + [event]))
    else if event.sequence.None? then Emit(s, Direct(event))
    else if event.projectionKey.Some? then EmitProjection(s, event)
    else QueueRow(s, event)
  }

  // The projection fence after a subscription cursor.
  function SubscribedFence(s: Session, cursor: int, projection: Option<Projection>): Fence {
    (if s.lastSequence.Some? && cursor < s.lastSequence.value then OPEN_FENCE else s.fence.Truncate(cursor))
    .RememberBaseline(projection)
  }

  // A cursor that follows a snapshot: replay it first.
  function SubscribeSnapshot(s: Session, cursor: int, rows: seq<Event>): Session {
    if s.lastSequence.None? || cursor < s.lastSequence.value then
      s.(replay := Some(Replay(cursor, s.generation, rows, Baseline({}))))
    else
      var desk := s.desk.Ensure(s.lastSequence.value + 1);
      s.(desk := desk, replay := Some(Replay(cursor, s.generation, rows, Tail(|desk.retired|, s.lastSequence.value))))
  }

  // The delivery a cursor without a snapshot calls for.
  function CursorDesk(desk: Desk, previous: Option<int>, cursor: int): Desk {
    if previous.None? || cursor < previous.value then desk.Replace(cursor + 1)
    else if previous.value < cursor then desk.Ensure(previous.value + 1).RaiseRecovery(cursor)
    else desk.Ensure(cursor + 1)
  }

  // Work left below the cursor is re-armed, and an advanced cursor is drained towards.
  function DrainTowards(desk: Desk, cursor: int, advanced: bool, signal: nat): Desk
    requires desk.current.Some?
  {
    if desk.Delivery().nextSequence <= cursor then desk.RaiseRecovery(cursor).StartDrain(signal)
    else if advanced then desk.StartDrain(signal)
    else desk
  }

  function AcceptSubscribed(s: Session, cursor: int, projection: Option<Projection>): Session {
    var fenced := s.(subscribed := true, fence := SubscribedFence(s, cursor, projection), snapshot := None);
    if s.snapshot.Some? then SubscribeSnapshot(fenced, cursor, Sorted(s.snapshot.value))
    else
      var advanced := s.lastSequence.Some? && s.lastSequence.value < cursor;
      Emit(fenced.(lastSequence := Some(cursor),
                   desk := DrainTowards(CursorDesk(s.desk, s.lastSequence, cursor), cursor, advanced, s.generation)),
           Marker(cursor))
  }

  // One row, or the end, of a first or moved-back snapshot.
  function ReplayBaseline(s: Session, r: Replay): Session
    requires r.mode.Baseline?
  {
    if r.rows == [] then
      Emit(s.(lastSequence := Some(r.cursor), replay := None, desk := s.desk.Replace(r.cursor + 1)), Marker(r.cursor))
    else
      var event := r.rows[0];
      var rest := s.(replay := Some(r.(rows := r.rows[1..], mode := Baseline(r.mode.emitted + {event}))));
      if event in r.mode.emitted then rest
      else if event.projectionKey.None? then Emit(rest, Direct(event))
      else if event.sequence.None? then rest
      else EmitProjection(rest, event)
  }

  // One row, or the end, of a reconnect snapshot, which stays behind the old cursor.
  function ReplayTail(s: Session, r: Replay): Session
    requires r.mode.Tail?
  {
    if !s.desk.Holds(r.mode.epoch) then s.(replay := None)
    else if r.rows == [] then
      Emit(s.(lastSequence := Some(Max(r.mode.previous, r.cursor)), replay := None,
              desk := s.desk.RaiseRecovery(r.cursor).StartDrain(r.signal)), Marker(r.cursor))
    else
      var (d, fence) := Absorb(s.desk.Delivery(), s.fence, r.rows[0], None);
      s.(fence := fence, replay := Some(r.(rows := r.rows[1..])), desk := s.desk.With(d))
  }

  function ReplayStep(s: Session): Session {
    if s.replay.None? then s
    else
      var r := s.replay.value;
      if r.signal in s.abortedSignals || s.closed then s.(replay := None)
      else if r.mode.Baseline? then ReplayBaseline(s, r)
      else ReplayTail(s, r)
  }

  function AbortGeneration(s: Session): Session {
    s.(abortedSignals := s.abortedSignals + {s.generation})
  }

  function Forget(s: Session): Session {
    s.(desk := s.desk.Drop(), lastSequence := None, subscribed := false, snapshot := None, fence := OPEN_FENCE)
  }

  function React(s: Session, reentry: Reentry): Session {
    match reentry
    case Quiet => s
    case Unsubscribe => AbortGeneration(s)
    case RestartAfter(_) => if s.closed then s else AbortGeneration(Forget(s))
    case CloseAfter(_) => if s.closed then s else AbortGeneration(s).(closed := true, desk := s.desk.Drop())
  }

  // How many of `count` events a listener sees before it tears the delivery down.
  function SeenBy(reentry: Reentry, count: nat): (seen: nat)
    ensures seen <= count
  {
    if (reentry.RestartAfter? || reentry.CloseAfter?) && 0 < reentry.after < count then reentry.after else count
  }

  function PhaseAfter(phase: Phase, outcome: Outcome): Phase {
    match outcome
    case Again => phase
    case Yield => phase
    case Recover(a, b) => Recovering(a, b)
    case Leave => if phase.Looping? then Stopped else Looping
  }

  ghost function LoopPass(phase: Phase, d: Delivery, delivered: nat, elapsed: nat): (Delivery, Outcome)
    requires phase.Looping? || phase.Filling?
  {
    if phase.Looping? then DrainIteration(d, delivered, elapsed)
    else FillIteration(d, phase.toSequence, delivered, elapsed)
  }

  // What one pass logged, if anything, reaches the listeners, and they may react.
  function HandOver(s: Session, before: seq<Item>, reentry: Reentry): Session
    requires s.desk.current.Some?
  {
    var log := s.desk.Delivery().log;
    if log == before || log == [] then s
    else
      var item := log[|log| - 1];
      var handed := Emit(s, FromQueue(|s.desk.retired|, item));
      if item.Skipped? then handed else React(handed, reentry)
  }

  ghost function RunDrain(s: Session, i: nat, reentry: Reentry, elapsed: nat): Session
    requires i < |s.desk.drains| && (s.desk.drains[i].phase.Looping? || s.desk.drains[i].phase.Filling?)
  {
    var drain := s.desk.drains[i];
    if !s.Alive(drain) then s.(desk := s.desk.SetPhase(i, if drain.phase.Looping? then Stopped else Looping))
    else
      var d := s.desk.Delivery();
      var (d', outcome) := LoopPass(drain.phase, d, SeenBy(reentry, |d.Bucket(d.nextSequence)|), elapsed);
      HandOver(s.(desk := s.desk.With(d').SetPhase(i, PhaseAfter(drain.phase, outcome))), d.log, reentry)
  }

  // A history read settles; a failed one brings no rows.
  function Resume(s: Session, i: nat, rows: seq<Event>): Session
    requires i < |s.desk.drains| && s.desk.drains[i].phase.Recovering?
  {
    var drain := s.desk.drains[i];
    if !s.Alive(drain) then s.(desk := s.desk.SetPhase(i, Looping))
    else
      var (d, fence) := AbsorbAll(s.desk.Delivery(), s.fence, Sorted(rows), Some(drain.phase.toSequence));
      s.(fence := fence, desk := s.desk.With(d).SetPhase(i, Filling(drain.phase.toSequence)))
  }

  ghost function Next(s: Session, step: Step): Session {
    match step
    case Row(event) => if s.Accepting() then AcceptRow(s, event) else s
    case Subscribed(cursor, projection) => if s.Accepting() then AcceptSubscribed(s, cursor, projection) else s
    case ControlBaseline(projection) =>
      if s.Accepting() then s.(fence := OPEN_FENCE.RememberBaseline(projection)) else s
    case ReplayRow => ReplayStep(s)
    case Removed => if s.Accepting() then Forget(s) else s
    case Restart => React(s, RestartAfter(0))
    case Close => React(s, CloseAfter(0))
    case EndGeneration => AbortGeneration(s)
    case NextGeneration =>
      if s.closed || s.generation !in s.abortedSignals || s.replay.Some? then s
      else if s.bounded then s.(generation := s.generation + 1, subscribed := false, snapshot := None)
      else s.(generation := s.generation + 1)
    case DrainPass(i, reentry, elapsed) =>
      if i < |s.desk.drains| && (s.desk.drains[i].phase.Looping? || s.desk.drains[i].phase.Filling?) then
        RunDrain(s, i, reentry, elapsed)
      else s
    case Recovered(i, rows) =>
      if i < |s.desk.drains| && s.desk.drains[i].phase.Recovering? then Resume(s, i, rows) else s
    case Settle(i) =>
      if i < |s.desk.drains| && s.desk.drains[i].phase.Stopped? then
        s.(desk := s.desk.Settle(i, s.abortedSignals))
      else s
  }

  ghost function Run(s: Session, steps: seq<Step>): Session
    decreases |steps|
  {
    if steps == [] then s else Run(Next(s, steps[0]), steps[1..])
  }
}
