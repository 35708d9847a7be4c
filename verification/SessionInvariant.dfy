/** What every schedule of a session's delivery keeps. */
module SessionInvariant {
  import opened Options
  import opened OrderedDelivery
  import opened DeliveryInvariant
  import opened SessionDelivery

  // ---- control: who drains what, and under which generation ----

  ghost predicate Attached(desk: Desk, i: nat) {
    i < |desk.drains| && desk.drains[i].epoch == |desk.retired| && desk.drains[i].phase != Done
  }

  // Of the drains that are not gone, the current delivery's owner is the only one attached to it.
  ghost predicate DrainsOk(desk: Desk) {
    && (forall i :: 0 <= i < |desk.drains| ==>
          desk.drains[i].epoch < |desk.retired| || desk.Holds(desk.drains[i].epoch))
    && (desk.current.Some? ==>
          && (forall i: nat :: Attached(desk, i) ==> desk.current.value.owner == Some(i))
          && (desk.current.value.owner.Some? ==> Attached(desk, desk.current.value.owner.value))
          && desk.current.value.draining == desk.current.value.owner.Some?)
  }

  lemma DrainsReplace(desk: Desk, nextSequence: int)
    requires DrainsOk(desk)
    ensures DrainsOk(desk.Drop()) && DrainsOk(desk.Replace(nextSequence)) && DrainsOk(desk.Ensure(nextSequence))
  {
  }

  lemma DrainsWith(desk: Desk, d: Delivery)
    requires DrainsOk(desk) && desk.current.Some?
    ensures DrainsOk(desk.With(d))
  {
  }

  lemma DrainsStart(desk: Desk, signal: nat)
    requires DrainsOk(desk) && desk.current.Some?
    ensures DrainsOk(desk.StartDrain(signal))
  {
  }

  lemma DrainsSetPhase(desk: Desk, i: nat, phase: Phase)
    requires DrainsOk(desk) && i < |desk.drains| && desk.drains[i].phase != Done && phase != Done
    ensures DrainsOk(desk.SetPhase(i, phase))
  {
    var after := desk.SetPhase(i, phase);
    assert forall j: nat :: Attached(after, j) <==> Attached(desk, j);
  }

  lemma DrainsSettle(desk: Desk, i: nat, abortedSignals: set<nat>)
    requires DrainsOk(desk) && i < |desk.drains| && desk.drains[i].phase != Done
    ensures DrainsOk(desk.Settle(i, abortedSignals))
  {
    var settled := desk.SetPhase(i, Done);
    assert forall j: nat :: Attached(settled, j) <==> Attached(desk, j) && j != i;
    if desk.Holds(desk.drains[i].epoch) {
      assert Attached(desk, i);
      var released := settled.(current := Some(desk.current.value.(draining := false, owner := None)));
      assert forall j: nat :: Attached(released, j) <==> Attached(settled, j);
      assert DrainsOk(released);
      if released.current.value.drainSignal.Some? {
        DrainsStart(released, released.current.value.drainSignal.value);
      }
    }
  }

  lemma DrainsRow(s: Session, event: Event)
    requires DrainsOk(s.desk)
    ensures DrainsOk(AcceptRow(s, event).desk)
  {
    if event.sequence.Some? {
      DrainsReplace(s.desk, 0);
      var desk := s.desk.Ensure(0);
      var d := Queue(desk.Delivery(), event.sequence.value, event);
      DrainsWith(desk, d);
      DrainsStart(desk.With(d), s.generation);
    }
  }

  lemma DrainsCursor(desk: Desk, previous: Option<int>, cursor: int, advanced: bool, signal: nat)
    requires DrainsOk(desk)
    ensures DrainsOk(DrainTowards(CursorDesk(desk, previous, cursor), cursor, advanced, signal))
  {
    DrainsReplace(desk, cursor + 1);
    DrainsReplace(desk, previous.GetOr(0) + 1);
    var moved := CursorDesk(desk, previous, cursor);
    assert DrainsOk(moved);
    DrainsStart(moved, signal);
    DrainsStart(moved.RaiseRecovery(cursor), signal);
  }

  lemma DrainsSnapshot(s: Session, cursor: int, rows: seq<Event>)
    requires DrainsOk(s.desk)
    ensures DrainsOk(SubscribeSnapshot(s, cursor, rows).desk)
  {
    DrainsReplace(s.desk, s.lastSequence.GetOr(0) + 1);
  }

  lemma DrainsSubscribed(s: Session, cursor: int, projection: Option<Projection>)
    requires DrainsOk(s.desk)
    ensures DrainsOk(AcceptSubscribed(s, cursor, projection).desk)
  {
    if s.snapshot.None? {
      var advanced := s.lastSequence.Some? && s.lastSequence.value < cursor;
      DrainsCursor(s.desk, s.lastSequence, cursor, advanced, s.generation);
    } else {
      var fenced := s.(subscribed := true, fence := SubscribedFence(s, cursor, projection), snapshot := None);
      DrainsSnapshot(fenced, cursor, Sorted(s.snapshot.value));
    }
  }

  lemma DrainsTail(s: Session, r: Replay)
    requires DrainsOk(s.desk) && r.mode.Tail?
    ensures DrainsOk(ReplayTail(s, r).desk)
  {
    if s.desk.current.Some? {
      DrainsStart(s.desk.RaiseRecovery(r.cursor), r.signal);
    }
  }

  lemma DrainsReplay(s: Session)
    requires DrainsOk(s.desk)
    ensures DrainsOk(ReplayStep(s).desk)
  {
    if s.replay.Some? {
      if s.replay.value.mode.Tail? {
        DrainsTail(s, s.replay.value);
      } else {
        DrainsReplace(s.desk, s.replay.value.cursor + 1);
      }
    }
  }

  lemma DrainsReact(s: Session, reentry: Reentry)
    requires DrainsOk(s.desk)
    ensures DrainsOk(React(s, reentry).desk)
  {
    DrainsReplace(s.desk, 0);
  }

  lemma DrainsRun(s: Session, i: nat, reentry: Reentry, elapsed: nat)
    requires DrainsOk(s.desk) && i < |s.desk.drains|
             && (s.desk.drains[i].phase.Looping? || s.desk.drains[i].phase.Filling?)
    ensures DrainsOk(RunDrain(s, i, reentry, elapsed).desk)
  {
    var drain := s.desk.drains[i];
    if !s.Alive(drain) {
      DrainsSetPhase(s.desk, i, if drain.phase.Looping? then Stopped else Looping);
    } else {
      var d := s.desk.Delivery();
      var (d', outcome) := LoopPass(drain.phase, d, SeenBy(reentry, |d.Bucket(d.nextSequence)|), elapsed);
      DrainsWith(s.desk, d');
      DrainsSetPhase(s.desk.With(d'), i, PhaseAfter(drain.phase, outcome));
      var passed := s.(desk := s.desk.With(d').SetPhase(i, PhaseAfter(drain.phase, outcome)));
      DrainsReplace(passed.desk, 0);
    }
  }

  lemma DrainsResume(s: Session, i: nat, rows: seq<Event>)
    requires DrainsOk(s.desk) && i < |s.desk.drains| && s.desk.drains[i].phase.Recovering?
    ensures DrainsOk(Resume(s, i, rows).desk)
  {
    var drain := s.desk.drains[i];
    if !s.Alive(drain) {
      DrainsSetPhase(s.desk, i, Looping);
    } else {
      var d := AbsorbAll(s.desk.Delivery(), s.fence, Sorted(rows), Some(drain.phase.toSequence)).0;
      DrainsWith(s.desk, d);
      DrainsSetPhase(s.desk.With(d), i, Filling(drain.phase.toSequence));
    }
  }

  lemma DrainsStep(s: Session, step: Step)
    requires DrainsOk(s.desk)
    ensures DrainsOk(Next(s, step).desk)
  {
    match step
    case Row(event) => DrainsRow(s, event);
    case Subscribed(cursor, projection) => DrainsSubscribed(s, cursor, projection);
    case ControlBaseline(projection) =>
    case ReplayRow => DrainsReplay(s);
    case Removed => DrainsReplace(s.desk, 0);
    case Restart => DrainsReact(s, RestartAfter(0));
    case Close => DrainsReact(s, CloseAfter(0));
    case EndGeneration =>
    case NextGeneration =>
    case DrainPass(i, reentry, elapsed) =>
      if i < |s.desk.drains| && (s.desk.drains[i].phase.Looping? || s.desk.drains[i].phase.Filling?) {
        DrainsRun(s, i, reentry, elapsed);
      }
    case Recovered(i, rows) =>
      if i < |s.desk.drains| && s.desk.drains[i].phase.Recovering? { DrainsResume(s, i, rows); }
    case Settle(i) =>
      if i < |s.desk.drains| && s.desk.drains[i].phase.Stopped? { DrainsSettle(s.desk, i, s.abortedSignals); }
  }

  // ---- control: signals and wake-ups ----

  // Every generation before the present one has been aborted; a closed stream holds nothing.
  ghost predicate SignalsOk(s: Session) {
    && (forall g :: 0 <= g < s.generation ==> g in s.abortedSignals)
    && (s.closed ==> s.desk.current.None?)
    && (s.desk.current.Some? && s.desk.current.value.drainSignal.Some? ==>
          s.desk.current.value.drainSignal.value <= s.generation)
  }

  // No wake-up is lost: work in the current queue has an owner, unless the generation whose
  // signal the queue saw last is gone.
  ghost predicate Awake(s: Session) {
    s.desk.current.Some? && HasWork(s.desk.Delivery()) ==>
      var slot := s.desk.current.value;
      slot.draining || slot.drainSignal.None? || slot.drainSignal.value in s.abortedSignals
  }

  // The current queue has not yet been drained under the present generation.
  ghost predicate Untouched(s: Session) {
    s.desk.current.Some? ==> s.desk.current.value.drainSignal != Some(s.generation)
  }

  ghost predicate ReplayOk(s: Session) {
    && (!s.closed ==> (s.lastSequence.Some? <==> s.desk.current.Some?))
    && (s.bounded && !s.subscribed ==> Untouched(s))
    && (s.snapshot.Some? ==> s.bounded && !s.subscribed)
    && (s.replay.Some? ==>
          && s.bounded
          && s.replay.value.signal == s.generation
          && Untouched(s)
          && (s.generation !in s.abortedSignals && !s.closed ==>
                && s.subscribed
                && (s.replay.value.mode.Tail? ==>
                      s.desk.Holds(s.replay.value.mode.epoch) && s.lastSequence == Some(s.replay.value.mode.previous))))
  }

  ghost predicate Streams(s: Session) {
    SignalsOk(s) && Awake(s) && ReplayOk(s)
  }

  lemma StreamsQueueRow(s: Session, event: Event)
    requires Streams(s) && s.Accepting() && event.sequence.Some? && (s.bounded ==> s.subscribed)
    ensures Streams(QueueRow(s, event))
  {
  }

  lemma StreamsRow(s: Session, event: Event)
    requires Streams(s) && s.Accepting()
    ensures Streams(AcceptRow(s, event))
  {
    if event.sequence.Some? && (s.bounded ==> s.subscribed) {
      StreamsQueueRow(s, event);
    }
  }

  lemma StreamsSubscribed(s: Session, cursor: int, projection: Option<Projection>)
    requires Streams(s) && s.Accepting()
    ensures Streams(AcceptSubscribed(s, cursor, projection))
  {
  }

  lemma StreamsBaseline(s: Session, r: Replay)
    requires Streams(s) && s.replay == Some(r) && r.mode.Baseline? && !s.closed && r.signal !in s.abortedSignals
    ensures Streams(ReplayBaseline(s, r))
  {
  }

  lemma StreamsTail(s: Session, r: Replay)
    requires Streams(s) && s.replay == Some(r) && r.mode.Tail? && !s.closed && r.signal !in s.abortedSignals
    ensures Streams(ReplayTail(s, r))
  {
  }

  lemma StreamsReplay(s: Session)
    requires Streams(s)
    ensures Streams(ReplayStep(s))
  {
    if s.replay.Some? && !s.closed && s.replay.value.signal !in s.abortedSignals {
      if s.replay.value.mode.Baseline? {
        StreamsBaseline(s, s.replay.value);
      } else {
        StreamsTail(s, s.replay.value);
      }
    }
  }

  lemma StreamsReact(s: Session, reentry: Reentry)
    requires Streams(s)
    ensures Streams(React(s, reentry))
  {
  }

  lemma StreamsRun(s: Session, i: nat, reentry: Reentry, elapsed: nat)
    requires Streams(s) && DrainsOk(s.desk)
    requires i < |s.desk.drains| && (s.desk.drains[i].phase.Looping? || s.desk.drains[i].phase.Filling?)
    ensures Streams(RunDrain(s, i, reentry, elapsed))
  {
    var drain := s.desk.drains[i];
    if s.Alive(drain) {
      assert Attached(s.desk, i);
      var d := s.desk.Delivery();
      var (d', outcome) := LoopPass(drain.phase, d, SeenBy(reentry, |d.Bucket(d.nextSequence)|), elapsed);
      var passed := s.(desk := s.desk.With(d').SetPhase(i, PhaseAfter(drain.phase, outcome)));
      assert Streams(passed);
      if d'.log != [] {
        var handed := Emit(passed, FromQueue(|passed.desk.retired|, d'.log[|d'.log| - 1]));
        assert Streams(handed);
        StreamsReact(handed, reentry);
      }
    }
  }

  lemma StreamsRest(s: Session, step: Step)
    requires Streams(s) && DrainsOk(s.desk)
    requires step.ControlBaseline? || step.Removed? || step.EndGeneration? || step.NextGeneration?
             || step.Recovered? || step.Settle?
    ensures Streams(Next(s, step))
  {
    if step.Recovered? && step.drain < |s.desk.drains| && s.desk.drains[step.drain].phase.Recovering?
       && s.Alive(s.desk.drains[step.drain]) {
      assert Attached(s.desk, step.drain);
    }
  }

  lemma StreamsStep(s: Session, step: Step)
    requires Streams(s) && DrainsOk(s.desk)
    ensures Streams(Next(s, step))
  {
    match step
    case Row(event) => if s.Accepting() { StreamsRow(s, event); }
    case Subscribed(cursor, projection) => if s.Accepting() { StreamsSubscribed(s, cursor, projection); }
    case ReplayRow => StreamsReplay(s);
    case Restart => StreamsReact(s, RestartAfter(0));
    case Close => StreamsReact(s, CloseAfter(0));
    case DrainPass(i, reentry, elapsed) =>
      if i < |s.desk.drains| && (s.desk.drains[i].phase.Looping? || s.desk.drains[i].phase.Filling?) {
        StreamsRun(s, i, reentry, elapsed);
      }
    case _ => StreamsRest(s, step);
  }

  // ---- every delivery stays sound ----

  ghost predicate Sound(desk: Desk) {
    && (forall j :: 0 <= j < |desk.retired| ==> DeliveryInv(desk.retired[j]))
    && (desk.current.Some? ==> DeliveryInv(desk.Delivery()))
  }

  lemma AbsorbKeeps(d: Delivery, fence: Fence, event: Event, through: Option<int>)
    requires DeliveryInv(d)
    ensures DeliveryInv(Absorb(d, fence, event, through).0)
  {
    if event.sequence.Some? && d.nextSequence <= event.sequence.value {
      QueueKeeps(d, event.sequence.value, event);
      PassKeeps(d, event.sequence.value);
    }
  }

  lemma {:induction false} AbsorbAllKeeps(d: Delivery, fence: Fence, rows: seq<Event>, through: Option<int>)
    requires DeliveryInv(d)
    ensures DeliveryInv(AbsorbAll(d, fence, rows, through).0)
    decreases |rows|
  {
    if rows != [] {
      AbsorbKeeps(d, fence, rows[0], through);
      var (d', fence') := Absorb(d, fence, rows[0], through);
      AbsorbAllKeeps(d', fence', rows[1..], through);
    }
  }

  lemma SoundQueueRow(s: Session, event: Event)
    requires Sound(s.desk) && event.sequence.Some?
    ensures Sound(QueueRow(s, event).desk)
  {
    var d := s.desk.Ensure(0).Delivery();
    if d.nextSequence <= event.sequence.value {
      QueueKeeps(d, event.sequence.value, event);
    }
  }

  lemma SoundRow(s: Session, event: Event)
    requires Sound(s.desk)
    ensures Sound(AcceptRow(s, event).desk)
  {
    if event.sequence.Some? {
      SoundQueueRow(s, event);
    }
  }

  lemma SoundBaseline(s: Session, r: Replay)
    requires Sound(s.desk) && r.mode.Baseline?
    ensures Sound(ReplayBaseline(s, r).desk)
  {
  }

  lemma SoundTail(s: Session, r: Replay)
    requires Sound(s.desk) && r.mode.Tail?
    ensures Sound(ReplayTail(s, r).desk)
  {
    if r.rows != [] && s.desk.current.Some? {
      AbsorbKeeps(s.desk.Delivery(), s.fence, r.rows[0], None);
    }
  }

  lemma SoundReplay(s: Session)
    requires Sound(s.desk)
    ensures Sound(ReplayStep(s).desk)
  {
    if s.replay.Some? {
      if s.replay.value.mode.Baseline? {
        SoundBaseline(s, s.replay.value);
      } else {
        SoundTail(s, s.replay.value);
      }
    }
  }

  lemma SoundReact(s: Session, reentry: Reentry)
    requires Sound(s.desk)
    ensures Sound(React(s, reentry).desk)
  {
  }

  lemma PassSound(phase: Phase, d: Delivery, delivered: nat, elapsed: nat)
    requires phase.Looping? || phase.Filling?
    requires DeliveryInv(d) && delivered <= |d.Bucket(d.nextSequence)|
    ensures DeliveryInv(LoopPass(phase, d, delivered, elapsed).0)
  {
    if phase.Looping? {
      DrainIterationKeeps(d, delivered, elapsed);
    } else {
      FillIterationKeeps(d, phase.toSequence, delivered, elapsed);
    }
  }

  lemma SoundPassed(s: Session, d: Delivery, i: nat, phase: Phase, reentry: Reentry)
    requires Sound(s.desk) && DeliveryInv(d) && s.desk.current.Some? && i < |s.desk.drains|
    ensures Sound(HandOver(s.(desk := s.desk.With(d).SetPhase(i, phase)), s.desk.Delivery().log, reentry).desk)
  {
    var passed := s.desk.With(d).SetPhase(i, phase);
    assert Sound(passed) && Sound(passed.Drop());
  }

  lemma SoundRun(s: Session, i: nat, reentry: Reentry, elapsed: nat)
    requires Sound(s.desk)
    requires i < |s.desk.drains| && (s.desk.drains[i].phase.Looping? || s.desk.drains[i].phase.Filling?)
    ensures Sound(RunDrain(s, i, reentry, elapsed).desk)
  {
    var drain := s.desk.drains[i];
    if s.Alive(drain) {
      var d := s.desk.Delivery();
      var delivered := SeenBy(reentry, |d.Bucket(d.nextSequence)|);
      PassSound(drain.phase, d, delivered, elapsed);
      var (d', outcome) := LoopPass(drain.phase, d, delivered, elapsed);
      SoundPassed(s, d', i, PhaseAfter(drain.phase, outcome), reentry);
    }
  }

  lemma SoundCursor(desk: Desk, previous: Option<int>, cursor: int, advanced: bool, signal: nat)
    requires Sound(desk)
    ensures Sound(DrainTowards(CursorDesk(desk, previous, cursor), cursor, advanced, signal))
  {
    assert Sound(CursorDesk(desk, previous, cursor));
  }

  lemma SoundSubscribed(s: Session, cursor: int, projection: Option<Projection>)
    requires Sound(s.desk)
    ensures Sound(AcceptSubscribed(s, cursor, projection).desk)
  {
    if s.snapshot.None? {
      SoundCursor(s.desk, s.lastSequence, cursor, s.lastSequence.Some? && s.lastSequence.value < cursor, s.generation);
    }
  }

  lemma SoundResume(s: Session, i: nat, rows: seq<Event>)
    requires Sound(s.desk)
    requires i < |s.desk.drains| && s.desk.drains[i].phase.Recovering?
    ensures Sound(Resume(s, i, rows).desk)
  {
    if s.Alive(s.desk.drains[i]) {
      AbsorbAllKeeps(s.desk.Delivery(), s.fence, Sorted(rows), Some(s.desk.drains[i].phase.toSequence));
    }
  }

  lemma SoundStep(s: Session, step: Step)
    requires Sound(s.desk)
    ensures Sound(Next(s, step).desk)
  {
    match step
    case Row(event) => SoundRow(s, event);
    case Subscribed(cursor, projection) => SoundSubscribed(s, cursor, projection);
    case ReplayRow => SoundReplay(s);
    case Restart => SoundReact(s, RestartAfter(0));
    case Close => SoundReact(s, CloseAfter(0));
    case DrainPass(i, reentry, elapsed) =>
      if i < |s.desk.drains| && (s.desk.drains[i].phase.Looping? || s.desk.drains[i].phase.Filling?) {
        SoundRun(s, i, reentry, elapsed);
      }
    case Recovered(i, rows) =>
      if i < |s.desk.drains| && s.desk.drains[i].phase.Recovering? {
        SoundResume(s, i, rows);
      }
    case _ =>
  }

  // ---- what subscribers saw, against what each delivery logged ----

  // Everything handed over from a queue, with the number of the delivery it came from.
  function QueuePart(output: seq<Output>): seq<(nat, Item)> {
    if output == [] then []
    else
      var last := output[|output| - 1];
      QueuePart(output[..|output| - 1]) + if last.FromQueue? then [(last.epoch, last.item)] else []
  }

  function Tagged(epoch: nat, log: seq<Item>): (r: seq<(nat, Item)>)
    ensures |r| == |log|
    ensures forall i :: 0 <= i < |log| ==> r[i] == (epoch, log[i])
  {
    seq(|log|, i requires 0 <= i < |log| => (epoch, log[i]))
  }

  // The logs of these deliveries, one after the other.
  function Logs(deliveries: seq<Delivery>): seq<(nat, Item)> {
    if deliveries == [] then []
    else Logs(deliveries[..|deliveries| - 1]) + Tagged(|deliveries| - 1, deliveries[|deliveries| - 1].log)
  }

  function Deliveries(desk: Desk): seq<Delivery> {
    desk.retired + if desk.current.Some? then [desk.Delivery()] else []
  }

  // What left the queues is exactly the logs, delivery after delivery.
  ghost predicate Faithful(desk: Desk, output: seq<Output>) {
    QueuePart(output) == Logs(Deliveries(desk))
  }

  // The logs as they were; a delivery may have gone, and an empty one come.
  ghost predicate QuietDesk(desk: Desk, after: Desk) {
    || (&& after.retired == desk.retired
        && after.current.Some? == desk.current.Some?
        && (desk.current.Some? ==> after.Delivery().log == desk.Delivery().log))
    || (&& after.retired == Deliveries(desk)
        && (after.current.Some? ==> after.Delivery().log == []))
  }

  ghost predicate QuietOutput(output: seq<Output>, after: seq<Output>) {
    after == output || (exists o :: !FromAQueue(o) && after == output + [o])
  }

  predicate FromAQueue(o: Output) {
    o.FromQueue?
  }

  // One item was logged by the current delivery and handed over; the delivery may be gone since.
  ghost predicate Shipped(desk: Desk, output: seq<Output>, after: Desk, output': seq<Output>, item: Item) {
    && desk.current.Some?
    && output' == output + [FromQueue(|desk.retired|, item)]
    && exists d: Delivery :: d.log == desk.Delivery().log + [item] && QuietDesk(desk.With(d), after)
  }

  ghost predicate Moved(desk: Desk, output: seq<Output>, after: Desk, output': seq<Output>) {
    || (QuietDesk(desk, after) && QuietOutput(output, output'))
    || exists item :: Shipped(desk, output, after, output', item)
  }

  lemma LogsQuiet(desk: Desk, after: Desk)
    requires QuietDesk(desk, after)
    ensures Logs(Deliveries(after)) == Logs(Deliveries(desk))
  {
    var all := Deliveries(after);
    if after.current.Some? {
      assert all[..|all| - 1] == after.retired;
    }
    if after.retired == desk.retired && desk.current.Some? {
      assert Deliveries(desk)[..|desk.retired|] == desk.retired;
    } else if after.current.Some? {
      assert Logs(all) == Logs(after.retired) + Tagged(|after.retired|, []);
    } else {
      assert all == after.retired;
    }
  }

  lemma LogsShipped(desk: Desk, d: Delivery, item: Item)
    requires desk.current.Some? && d.log == desk.Delivery().log + [item]
    ensures Logs(Deliveries(desk.With(d))) == Logs(Deliveries(desk)) + [(|desk.retired|, item)]
  {
    assert Deliveries(desk)[..|desk.retired|] == desk.retired;
    assert Deliveries(desk.With(d))[..|desk.retired|] == desk.retired;
    assert Tagged(|desk.retired|, d.log) == Tagged(|desk.retired|, desk.Delivery().log) + [(|desk.retired|, item)];
  }

  lemma QueuePartAppend(output: seq<Output>, o: Output)
    ensures QueuePart(output + [o]) == QueuePart(output) + if o.FromQueue? then [(o.epoch, o.item)] else []
  {
    assert (output + [o])[..|output|] == output;
  }

  lemma FaithfulMoved(desk: Desk, output: seq<Output>, after: Desk, output': seq<Output>)
    requires Faithful(desk, output) && Moved(desk, output, after, output')
    ensures Faithful(after, output')
  {
    if item :| Shipped(desk, output, after, output', item) {
      var d: Delivery :| d.log == desk.Delivery().log + [item] && QuietDesk(desk.With(d), after);
      LogsShipped(desk, d, item);
      LogsQuiet(desk.With(d), after);
      QueuePartAppend(output, FromQueue(|desk.retired|, item));
    } else {
      LogsQuiet(desk, after);
      if output' != output {
        var o :| !FromAQueue(o) && output' == output + [o];
        QueuePartAppend(output, o);
      }
    }
  }

  lemma QuietDrop(desk: Desk, nextSequence: int)
    ensures QuietDesk(desk, desk.Drop()) && QuietDesk(desk, desk.Replace(nextSequence))
    ensures QuietDesk(desk, desk.Ensure(nextSequence))
  {
    assert desk.current.None? ==> Deliveries(desk) == desk.retired;
  }

  lemma MovedRow(s: Session, event: Event)
    ensures Moved(s.desk, s.output, AcceptRow(s, event).desk, AcceptRow(s, event).output)
  {
    assert !FromAQueue(Direct(event));
    QuietDrop(s.desk, 0);
  }

  lemma QuietCursor(desk: Desk, previous: Option<int>, cursor: int)
    ensures QuietDesk(desk, CursorDesk(desk, previous, cursor))
  {
    QuietDrop(desk, cursor + 1);
    QuietDrop(desk, previous.GetOr(0) + 1);
  }

  lemma QuietTowards(desk: Desk, previous: Option<int>, cursor: int, advanced: bool, signal: nat)
    ensures QuietDesk(desk, DrainTowards(CursorDesk(desk, previous, cursor), cursor, advanced, signal))
  {
    QuietCursor(desk, previous, cursor);
  }

  lemma QuietSnapshot(s: Session, cursor: int, rows: seq<Event>)
    ensures var r := SubscribeSnapshot(s, cursor, rows); QuietDesk(s.desk, r.desk) && r.output == s.output
  {
    QuietDrop(s.desk, s.lastSequence.GetOr(0) + 1);
  }

  lemma MovedSubscribed(s: Session, cursor: int, projection: Option<Projection>)
    ensures var r := AcceptSubscribed(s, cursor, projection); Moved(s.desk, s.output, r.desk, r.output)
  {
    if s.snapshot.None? {
      assert !FromAQueue(Marker(cursor));
      var advanced := s.lastSequence.Some? && s.lastSequence.value < cursor;
      QuietTowards(s.desk, s.lastSequence, cursor, advanced, s.generation);
    } else {
      var fenced := s.(subscribed := true, fence := SubscribedFence(s, cursor, projection), snapshot := None);
      QuietSnapshot(fenced, cursor, Sorted(s.snapshot.value));
    }
  }

  lemma {:induction false} AbsorbAllLog(d: Delivery, fence: Fence, rows: seq<Event>, through: Option<int>)
    ensures AbsorbAll(d, fence, rows, through).0.log == d.log
    decreases |rows|
  {
    if rows != [] {
      var (d', fence') := Absorb(d, fence, rows[0], through);
      AbsorbAllLog(d', fence', rows[1..], through);
    }
  }

  lemma MovedBaseline(s: Session, r: Replay)
    requires r.mode.Baseline?
    ensures Moved(s.desk, s.output, ReplayBaseline(s, r).desk, ReplayBaseline(s, r).output)
  {
    if r.rows != [] {
      assert !FromAQueue(Direct(r.rows[0]));
    } else {
      assert !FromAQueue(Marker(r.cursor));
      QuietDrop(s.desk, r.cursor + 1);
    }
  }

  lemma MovedTail(s: Session, r: Replay)
    requires r.mode.Tail?
    ensures Moved(s.desk, s.output, ReplayTail(s, r).desk, ReplayTail(s, r).output)
  {
    assert !FromAQueue(Marker(r.cursor));
  }

  lemma MovedReplay(s: Session)
    ensures Moved(s.desk, s.output, ReplayStep(s).desk, ReplayStep(s).output)
  {
    if s.replay.Some? {
      if s.replay.value.mode.Baseline? {
        MovedBaseline(s, s.replay.value);
      } else {
        MovedTail(s, s.replay.value);
      }
    }
  }

  // One pass logs at most one item.
  lemma PassLog(phase: Phase, d: Delivery, delivered: nat, elapsed: nat)
    requires phase.Looping? || phase.Filling?
    ensures var d' := LoopPass(phase, d, delivered, elapsed).0;
            d'.log == d.log || (d'.log != [] && d'.log == d.log + [d'.log[|d'.log| - 1]])
  {
  }

  // A pass of a live drain: one step of its loop, then whatever it logged is handed over.
  lemma PassOf(s: Session, i: nat, reentry: Reentry, elapsed: nat) returns (d: Delivery, phase: Phase)
    requires i < |s.desk.drains| && (s.desk.drains[i].phase.Looping? || s.desk.drains[i].phase.Filling?)
    requires s.Alive(s.desk.drains[i])
    ensures RunDrain(s, i, reentry, elapsed)
            == HandOver(s.(desk := s.desk.With(d).SetPhase(i, phase)), s.desk.Delivery().log, reentry)
    ensures d.log == s.desk.Delivery().log || (d.log != [] && d.log == s.desk.Delivery().log + [d.log[|d.log| - 1]])
  {
    var drain, before := s.desk.drains[i], s.desk.Delivery();
    var delivered := SeenBy(reentry, |before.Bucket(before.nextSequence)|);
    PassLog(drain.phase, before, delivered, elapsed);
    var (passed, outcome) := LoopPass(drain.phase, before, delivered, elapsed);
    d, phase := passed, PhaseAfter(drain.phase, outcome);
  }

  lemma HandOverMoved(s: Session, d: Delivery, i: nat, phase: Phase, reentry: Reentry)
    requires s.desk.current.Some? && i < |s.desk.drains|
    requires d.log == s.desk.Delivery().log || (d.log != [] && d.log == s.desk.Delivery().log + [d.log[|d.log| - 1]])
    ensures var r := HandOver(s.(desk := s.desk.With(d).SetPhase(i, phase)), s.desk.Delivery().log, reentry);
            Moved(s.desk, s.output, r.desk, r.output)
  {
    var passed := s.(desk := s.desk.With(d).SetPhase(i, phase));
    var r := HandOver(passed, s.desk.Delivery().log, reentry);
    if d.log != s.desk.Delivery().log {
      QuietDrop(passed.desk, 0);
      assert Deliveries(passed.desk) == Deliveries(s.desk.With(d));
      assert QuietDesk(s.desk.With(d), r.desk);
      assert Shipped(s.desk, s.output, r.desk, r.output, d.log[|d.log| - 1]);
    }
  }

  lemma MovedRun(s: Session, i: nat, reentry: Reentry, elapsed: nat)
    requires i < |s.desk.drains| && (s.desk.drains[i].phase.Looping? || s.desk.drains[i].phase.Filling?)
    ensures var r := RunDrain(s, i, reentry, elapsed); Moved(s.desk, s.output, r.desk, r.output)
  {
    if s.Alive(s.desk.drains[i]) {
      var d, phase := PassOf(s, i, reentry, elapsed);
      HandOverMoved(s, d, i, phase, reentry);
    }
  }

  lemma MovedRest(s: Session, step: Step)
    requires !step.Row? && !step.Subscribed? && !step.ReplayRow? && !step.DrainPass?
    ensures Moved(s.desk, s.output, Next(s, step).desk, Next(s, step).output)
  {
    QuietDrop(s.desk, 0);
    if step.Recovered? && step.drain < |s.desk.drains| && s.desk.drains[step.drain].phase.Recovering?
       && s.Alive(s.desk.drains[step.drain]) {
      AbsorbAllLog(s.desk.Delivery(), s.fence, Sorted(step.rows), Some(s.desk.drains[step.drain].phase.toSequence));
    }
  }

  lemma FaithfulStep(s: Session, step: Step)
    requires Faithful(s.desk, s.output)
    ensures Faithful(Next(s, step).desk, Next(s, step).output)
  {
    var r := Next(s, step);
    assert Moved(s.desk, s.output, r.desk, r.output) by {
      match step
      case Row(event) => MovedRow(s, event);
      case Subscribed(cursor, projection) => MovedSubscribed(s, cursor, projection);
      case ReplayRow => MovedReplay(s);
      case DrainPass(i, reentry, elapsed) =>
        if i < |s.desk.drains| && (s.desk.drains[i].phase.Looping? || s.desk.drains[i].phase.Filling?) {
          MovedRun(s, i, reentry, elapsed);
        }
      case _ => MovedRest(s, step);
    }
    FaithfulMoved(s.desk, s.output, r.desk, r.output);
  }

  // ---- every schedule ----

  ghost predicate SessionInv(s: Session) {
    DrainsOk(s.desk) && Streams(s) && Sound(s.desk) && Faithful(s.desk, s.output)
  }

  lemma StepKeeps(s: Session, step: Step)
    requires SessionInv(s)
    ensures SessionInv(Next(s, step))
  {
    DrainsStep(s, step);
    StreamsStep(s, step);
    SoundStep(s, step);
    FaithfulStep(s, step);
  }

  lemma {:induction false} RunKeeps(s: Session, steps: seq<Step>)
    requires SessionInv(s)
    ensures SessionInv(Run(s, steps))
    decreases |steps|
  {
    if steps != [] {
      StepKeeps(s, steps[0]);
      RunKeeps(Next(s, steps[0]), steps[1..]);
    }
  }

  // A session that has just been opened, followed by any schedule whatever.
  lemma Reachable(bounded: bool, steps: seq<Step>)
    ensures SessionInv(Run(Init(bounded), steps))
  {
    RunKeeps(Init(bounded), steps);
  }
}
