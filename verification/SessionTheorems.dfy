/** What subscribers can rely on, whatever the schedule of frames, drains, history reads and teardowns. */
module SessionTheorems {
  import opened Options
  import opened OrderedDelivery
  import opened DeliveryInvariant
  import opened SessionDelivery
  import opened SessionInvariant

  // What left the queues is the deliveries' logs in order, and each delivery's items partition
  // [start, nextSequence): every position is handed over, skipped or declared missing exactly once,
  // in ascending order, and a declared gap covers only positions that were never held.
  lemma HandedOverInOrder(bounded: bool, steps: seq<Step>, epoch: nat, position: int)
    requires epoch < |Deliveries(Run(Init(bounded), steps).desk)|
    ensures var s := Run(Init(bounded), steps);
            var d := Deliveries(s.desk)[epoch];
            && QueuePart(s.output) == Logs(Deliveries(s.desk))
            && ((exists i :: CoveredBy(d, position, i)) <==> d.start <= position < d.nextSequence)
            && (forall i, j :: CoveredBy(d, position, i) && CoveredBy(d, position, j) ==> i == j)
            && (forall i, j :: 0 <= i < j < |d.log| ==> d.log[i].Hi() < d.log[j].Lo())
            && (forall i: nat :: CoveredBy(d, position, i) && d.log[i].Gap? ==>
                  position !in d.queued && position !in d.passed)
  {
    Reachable(bounded, steps);
    var d := Deliveries(Run(Init(bounded), steps).desk)[epoch];
    Partition(d, position);
    forall i: nat | CoveredBy(d, position, i) && d.log[i].Gap?
      ensures position !in d.queued && position !in d.passed
    {
      GapCoversNothingHeld(d, i, position);
    }
  }

  // Every row that ever entered a queue is still waiting there, or was handed over in its bucket.
  lemma NoRowLost(bounded: bool, steps: seq<Step>, epoch: nat, position: int)
    requires epoch < |Deliveries(Run(Init(bounded), steps).desk)|
    requires position in Deliveries(Run(Init(bounded), steps).desk)[epoch].queued
    ensures var d := Deliveries(Run(Init(bounded), steps).desk)[epoch];
            if d.nextSequence <= position then position in d.pending && d.pending[position] == d.queued[position]
            else exists i: nat :: CoveredBy(d, position, i) && d.log[i].Rows? && d.log[i].bucket == d.queued[position]
  {
    Reachable(bounded, steps);
    var d := Deliveries(Run(Init(bounded), steps).desk)[epoch];
    RowsHandledOnce(d, position);
    if position < d.nextSequence {
      var i :| 0 <= i < |d.log| && d.log[i].Rows? && d.log[i].position == position
        && d.log[i].bucket == d.queued[position];
      assert CoveredBy(d, position, i);
    }
  }

  // At most one drain works on the current delivery; work waiting there has one, unless the stream
  // generation it was last drained for is gone.
  lemma OneDrainAndNoLostWakeUp(bounded: bool, steps: seq<Step>, i: nat, j: nat)
    ensures var s := Run(Init(bounded), steps);
            && (s.desk.current.Some? && Attached(s.desk, i) && Attached(s.desk, j) ==> i == j)
            && (s.desk.current.Some? && HasWork(s.desk.Delivery()) ==>
                  || s.desk.current.value.drainSignal.None?
                  || s.desk.current.value.drainSignal.value in s.abortedSignals
                  || exists k: nat :: Attached(s.desk, k))
  {
    Reachable(bounded, steps);
  }

  lemma LeavingMeansEmpty(d: Delivery, delivered: nat, elapsed: nat)
    requires DeliveryInv(d) && DrainIteration(d, delivered, elapsed).1 == Leave
    ensures d.pending == map[] && DrainIteration(d, delivered, elapsed).0 == d.(recoveryThrough := None)
  {
    var firstPending := LeastFrom(d.pending.Keys, d.nextSequence);
    forall p
      ensures p !in d.pending
    {
      assert p in d.pending ==> p in d.pending.Keys;
    }
  }

  // A drain that leaves its loop while its delivery is alive has emptied it.
  lemma LeavesNothingBehind(s: Session, i: nat, reentry: Reentry, elapsed: nat)
    requires SessionInv(s) && i < |s.desk.drains| && s.desk.drains[i].phase.Looping? && s.Alive(s.desk.drains[i])
    requires RunDrain(s, i, reentry, elapsed).desk.drains[i].phase.Stopped?
    ensures var after := RunDrain(s, i, reentry, elapsed);
            after.Alive(s.desk.drains[i]) && after.desk.Delivery().pending == map[]
            && after.desk.Delivery().recoveryThrough.None?
  {
    var d := s.desk.Delivery();
    LeavingMeansEmpty(d, SeenBy(reentry, |d.Bucket(d.nextSequence)|), elapsed);
  }

  // The hole-filling loop of a drain ends: its measure falls with every pass, and nothing that can
  // happen to the queue while it yields raises it.
  function FillMeasure(d: Delivery, toSequence: int): nat {
    if toSequence < d.nextSequence then 0
    else 2 * (toSequence + 1 - d.nextSequence) + if d.BudgetSpent() then 1 else 0
  }

  lemma FillLoopEnds(d: Delivery, toSequence: int, delivered: nat, elapsed: nat)
    ensures var (after, outcome) := FillIteration(d, toSequence, delivered, elapsed);
            if FillMeasure(d, toSequence) == 0 then after == d && outcome == Leave
            else outcome != Leave && FillMeasure(after, toSequence) < FillMeasure(d, toSequence)
  {
  }

  lemma FillLoopUndisturbed(d: Delivery, fence: Fence, event: Event, through: Option<int>, toSequence: int,
                            position: int)
    ensures FillMeasure(Queue(d, position, event), toSequence) == FillMeasure(d, toSequence)
    ensures FillMeasure(Absorb(d, fence, event, through).0, toSequence) == FillMeasure(d, toSequence)
  {
  }

  // ---- reconnects ----

  // A step that neither tears the stream down nor announces a cursor below the retained watermark.
  ghost predicate Gentle(s: Session, step: Step) {
    && !step.Removed? && !step.Restart? && !step.Close?
    && (step.DrainPass? ==> step.reentry.Quiet? || step.reentry.Unsubscribe?)
    && (step.Subscribed? && s.lastSequence.Some? ==> s.lastSequence.value <= step.cursor)
  }

  ghost predicate GentleRun(s: Session, steps: seq<Step>)
    decreases |steps|
  {
    steps != [] ==> Gentle(s, steps[0]) && GentleRun(Next(s, steps[0]), steps[1..])
  }

  // The same delivery, further on.
  ghost predicate Extends(before: Desk, after: Desk) {
    && before.current.Some? && after.current.Some?
    && after.retired == before.retired
    && after.Delivery().start == before.Delivery().start
    && before.Delivery().log <= after.Delivery().log
  }

  ghost predicate NoBaseline(s: Session) {
    s.replay.Some? ==> s.replay.value.mode.Tail?
  }

  lemma {:induction false} AbsorbAllStart(d: Delivery, fence: Fence, rows: seq<Event>, through: Option<int>)
    ensures AbsorbAll(d, fence, rows, through).0.start == d.start
    decreases |rows|
  {
    if rows != [] {
      var (d', fence') := Absorb(d, fence, rows[0], through);
      AbsorbAllStart(d', fence', rows[1..], through);
    }
  }

  lemma GentleRowExtends(s: Session, event: Event)
    requires s.desk.current.Some?
    ensures Extends(s.desk, AcceptRow(s, event).desk) && AcceptRow(s, event).replay == s.replay
  {
  }

  lemma GentleSubscribedExtends(s: Session, cursor: int, projection: Option<Projection>)
    requires Streams(s) && s.Accepting() && s.desk.current.Some?
    requires s.lastSequence.Some? ==> s.lastSequence.value <= cursor
    ensures Extends(s.desk, AcceptSubscribed(s, cursor, projection).desk)
    ensures NoBaseline(AcceptSubscribed(s, cursor, projection))
  {
  }

  lemma GentleReplayExtends(s: Session)
    requires s.desk.current.Some? && NoBaseline(s)
    ensures Extends(s.desk, ReplayStep(s).desk) && NoBaseline(ReplayStep(s))
  {
  }

  lemma PassStart(phase: Phase, d: Delivery, delivered: nat, elapsed: nat)
    requires phase.Looping? || phase.Filling?
    ensures LoopPass(phase, d, delivered, elapsed).0.start == d.start
  {
  }

  lemma HandOverExtends(s: Session, d: Delivery, i: nat, phase: Phase, reentry: Reentry)
    requires s.desk.current.Some? && i < |s.desk.drains| && (reentry.Quiet? || reentry.Unsubscribe?)
    requires s.desk.Delivery().log <= d.log && d.start == s.desk.Delivery().start
    ensures var r := HandOver(s.(desk := s.desk.With(d).SetPhase(i, phase)), s.desk.Delivery().log, reentry);
            Extends(s.desk, r.desk) && r.replay == s.replay
  {
  }

  lemma GentlePassExtends(s: Session, i: nat, reentry: Reentry, elapsed: nat)
    requires s.desk.current.Some? && (reentry.Quiet? || reentry.Unsubscribe?)
    requires i < |s.desk.drains| && (s.desk.drains[i].phase.Looping? || s.desk.drains[i].phase.Filling?)
    ensures Extends(s.desk, RunDrain(s, i, reentry, elapsed).desk)
    ensures RunDrain(s, i, reentry, elapsed).replay == s.replay
  {
    var drain := s.desk.drains[i];
    if s.Alive(drain) {
      var d := s.desk.Delivery();
      var delivered := SeenBy(reentry, |d.Bucket(d.nextSequence)|);
      PassLog(drain.phase, d, delivered, elapsed);
      PassStart(drain.phase, d, delivered, elapsed);
      var (d', outcome) := LoopPass(drain.phase, d, delivered, elapsed);
      HandOverExtends(s, d', i, PhaseAfter(drain.phase, outcome), reentry);
    }
  }

  lemma GentleResumeExtends(s: Session, i: nat, rows: seq<Event>)
    requires s.desk.current.Some? && i < |s.desk.drains| && s.desk.drains[i].phase.Recovering?
    ensures Extends(s.desk, Resume(s, i, rows).desk)
    ensures Resume(s, i, rows).replay == s.replay
  {
    var phase := s.desk.drains[i].phase;
    AbsorbAllLog(s.desk.Delivery(), s.fence, Sorted(rows), Some(phase.toSequence));
    AbsorbAllStart(s.desk.Delivery(), s.fence, Sorted(rows), Some(phase.toSequence));
  }

  lemma GentleStepExtends(s: Session, step: Step)
    requires Streams(s) && s.desk.current.Some? && NoBaseline(s) && Gentle(s, step)
    ensures Extends(s.desk, Next(s, step).desk) && NoBaseline(Next(s, step))
  {
    match step
    case Row(event) => GentleRowExtends(s, event);
    case Subscribed(cursor, projection) => if s.Accepting() { GentleSubscribedExtends(s, cursor, projection); }
    case ReplayRow => GentleReplayExtends(s);
    case DrainPass(i, reentry, elapsed) =>
      if i < |s.desk.drains| && (s.desk.drains[i].phase.Looping? || s.desk.drains[i].phase.Filling?) {
        GentlePassExtends(s, i, reentry, elapsed);
      }
    case Recovered(i, rows) =>
      if i < |s.desk.drains| && s.desk.drains[i].phase.Recovering? {
        GentleResumeExtends(s, i, rows);
      }
    case _ =>
  }

  // Across any number of reconnects whose cursor stays at or above the watermark, the session keeps
  // one delivery and what was handed over from it only grows: nothing is redelivered or reordered.
  lemma {:induction false} NeverRedelivered(s: Session, steps: seq<Step>)
    requires SessionInv(s) && s.desk.current.Some? && NoBaseline(s) && GentleRun(s, steps)
    ensures Extends(s.desk, Run(s, steps).desk)
    decreases |steps|
  {
    if steps != [] {
      GentleStepExtends(s, steps[0]);
      StepKeeps(s, steps[0]);
      NeverRedelivered(Next(s, steps[0]), steps[1..]);
    }
  }

  // ---- a cursor below the watermark ----

  // The present delivery began right behind the cursor; what left it is its log, which partitions what is behind the
  // cursor.
  ghost predicate DeliversBehind(s: Session, cursor: int, position: int) {
    && s.desk.current.Some?
    && var d := s.desk.Delivery();
       && d.start == cursor + 1
       && QueuePart(s.output) == Logs(s.desk.retired) + Tagged(|s.desk.retired|, d.log)
       && ((exists i :: CoveredBy(d, position, i)) <==> cursor + 1 <= position < d.nextSequence)
       && (forall i, j :: CoveredBy(d, position, i) && CoveredBy(d, position, j) ==> i == j)
       && (forall i, j :: 0 <= i < j < |d.log| ==> d.log[i].Hi() < d.log[j].Lo())
       && (forall i: nat :: CoveredBy(d, position, i) && d.log[i].Gap? ==>
             position !in d.queued && position !in d.passed)
  }

  lemma StartedBehind(s: Session, cursor: int, position: int)
    requires SessionInv(s) && s.desk.current.Some? && s.desk.Delivery().start == cursor + 1
    ensures DeliversBehind(s, cursor, position)
  {
    var all, d := Deliveries(s.desk), s.desk.Delivery();
    assert all[..|all| - 1] == s.desk.retired;
    Partition(d, position);
    forall i: nat | CoveredBy(d, position, i) && d.log[i].Gap? ensures position !in d.queued && position !in d.passed {
      GapCoversNothingHeld(d, i, position);
    }
  }

  // From a restart on, along any gentle run, nothing before the cursor and everything behind it is accounted for once.
  lemma RestartedRun(s: Session, cursor: int, steps: seq<Step>, position: int)
    requires SessionInv(s) && s.desk.current.Some? && NoBaseline(s) && GentleRun(s, steps)
    requires s.desk.Delivery().start == cursor + 1
    ensures DeliversBehind(Run(s, steps), cursor, position)
    ensures Run(s, steps).desk.retired == s.desk.retired
  {
    NeverRedelivered(s, steps);
    RunKeeps(s, steps);
    StartedBehind(Run(s, steps), cursor, position);
  }

  /**
   A cursor below the watermark that no snapshot preceded: the old delivery is done with, and along any gentle run what
   is handed over from the new one partitions [cursor + 1, nextSequence).
   */
  lemma FallRestartsBehindCursor(s: Session, cursor: int, projection: Option<Projection>, steps: seq<Step>,
                                 position: int)
    requires SessionInv(s) && s.Accepting() && s.lastSequence.Some? && cursor < s.lastSequence.value && s.snapshot.None?
    requires GentleRun(Next(s, Subscribed(cursor, projection)), steps)
    ensures var t := Run(Next(s, Subscribed(cursor, projection)), steps);
            DeliversBehind(t, cursor, position) && t.desk.retired == Deliveries(s.desk)
  {
    var after := Next(s, Subscribed(cursor, projection));
    FallStarts(s, cursor, projection);
    StepKeeps(s, Subscribed(cursor, projection));
    RestartedRun(after, cursor, steps, position);
  }

  lemma FallStarts(s: Session, cursor: int, projection: Option<Projection>)
    requires Streams(s) && s.Accepting() && s.lastSequence.Some? && cursor < s.lastSequence.value && s.snapshot.None?
    ensures var after := Next(s, Subscribed(cursor, projection));
            && after.desk == Desk(Some(Slot(Create(cursor + 1), false, None, None)), Deliveries(s.desk), s.desk.drains)
            && after.lastSequence == Some(cursor) && NoBaseline(after)
  {
  }

  // ---- ... that a snapshot did precede ----

  // The snapshot of a fall is being replayed, in a generation that is still there.
  ghost predicate Falling(s: Session, cursor: int) {
    && s.replay.Some? && s.replay.value.mode.Baseline? && s.replay.value.cursor == cursor
    && s.replay.value.signal == s.generation && s.generation !in s.abortedSignals && !s.closed
  }

  // Until the replay is over the generation must last; from then on the run need only be gentle.
  ghost predicate GentleFall(s: Session, steps: seq<Step>)
    decreases |steps|
  {
    steps != [] ==>
      && Gentle(s, steps[0])
      && (s.replay.Some? ==> !steps[0].EndGeneration? && (steps[0].DrainPass? ==> steps[0].reentry.Quiet?))
      && GentleFall(Next(s, steps[0]), steps[1..])
  }

  lemma {:induction false} GentleFallIsGentle(s: Session, steps: seq<Step>)
    requires GentleFall(s, steps)
    ensures GentleRun(s, steps)
    decreases |steps|
  {
    if steps != [] {
      GentleFallIsGentle(Next(s, steps[0]), steps[1..]);
    }
  }

  lemma FallBegins(s: Session, cursor: int, projection: Option<Projection>)
    requires Streams(s) && s.Accepting() && s.lastSequence.Some? && cursor < s.lastSequence.value && s.snapshot.Some?
    ensures Falling(Next(s, Subscribed(cursor, projection)), cursor)
  {
  }

  lemma FallingReplay(s: Session, cursor: int)
    requires Falling(s, cursor)
    ensures var after := ReplayStep(s);
            if s.replay.value.rows == [] then
              && after.desk
                 == Desk(Some(Slot(Create(cursor + 1), false, None, None)), Deliveries(s.desk), s.desk.drains)
              && NoBaseline(after)
            else Falling(after, cursor)
  {
  }

  lemma FallingPass(s: Session, cursor: int, i: nat, elapsed: nat)
    requires Falling(s, cursor)
    requires i < |s.desk.drains| && (s.desk.drains[i].phase.Looping? || s.desk.drains[i].phase.Filling?)
    ensures Falling(RunDrain(s, i, Quiet, elapsed), cursor)
  {
  }

  lemma FallingStep(s: Session, cursor: int, step: Step)
    requires Falling(s, cursor) && Gentle(s, step)
    requires !step.EndGeneration? && !step.ReplayRow? && (step.DrainPass? ==> step.reentry.Quiet?)
    ensures Falling(Next(s, step), cursor)
  {
    match step
    case DrainPass(i, reentry, elapsed) =>
      if i < |s.desk.drains| && (s.desk.drains[i].phase.Looping? || s.desk.drains[i].phase.Filling?) {
        FallingPass(s, cursor, i, elapsed);
      }
    case _ =>
  }

  // Until its last row the fall goes on; that row starts the new delivery.
  lemma FallingNext(s: Session, cursor: int, step: Step)
    requires Falling(s, cursor) && Gentle(s, step) && !step.EndGeneration? && (step.DrainPass? ==> step.reentry.Quiet?)
    ensures var after := Next(s, step);
            if step.ReplayRow? && s.replay.value.rows == [] then
              after.desk.current.Some? && after.desk.Delivery().start == cursor + 1 && NoBaseline(after)
            else Falling(after, cursor)
  {
    if step.ReplayRow? {
      FallingReplay(s, cursor);
    } else {
      FallingStep(s, cursor, step);
    }
  }

  /**
   A cursor below the watermark that a snapshot preceded: along any gentle run the snapshot is still being replayed, or
   what has been handed over since partitions [cursor + 1, nextSequence).
   */
  lemma {:induction false} BaselineRestartsBehindCursor(s: Session, cursor: int, steps: seq<Step>, position: int)
    requires SessionInv(s) && Falling(s, cursor) && GentleFall(s, steps)
    ensures Falling(Run(s, steps), cursor) || DeliversBehind(Run(s, steps), cursor, position)
    decreases |steps|
  {
    if steps != [] {
      StepKeeps(s, steps[0]);
      FallingNext(s, cursor, steps[0]);
      var after := Next(s, steps[0]);
      if steps[0].ReplayRow? && s.replay.value.rows == [] {
        GentleFallIsGentle(after, steps[1..]);
        RestartedRun(after, cursor, steps[1..], position);
      } else {
        BaselineRestartsBehindCursor(after, cursor, steps[1..], position);
      }
    }
  }

  // The marker itself begins it.
  lemma SnapshotFallRestarts(s: Session, cursor: int, projection: Option<Projection>, steps: seq<Step>, position: int)
    requires SessionInv(s) && s.Accepting() && s.lastSequence.Some? && cursor < s.lastSequence.value && s.snapshot.Some?
    requires GentleFall(Next(s, Subscribed(cursor, projection)), steps)
    ensures var t := Run(Next(s, Subscribed(cursor, projection)), steps);
            Falling(t, cursor) || DeliversBehind(t, cursor, position)
  {
    FallBegins(s, cursor, projection);
    StepKeeps(s, Subscribed(cursor, projection));
    BaselineRestartsBehindCursor(Next(s, Subscribed(cursor, projection)), cursor, steps, position);
  }
}
