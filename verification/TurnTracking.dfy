/**
 The ledger object one transition works on: it copies a part of the previous state only when that
 part is first written.
 */
module TurnTracking {
  import opened Options
  import opened TimelineNodes
  import opened TurnLedger
  import opened TurnState

  class Tracking {
    const previous: Turns
    var ownTimings: Option<map<(int, int), Timing>>
    var ownUsage: Option<map<int, TurnUsage>>
    var ownClosed: Option<set<int>>
    var activeTurn: Option<int>

    constructor (turns: Turns)
      ensures previous == turns && Snapshot() == turns
    {
      previous := turns;
      ownTimings, ownUsage, ownClosed := None, None, None;
      activeTurn := turns.active;
    }

    function Timings(): map<(int, int), Timing>
      reads this
    {
      ownTimings.GetOr(previous.timings)
    }

    function Usage(): map<int, TurnUsage>
      reads this
    {
      ownUsage.GetOr(previous.usage)
    }

    function Closed(): set<int>
      reads this
    {
      ownClosed.GetOr(previous.closed)
    }

    function Snapshot(): Turns
      reads this
    {
      Turns(Timings(), Usage(), activeTurn, Closed())
    }

    // The turns with one ledger entry moved on by one event.
    ghost function Happened(turn: int, event: TurnEvent): Turns
      reads this
    {
      Snapshot().(usage := Put(Usage(), turn, Apply(EntryOf(Usage(), turn), event)))
    }

    method WriteTurnUsage(turn: int, tracking: Option<TurnUsage>)
      modifies this`ownUsage
      ensures Snapshot() == old(Snapshot()).(usage := Put(old(Usage()), turn, tracking))
    {
      if ownUsage.None? {
        ownUsage := Some(previous.usage);
      }
      match tracking {
        case None => ownUsage := Some(ownUsage.value - {turn});
        case Some(value) => ownUsage := Some(ownUsage.value[turn := value]);
      }
    }

    method TrackTurnStart(turn: int, duplicate: bool)
      modifies this`ownUsage
      ensures Snapshot() == old(Happened(turn, TurnStart(duplicate)))
    {
      var known := EntryOf(Usage(), turn);
      var entry: TurnUsage := TurnUsage(true, duplicate || known.Some?, [], None);
      if known.Some? {
        entry := entry.(attempts := known.value.attempts, active := known.value.active);
      }
      WriteTurnUsage(turn, Some(entry));
    }

    method TrackStepStart(turn: int, step: int)
      modifies this`ownUsage
      ensures Snapshot() == old(Happened(turn, StepStart(step)))
    {
      var tracking := EntryOf(Usage(), turn).GetOr(TurnUsage(false, false, [], None));
      WriteTurnUsage(turn,
                     Some(tracking.(invalid := tracking.invalid || tracking.active.Some?,
                                    active := Some(Active(step, Open)))));
    }

    method InvalidateTurnUsage(turn: Option<int>)
      modifies this`ownUsage
      ensures turn.None? ==> Snapshot() == old(Snapshot())
      ensures turn.Some? ==> Snapshot() == old(Happened(turn.value, Invalidated))
    {
      if turn.Some? {
        var tracking := EntryOf(Usage(), turn.value);
        if tracking.Some? {
          WriteTurnUsage(turn.value, Some(tracking.value.(invalid := true)));
        }
      }
    }

    method SettleUsageAttempt(turn: int, step: Option<int>, usage: Option<TokenUsage>, byMessage: bool)
      modifies this`ownUsage
      ensures Snapshot() == old(Happened(turn, Settled(step, usage, byMessage)))
    {
      var tracking := EntryOf(Usage(), turn);
      if tracking.None? {
        return;
      }
      var active := tracking.value.active;
      if step.None? || active.None? || active.value.step != step.value || !active.value.state.Open? {
        WriteTurnUsage(turn, Some(tracking.value.(invalid := true)));
        return;
      }
      WriteTurnUsage(turn, Some(tracking.value.(
        invalid := tracking.value.invalid || usage.None?,
        attempts := if usage.None? then tracking.value.attempts else tracking.value.attempts + [usage.value],
        active := Some(Active(step.value, if byMessage then MessageSettled else AttemptSettled)))));
    }

    method ScheduleUsageRetry(turn: int, step: int, id: string, attempt: int)
      modifies this`ownUsage
      ensures Snapshot() == old(Happened(turn, Scheduled(step, id, attempt)))
    {
      var tracking := EntryOf(Usage(), turn);
      if tracking.None? {
        return;
      }
      var active := tracking.value.active;
      if active.None? || active.value.step != step || !active.value.state.AttemptSettled? {
        WriteTurnUsage(turn, Some(tracking.value.(invalid := true)));
        return;
      }
      WriteTurnUsage(turn, Some(tracking.value.(active := Some(Active(step, RetryScheduled(id, attempt))))));
    }

    method StartUsageRetry(turn: int, step: int, id: string, attempt: int)
      modifies this`ownUsage
      ensures Snapshot() == old(Happened(turn, RetryStarted(step, id, attempt)))
    {
      var tracking := EntryOf(Usage(), turn);
      if tracking.None? {
        return;
      }
      var active := tracking.value.active;
      if active.None? || active.value.step != step || active.value.state != RetryScheduled(id, attempt) {
        WriteTurnUsage(turn, Some(tracking.value.(invalid := true)));
        return;
      }
      WriteTurnUsage(turn, Some(tracking.value.(active := Some(Active(step, Open)))));
    }

    method CloseUsageStep(turn: int, step: int)
      modifies this`ownUsage
      ensures Snapshot() == old(Happened(turn, StepEnd(step)))
    {
      var tracking := EntryOf(Usage(), turn);
      if tracking.None? {
        return;
      }
      var active := tracking.value.active;
      if active.None? || active.value.step != step || active.value.state.Open? {
        WriteTurnUsage(turn, Some(tracking.value.(invalid := true)));
        return;
      }
      WriteTurnUsage(turn, Some(tracking.value.(active := None)));
    }

    method NoteStepActivity(turn: int, step: Option<int>)
      modifies this`ownUsage
      ensures Snapshot() == old(Happened(turn, Activity(step)))
    {
      var tracking := EntryOf(Usage(), turn);
      if tracking.None? {
        return;
      }
      if step.None? {
        WriteTurnUsage(turn, Some(tracking.value.(invalid := true)));
        return;
      }
      var active := tracking.value.active;
      if active.None? || active.value.step != step.value || !active.value.state.Open? {
        WriteTurnUsage(turn, Some(tracking.value.(invalid := true)));
      }
    }

    method CommitTiming(turn: Option<int>, step: Option<int>, timing: Option<Timing>)
      modifies this`ownTimings
      ensures turn.None? || step.None? || timing.None? ==> Snapshot() == old(Snapshot())
      ensures turn.Some? && step.Some? && timing.Some? ==>
                Snapshot() == old(Snapshot()).(timings := old(Timings())[(turn.value, step.value) := timing.value])
    {
      if turn.None? || step.None? || timing.None? {
        return;
      }
      var key := (turn.value, step.value);
      if key in Timings() && Timings()[key] == timing.value {
        assert Timings() == Timings()[key := timing.value];
        return;
      }
      ownTimings := Some(Timings()[key := timing.value]);
    }

    method DeleteStepTiming(key: (int, int))
      modifies this`ownTimings
      ensures Snapshot() == old(Snapshot()).(timings := old(Timings()) - {key})
    {
      if key !in Timings() {
        assert Timings() == Timings() - {key};
        return;
      }
      ownTimings := Some(Timings() - {key});
    }

    method DeleteStepTimingsForTurn(turn: int)
      modifies this`ownTimings
      ensures Snapshot()
              == old(Snapshot()).(timings := map key | key in old(Timings()) && key.0 != turn :: old(Timings())[key])
    {
      ghost var before := Timings();
      var left := Timings().Keys;
      while left != {}
        invariant left <= before.Keys
        invariant Snapshot() == old(Snapshot()).(timings := Timings())
        invariant Timings() == map key | key in before && (key in left || key.0 != turn) :: before[key]
        decreases |left|
      {
        var key :| key in left;
        if key.0 == turn {
          DeleteStepTiming(key);
        }
        left := left - {key};
      }
    }

    method OpenTurn(turn: int)
      modifies this`activeTurn
      ensures Snapshot() == old(Snapshot()).(active := if turn in Closed() then old(activeTurn) else Some(turn))
    {
      if turn !in Closed() {
        activeTurn := Some(turn);
      }
    }

    method ReopenTurn(turn: int)
      modifies this`ownClosed
      ensures Snapshot() == old(Snapshot()).(closed := old(Closed()) - {turn})
    {
      ownClosed := Some(Closed() - {turn});
    }

    method RecordClosedTurn(turn: int)
      modifies this`ownClosed
      ensures Snapshot() == old(Snapshot()).(closed := old(Closed()) + {turn})
    {
      ownClosed := Some(Closed() + {turn});
    }

    method ForgetTurnUsage(turn: int)
      modifies this`ownUsage
      ensures Snapshot() == old(Snapshot()).(usage := old(Usage()) - {turn})
    {
      WriteTurnUsage(turn, None);
    }
  }

  // ---- what a transition does to the turns, arm by arm ----

  method TrackStarted(tracking: Tracking, turn: int)
    modifies tracking
    ensures tracking.Snapshot() == Track(old(tracking.Snapshot()), TurnStarted(turn))
  {
    var wasClosed := turn in tracking.Closed();
    if wasClosed {
      tracking.ReopenTurn(turn);
    } else {
      assert tracking.Closed() - {turn} == tracking.Closed();
    }
    tracking.TrackTurnStart(turn, wasClosed);
    tracking.activeTurn := Some(turn);
  }

  method TrackEnded(tracking: Tracking, turn: int, reason: EndReason, failure: Option<string>)
    modifies tracking
    ensures tracking.Snapshot() == Track(old(tracking.Snapshot()), TurnEnded(turn, reason, failure))
  {
    tracking.ForgetTurnUsage(turn);
    if tracking.activeTurn == Some(turn) {
      tracking.activeTurn := None;
    }
    if turn !in tracking.Closed() {
      tracking.RecordClosedTurn(turn);
    } else {
      assert tracking.Closed() + {turn} == tracking.Closed();
    }
    tracking.DeleteStepTimingsForTurn(turn);
  }

  method TrackStep(tracking: Tracking, turn: int, step: int, time: Option<int>)
    modifies tracking
    ensures tracking.Snapshot() == Track(old(tracking.Snapshot()), StepStarted(turn, step, time))
  {
    tracking.OpenTurn(turn);
    tracking.TrackStepStart(turn, step);
    if time.Some? {
      tracking.CommitTiming(Some(turn), Some(step),
                            Some(TimingAt(tracking.Timings(), (turn, step)).(stepStart := time)));
    }
  }

  method TrackDelta(tracking: Tracking, d: Delta)
    modifies tracking
    ensures tracking.Snapshot() == Track(old(tracking.Snapshot()), MessageDelta(d))
  {
    if d.turn.Some? {
      tracking.OpenTurn(d.turn.value);
      tracking.NoteStepActivity(d.turn.value, d.step);
    } else {
      tracking.InvalidateTurnUsage(tracking.activeTurn);
    }
    if d.delta != "" {
      tracking.CommitTiming(d.turn, d.step, NoteFirstToken(tracking.Timings(), d.turn, d.step, d.time));
    }
  }

  method TrackCompletion(tracking: Tracking, c: Completion)
    modifies tracking
    ensures tracking.Snapshot() == Track(old(tracking.Snapshot()), MessageCompleted(c))
  {
    if c.turn.Some? {
      tracking.OpenTurn(c.turn.value);
      tracking.SettleUsageAttempt(c.turn.value, c.step, c.usage, true);
    } else {
      tracking.InvalidateTurnUsage(tracking.activeTurn);
    }
    ghost var before := tracking.Timings();
    tracking.CommitTiming(c.turn, c.step, CompleteTiming(tracking.Timings(), c.turn, c.step, c.time));
    if c.turn.Some? && c.step.Some? {
      tracking.DeleteStepTiming((c.turn.value, c.step.value));
      assert tracking.Timings() == before - {(c.turn.value, c.step.value)};
    }
  }

  method TrackRetry(tracking: Tracking, r: RetrySignal)
    modifies tracking
    ensures tracking.Snapshot() == Track(old(tracking.Snapshot()), ModelRetry(r))
  {
    tracking.OpenTurn(r.turn);
    if r.begun {
      tracking.StartUsageRetry(r.turn, r.step, r.id, r.attempt);
    } else {
      tracking.ScheduleUsageRetry(r.turn, r.step, r.id, r.attempt);
    }
  }

  method TrackEvent(tracking: Tracking, event: Event)
    modifies tracking
    ensures tracking.Snapshot() == Track(old(tracking.Snapshot()), event)
  {
    match event
    case TurnStarted(turn) => TrackStarted(tracking, turn);
    case TurnEnded(turn, reason, failure) => TrackEnded(tracking, turn, reason, failure);
    case StepStarted(turn, step, time) => TrackStep(tracking, turn, step, time);
    case MessageDelta(d) => TrackDelta(tracking, d);
    case MessageCompleted(c) => TrackCompletion(tracking, c);
    case ModelRetry(r) => TrackRetry(tracking, r);
    case AssistantAttempt(turn, step, usage) =>
      tracking.OpenTurn(turn);
      tracking.SettleUsageAttempt(turn, Some(step), usage, false);
    case StepEnded(turn, step) =>
      tracking.OpenTurn(turn);
      tracking.CloseUsageStep(turn, step);
      tracking.DeleteStepTiming((turn, step));
    case ToolUpdated(_, tool) =>
      if tool.turn.Some? {
        tracking.OpenTurn(tool.turn.value);
      }
    case ConnectionLost(_) => tracking.activeTurn := None;
    case _ =>
  }
}
