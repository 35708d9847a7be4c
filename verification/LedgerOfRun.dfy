/**
 The usage ledger over whole runs: a turn's entry is its own events and nothing else, so its total
 appears exactly when those events form a complete turn.
 */
module LedgerOfRun {
  import opened NodeLookup
  import opened Options
  import opened Reducer
  import opened Runs
  import opened TimelineNodes
  import opened TurnClosure
  import opened TurnLedger
  import opened TurnScript
  import opened TurnState

  // What one event adds to the history of a turn; the turn's end starts it afresh.
  function HistoryAfter(history: seq<TurnEvent>, state: State, input: Input, turn: int): seq<TurnEvent> {
    if Ignored(state, input) then history
    else if input.event.TurnEnded? && input.event.turn == turn then []
    else
      match UsageEvent(state.turns, input.event)
      case Some(a) => if a.turn == turn then history + [a.event] else history
      case None => history
  }

  // The turn's events since the start, or since it last ended.
  function History(state: State, inputs: seq<Input>, turn: int): seq<TurnEvent> {
    if inputs == [] then []
    else
      var init := inputs[..|inputs| - 1];
      HistoryAfter(History(state, init, turn), ReduceAll(state, init), inputs[|inputs| - 1], turn)
  }

  lemma ReduceTurns(state: State, input: Input)
    ensures Reduce(state, input).turns == if Ignored(state, input) then state.turns else Track(state.turns, input.event)
  {
  }

  lemma UsageStep(turns: Turns, event: Event, turn: int, history: seq<TurnEvent>)
    requires EntryOf(turns.usage, turn) == ApplyAll(None, history)
    ensures event.TurnEnded? && event.turn == turn ==> EntryOf(UsageAfter(turns, event), turn).None?
    ensures !(event.TurnEnded? && event.turn == turn) ==>
              match UsageEvent(turns, event)
              case Some(a) =>
                EntryOf(UsageAfter(turns, event), turn)
                  == ApplyAll(None, if a.turn == turn then history + [a.event] else history)
              case None => EntryOf(UsageAfter(turns, event), turn) == ApplyAll(None, history)
  {
    match UsageEvent(turns, event)
    case Some(a) => ApplyPush(None, history, a.event);
    case None =>
  }

  lemma HistoryStep(state: State, input: Input, turn: int, history: seq<TurnEvent>)
    requires EntryOf(state.turns.usage, turn) == ApplyAll(None, history)
    ensures EntryOf(Reduce(state, input).turns.usage, turn) == ApplyAll(None, HistoryAfter(history, state, input, turn))
  {
    ReduceTurns(state, input);
    UsageStep(state.turns, input.event, turn, history);
  }

  lemma HistoryPush(state: State, past: seq<Input>, input: Input, turn: int)
    ensures History(state, past + [input], turn)
            == HistoryAfter(History(state, past, turn), ReduceAll(state, past), input, turn)
    ensures ReduceAll(state, past + [input]) == Reduce(ReduceAll(state, past), input)
  {
    assert (past + [input])[..|past + [input]| - 1] == past;
  }

  lemma NothingYet(state: State, turn: int)
    ensures ReduceAll(state, []) == state && History(state, [], turn) == [] && ApplyAll(None, []) == None
  {
  }

  // A turn's entry is the ledger of its own events, whatever happens to the other turns.
  lemma EntryIsHistory(state: State, inputs: seq<Input>, turn: int)
    requires turn !in state.turns.usage
    ensures EntryOf(ReduceAll(state, inputs).turns.usage, turn) == ApplyAll(None, History(state, inputs, turn))
  {
    var holds := (s: State, past: seq<Input>) =>
      s == ReduceAll(state, past) && EntryOf(s.turns.usage, turn) == ApplyAll(None, History(state, past, turn));
    forall s: State, past: seq<Input>, input: Input | holds(s, past) ensures holds(Reduce(s, input), past + [input]) {
      HistoryPush(state, past, input, turn);
      HistoryStep(s, input, turn, History(state, past, turn));
    }
    assert inputs[..0] == [];
    NothingYet(state, turn);
    RunKeeps(Reduce, holds, (input: Input) => true, state, inputs, 0);
  }

  lemma EndMarks(state: State, input: Input)
    requires !Ignored(state, input) && input.event.TurnEnded?
    ensures var event := input.event;
            Reduce(state, input).nodes
            == TurnClosed(Retained(state.nodes, event), event.turn, event.reason, event.failure, input.sequence,
                          TurnUsageAtEnd(state.turns, event.turn, event.reason))
  {
  }

  lemma UsageOnClosingRow(nodes: seq<Node>, turn: int, reason: EndReason, failure: Option<string>, sequence: int,
                          usage: Option<Normalized>, i: nat)
    requires i < |TurnClosed(nodes, turn, reason, failure, sequence, usage)|
    ensures var r := TurnClosed(nodes, turn, reason, failure, sequence, usage);
            OfTurn(r[i], turn) ==>
              r[i].body.message.turnUsage == if i == ClosingIndex(r, turn) && reason.TurnCompleted? then usage else None
  {
    var ended := WithTerminal(SettledRows(nodes, turn, reason, sequence), turn, reason, failure, sequence);
    MarkingKeepsClosing(ended, Marked(ended, turn, reason, usage), turn);
  }

  // The main result: when a turn completes, its closing row shows a total exactly when the turn's
  // events are a complete script with countable attempts, and the total is then the exact sum over the
  // script; every other row of the turn shows none.
  lemma TotalShownExactly(state: State, inputs: seq<Input>, end: Input, i: nat)
    requires end.event.TurnEnded? && end.event.reason.TurnCompleted? && end.event.turn !in state.turns.usage
    requires !Ignored(ReduceAll(state, inputs), end)
    requires i < |Reduce(ReduceAll(state, inputs), end).nodes|
    ensures var turn := end.event.turn;
            var r := Reduce(ReduceAll(state, inputs), end).nodes;
            OfTurn(r[i], turn) ==>
              (r[i].body.message.turnUsage.Some?
               <==> i == ClosingIndex(r, turn)
                    && exists script :: Finished(script) && Events(script) == History(state, inputs, turn)
                                        && Countable(Usages(script)))
              && (r[i].body.message.turnUsage.Some? ==>
                    forall script ::
                      Finished(script) && Events(script) == History(state, inputs, turn)
                        && Countable(Usages(script)) ==>
                        TotalsOf(r[i].body.message.turnUsage.value, NormalizeAll(Usages(script))))
  {
    var turn := end.event.turn;
    var s := ReduceAll(state, inputs);
    EntryIsHistory(state, inputs, turn);
    CompletesExactlyScripts(History(state, inputs, turn));
    EndMarks(s, end);
    UsageOnClosingRow(Retained(s.nodes, end.event), turn, end.event.reason, end.event.failure, end.sequence,
                      TurnUsageAtEnd(s.turns, turn, end.event.reason), i);
  }
}
