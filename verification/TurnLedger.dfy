/**
 The per-turn ledger of attempts: what each tracked event does to it, when a turn's usage is
 complete, and what the total then is.
 */
module TurnLedger {
  import opened Options

  const MAX_SAFE_INTEGER := 9007199254740991

  datatype TokenUsage = TokenUsage(
    inputTokens: int,
    outputTokens: int,
    totalTokens: Option<int>,
    cacheReadTokens: Option<int>,
    cacheWriteTokens: Option<int>,
    reasoningTokens: Option<int>)

  datatype ActiveState =
    | Open
    | AttemptSettled
    | RetryScheduled(id: string, attempt: int)
    | MessageSettled

  datatype Active = Active(step: int, state: ActiveState)

  datatype TurnUsage = TurnUsage(turnStarted: bool, invalid: bool, attempts: seq<TokenUsage>, active: Option<Active>)

  // What one event means for the ledger of the turn it belongs to.
  datatype TurnEvent =
    | TurnStart(duplicate: bool)
    | StepStart(step: int)
    | Activity(onStep: Option<int>)
    | Settled(ofStep: Option<int>, usage: Option<TokenUsage>, byMessage: bool)
    | Scheduled(step: int, id: string, attempt: int)
    | RetryStarted(step: int, id: string, attempt: int)
    | StepEnd(step: int)
    | Invalidated

  function TrackTurnStart(tracking: Option<TurnUsage>, duplicate: bool): TurnUsage {
    match tracking
    case None => TurnUsage(true, duplicate, [], None)
    case Some(t) => TurnUsage(true, true, t.attempts, t.active)
  }

  function TrackStepStart(tracking: Option<TurnUsage>, step: int): TurnUsage {
    var t := tracking.GetOr(TurnUsage(false, false, [], None));
    t.(invalid := t.invalid || t.active.Some?, active := Some(Active(step, Open)))
  }

  function SettleUsageAttempt(t: TurnUsage, step: Option<int>, usage: Option<TokenUsage>, byMessage: bool): TurnUsage {
    if step.None? || t.active != Some(Active(step.value, Open)) then t.(invalid := true)
    else
      t.(invalid := t.invalid || usage.None?,
      attempts := if usage.None? then t.attempts else t.attempts + [usage.value],
      active := Some(Active(step.value, if byMessage then MessageSettled else AttemptSettled)))
  }

  function ScheduleUsageRetry(t: TurnUsage, step: int, id: string, attempt: int): TurnUsage {
    if t.active != Some(Active(step, AttemptSettled)) then t.(invalid := true)
    else t.(active := Some(Active(step, RetryScheduled(id, attempt))))
  }

  function StartUsageRetry(t: TurnUsage, step: int, id: string, attempt: int): TurnUsage {
    if t.active != Some(Active(step, RetryScheduled(id, attempt))) then t.(invalid := true)
    else t.(active := Some(Active(step, Open)))
  }

  function CloseUsageStep(t: TurnUsage, step: int): TurnUsage {
    if t.active.None? || t.active.value.step != step || t.active.value.state.Open? then t.(invalid := true)
    else t.(active := None)
  }

  function NoteStepActivity(t: TurnUsage, step: Option<int>): TurnUsage {
    if step.None? || t.active != Some(Active(step.value, Open)) then t.(invalid := true) else t
  }

  // A turn nobody has opened ignores everything but a turn or step start.
  function Apply(tracking: Option<TurnUsage>, event: TurnEvent): Option<TurnUsage> {
    match event
    case TurnStart(duplicate) => Some(TrackTurnStart(tracking, duplicate))
    case StepStart(step) => Some(TrackStepStart(tracking, step))
    case _ =>
      if tracking.None? then None
      else
        var t := tracking.value;
        match event
        case Activity(step) => Some(NoteStepActivity(t, step))
        case Settled(step, usage, byMessage) => Some(SettleUsageAttempt(t, step, usage, byMessage))
        case Scheduled(step, id, attempt) => Some(ScheduleUsageRetry(t, step, id, attempt))
        case RetryStarted(step, id, attempt) => Some(StartUsageRetry(t, step, id, attempt))
        case StepEnd(step) => Some(CloseUsageStep(t, step))
        case Invalidated => Some(t.(invalid := true))
  }

  function ApplyAll(tracking: Option<TurnUsage>, events: seq<TurnEvent>): Option<TurnUsage> {
    if events == [] then tracking
    else Apply(ApplyAll(tracking, events[..|events| - 1]), events[|events| - 1])
  }

  // ---- completeTurnUsage ----

  datatype Normalized = Normalized(
    inputTokens: int,
    outputTokens: int,
    totalTokens: int,
    cacheReadTokens: Option<int>,
    cacheWriteTokens: Option<int>,
    reasoningTokens: Option<int>)

  predicate IsTokenCount(value: int) {
    0 <= value <= MAX_SAFE_INTEGER
  }

  predicate IsOptionalCount(value: Option<int>) {
    value.Some? ==> IsTokenCount(value.value)
  }

  function Sum(values: seq<int>): int {
    if values == [] then 0 else Sum(values[..|values| - 1]) + values[|values| - 1]
  }

  predicate AllCounts(values: seq<int>) {
    forall i :: 0 <= i < |values| ==> IsTokenCount(values[i])
  }

  function SafeTokenSum(values: seq<int>): Option<int> {
    if AllCounts(values) && Sum(values) <= MAX_SAFE_INTEGER then Some(Sum(values)) else None
  }

  lemma {:induction false} SumGrows(values: seq<int>, i: nat)
    requires AllCounts(values) && i <= |values|
    ensures 0 <= Sum(values[..i]) <= Sum(values)
    decreases |values|
  {
    if i == |values| {
      assert values[..i] == values;
      if i > 0 {
        SumGrows(values[..i - 1], i - 1);
        assert values[..i - 1][..i - 1] == values[..i - 1];
      }
    } else {
      var rest := values[..|values| - 1];
      SumGrows(rest, i);
      assert rest[..i] == values[..i];
    }
  }

  // The running sum stops at the first value, or partial sum, that is not a safe count.
  method ComputeSafeTokenSum(values: seq<int>) returns (sum: Option<int>)
    ensures sum == SafeTokenSum(values)
  {
    var total := 0;
    for i := 0 to |values|
      invariant AllCounts(values[..i]) && total == Sum(values[..i]) && IsTokenCount(total)
    {
      assert values[..i + 1][..i] == values[..i];
      if !IsTokenCount(values[i]) {
        return None;
      }
      total := total + values[i];
      if total > MAX_SAFE_INTEGER {
        if AllCounts(values) {
          SumGrows(values, i + 1);
        }
        return None;
      }
    }
    assert values[..|values|] == values;
    return Some(total);
  }

  function NormalizeUsageAttempt(usage: TokenUsage): Option<Normalized> {
    var read, write := usage.cacheReadTokens, usage.cacheWriteTokens;
    if !IsTokenCount(usage.inputTokens) || !IsTokenCount(usage.outputTokens) then None
    else if !IsOptionalCount(read) || !IsOptionalCount(write) then None
    else if usage.reasoningTokens.Some?
            && (!IsTokenCount(usage.reasoningTokens.value) || usage.outputTokens < usage.reasoningTokens.value) then
               None
    else
      var knownPrompt := usage.inputTokens + read.GetOr(0) + write.GetOr(0);
      if knownPrompt > MAX_SAFE_INTEGER then None
      else if usage.totalTokens.Some? then
        var exactPrompt := usage.totalTokens.value - usage.outputTokens;
        if !IsTokenCount(usage.totalTokens.value) || exactPrompt < knownPrompt then None
        else if read.Some? && write.Some? && exactPrompt != knownPrompt then None
        else
          Some(Normalized(usage.inputTokens, usage.outputTokens, usage.totalTokens.value, read, write,
                          usage.reasoningTokens))
      else if read.None? || write.None? || knownPrompt + usage.outputTokens > MAX_SAFE_INTEGER then None
      else
        Some(Normalized(usage.inputTokens, usage.outputTokens, knownPrompt + usage.outputTokens, read, write,
                        usage.reasoningTokens))
  }

  function Column(attempts: seq<Normalized>, field: Normalized -> int): seq<int> {
    seq(|attempts|, i requires 0 <= i < |attempts| => field(attempts[i]))
  }

  // A field some attempt does not report has no total.
  function SafeOptionalTokenSum(attempts: seq<Normalized>, field: Normalized -> Option<int>): Option<int> {
    if exists i :: 0 <= i < |attempts| && field(attempts[i]).None? then None
    else SafeTokenSum(Column(attempts, (a: Normalized) => field(a).GetOr(0)))
  }

  predicate AllNormalize(attempts: seq<TokenUsage>) {
    forall i :: 0 <= i < |attempts| ==> NormalizeUsageAttempt(attempts[i]).Some?
  }

  function NormalizeAll(attempts: seq<TokenUsage>): seq<Normalized>
    requires AllNormalize(attempts)
  {
    seq(|attempts|, i requires 0 <= i < |attempts| => NormalizeUsageAttempt(attempts[i]).value)
  }

  const INPUT := (a: Normalized) => a.inputTokens
  const OUTPUT := (a: Normalized) => a.outputTokens
  const TOTAL := (a: Normalized) => a.totalTokens
  const CACHE_READ := (a: Normalized) => a.cacheReadTokens
  const CACHE_WRITE := (a: Normalized) => a.cacheWriteTokens
  const REASONING := (a: Normalized) => a.reasoningTokens

  function CompleteTurnUsage(tracking: Option<TurnUsage>): Option<Normalized> {
    if tracking.None? || !tracking.value.turnStarted || tracking.value.invalid || tracking.value.active.Some?
       || tracking.value.attempts == [] || !AllNormalize(tracking.value.attempts) then None
    else
      var attempts := NormalizeAll(tracking.value.attempts);
      var input := SafeTokenSum(Column(attempts, INPUT));
      var output := SafeTokenSum(Column(attempts, OUTPUT));
      var total := SafeTokenSum(Column(attempts, TOTAL));
      if input.None? || output.None? || total.None? then None
      else
        Some(Normalized(input.value, output.value, total.value,
                        SafeOptionalTokenSum(attempts, CACHE_READ),
                        SafeOptionalTokenSum(attempts, CACHE_WRITE),
                        SafeOptionalTokenSum(attempts, REASONING)))
  }
}
