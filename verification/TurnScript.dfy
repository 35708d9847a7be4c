/**
 Which event sequences complete a turn's usage: a grammar of well-formed turns, and the proof that
 the ledger accepts exactly those and adds up exactly their attempts.
 */
module TurnScript {
  import opened Options
  import opened TurnLedger

  // An attempt that failed and was retried: some activity, its settlement, the retry announced and begun.
  datatype Retried = Retried(activity: nat, usage: TokenUsage, id: string, attempt: int)

  // How far the last attempt of a step has come.
  datatype Stage =
    | Running
    | Failed(usage: TokenUsage)
    | Waiting(usage: TokenUsage, id: string, attempt: int)
    | Answered(usage: TokenUsage)

  datatype StepScript = StepScript(step: int, retried: seq<Retried>, activity: nat, stage: Stage)

  // Events before the turn opens leave no trace; then come whole steps and perhaps an open one.
  datatype Script = Script(prelude: seq<TurnEvent>, steps: seq<StepScript>, open: Option<StepScript>)

  predicate Ignorable(event: TurnEvent) {
    !event.TurnStart? && !event.StepStart?
  }

  predicate WellFormed(script: Script) {
    && (forall i :: 0 <= i < |script.prelude| ==> Ignorable(script.prelude[i]))
    && AllSettled(script.steps)
  }

  // Every step's last attempt has at least settled.
  predicate AllSettled(steps: seq<StepScript>) {
    forall i :: 0 <= i < |steps| ==> !steps[i].stage.Running?
  }

  function Activities(step: int, count: nat): seq<TurnEvent> {
    if count == 0 then [] else Activities(step, count - 1) + [Activity(Some(step))]
  }

  function RetriedEvents(step: int, retried: seq<Retried>): seq<TurnEvent> {
    if retried == [] then []
    else
      var r := retried[|retried| - 1];
      RetriedEvents(step, retried[..|retried| - 1]) + Activities(step, r.activity)
      + [Settled(Some(step), Some(r.usage), false)] + [Scheduled(step, r.id, r.attempt)]
        + [RetryStarted(step, r.id, r.attempt)]
  }

  function StageEvents(step: int, stage: Stage): seq<TurnEvent> {
    match stage
    case Running => []
    case Failed(usage) => [Settled(Some(step), Some(usage), false)]
    case Waiting(usage, id, attempt) => [Settled(Some(step), Some(usage), false)] + [Scheduled(step, id, attempt)]
    case Answered(usage) => [Settled(Some(step), Some(usage), true)]
  }

  function StepEvents(s: StepScript): seq<TurnEvent> {
    [StepStart(s.step)] + RetriedEvents(s.step, s.retried) + Activities(s.step, s.activity)
      + StageEvents(s.step, s.stage)
  }

  function StepsEvents(steps: seq<StepScript>): seq<TurnEvent> {
    if steps == [] then []
    else
      StepsEvents(steps[..|steps| - 1]) + StepEvents(steps[|steps| - 1]) + [StepEnd(steps[|steps| - 1].step)]
  }

  function Events(script: Script): seq<TurnEvent> {
    script.prelude + [TurnStart(false)] + StepsEvents(script.steps)
    + if script.open.Some? then StepEvents(script.open.value) else []
  }

  // ---- the attempts a script reports ----

  function RetriedUsages(retried: seq<Retried>): seq<TokenUsage> {
    if retried == [] then [] else RetriedUsages(retried[..|retried| - 1]) + [retried[|retried| - 1].usage]
  }

  function StageUsages(stage: Stage): seq<TokenUsage> {
    if stage.Running? then [] else [stage.usage]
  }

  function StepUsages(s: StepScript): seq<TokenUsage> {
    RetriedUsages(s.retried) + StageUsages(s.stage)
  }

  function StepsUsages(steps: seq<StepScript>): seq<TokenUsage> {
    if steps == [] then [] else StepsUsages(steps[..|steps| - 1]) + StepUsages(steps[|steps| - 1])
  }

  function Usages(script: Script): seq<TokenUsage> {
    StepsUsages(script.steps) + if script.open.Some? then StepUsages(script.open.value) else []
  }

  function StageState(stage: Stage): ActiveState {
    match stage
    case Running => Open
    case Failed(_) => AttemptSettled
    case Waiting(_, id, attempt) => RetryScheduled(id, attempt)
    case Answered(_) => MessageSettled
  }

  // The ledger entry a script leads to.
  function Entry(script: Script): TurnUsage {
    TurnUsage(true, false, Usages(script),
              if script.open.Some? then Some(Active(script.open.value.step, StageState(script.open.value.stage)))
              else None)
  }

  // ---- every script is accepted ----

  lemma {:induction false} ApplyAllAppend(t: Option<TurnUsage>, a: seq<TurnEvent>, b: seq<TurnEvent>)
    ensures ApplyAll(t, a + b) == ApplyAll(ApplyAll(t, a), b)
    decreases |b|
  {
    if b == [] {
      assert a + b == a;
    } else {
      assert (a + b)[..|a + b| - 1] == a + b[..|b| - 1];
      ApplyAllAppend(t, a, b[..|b| - 1]);
    }
  }

  lemma ApplyOne(t: Option<TurnUsage>, event: TurnEvent)
    ensures ApplyAll(t, [event]) == Apply(t, event)
  {
    assert [event][..0] == [];
  }

  lemma {:induction false} PreludeIgnored(prelude: seq<TurnEvent>)
    requires forall i :: 0 <= i < |prelude| ==> Ignorable(prelude[i])
    ensures ApplyAll(None, prelude).None?
    decreases |prelude|
  {
    if prelude != [] {
      PreludeIgnored(prelude[..|prelude| - 1]);
    }
  }

  lemma {:induction false} ActivitiesAccepted(t: TurnUsage, step: int, count: nat)
    requires t.active == Some(Active(step, Open))
    ensures ApplyAll(Some(t), Activities(step, count)) == Some(t)
  {
    if count > 0 {
      ActivitiesAccepted(t, step, count - 1);
      assert Activities(step, count)[..|Activities(step, count)| - 1] == Activities(step, count - 1);
    }
  }

  lemma ApplyPush(t: Option<TurnUsage>, events: seq<TurnEvent>, event: TurnEvent)
    ensures ApplyAll(t, events + [event]) == Apply(ApplyAll(t, events), event)
  {
    assert (events + [event])[..|events + [event]| - 1] == events;
  }

  lemma Regroup<T>(a: seq<T>, b: seq<T>, c: seq<T>)
    ensures a + b + c == a + (b + c)
  {
  }

  lemma {:induction false} RetriedAccepted(t: TurnUsage, step: int, retried: seq<Retried>)
    requires t.active == Some(Active(step, Open))
    ensures ApplyAll(Some(t), RetriedEvents(step, retried)) == Some(t.(attempts := t.attempts + RetriedUsages(retried)))
    decreases |retried|
  {
    if retried == [] {
      assert t.attempts + RetriedUsages(retried) == t.attempts;
    } else {
      var init, r := retried[..|retried| - 1], retried[|retried| - 1];
      var before := RetriedEvents(step, init);
      var t1 := t.(attempts := t.attempts + RetriedUsages(init));
      RetriedAccepted(t, step, init);
      ActivitiesAccepted(t1, step, r.activity);
      ApplyAllAppend(Some(t), before, Activities(step, r.activity));
      OneMoreRetry(Some(t), before + Activities(step, r.activity), t1, step, r);
      Regroup(t.attempts, RetriedUsages(init), [r.usage]);
    }
  }

  lemma OneMoreRetry(t: Option<TurnUsage>, run: seq<TurnEvent>, t1: TurnUsage, step: int, r: Retried)
    requires ApplyAll(t, run) == Some(t1) && t1.active == Some(Active(step, Open))
    ensures ApplyAll(t, run + [Settled(Some(step), Some(r.usage), false)] + [Scheduled(step, r.id, r.attempt)]
                        + [RetryStarted(step, r.id, r.attempt)])
            == Some(t1.(attempts := t1.attempts + [r.usage]))
  {
    var settled := run + [Settled(Some(step), Some(r.usage), false)];
    ApplyPush(t, run, Settled(Some(step), Some(r.usage), false));
    ApplyPush(t, settled, Scheduled(step, r.id, r.attempt));
    ApplyPush(t, settled + [Scheduled(step, r.id, r.attempt)], RetryStarted(step, r.id, r.attempt));
  }

  lemma ApplyTwo(t: Option<TurnUsage>, first: TurnEvent, second: TurnEvent)
    ensures ApplyAll(t, [first] + [second]) == Apply(Apply(t, first), second)
  {
    ApplyPush(t, [first], second);
    ApplyOne(t, first);
  }

  lemma SettledOnce(t: TurnUsage, step: int, usage: TokenUsage, byMessage: bool)
    requires t.active == Some(Active(step, Open)) && !t.invalid
    ensures Apply(Some(t), Settled(Some(step), Some(usage), byMessage))
            == Some(t.(attempts := t.attempts + [usage],
                       active := Some(Active(step, if byMessage then MessageSettled else AttemptSettled))))
  {
  }

  // What a step's last attempt adds, after its retries and activity.
  lemma StageAccepted(t: TurnUsage, step: int, stage: Stage)
    requires t.active == Some(Active(step, Open)) && !t.invalid
    ensures ApplyAll(Some(t), StageEvents(step, stage))
            == Some(t.(attempts := t.attempts + StageUsages(stage), active := Some(Active(step, StageState(stage)))))
  {
    match stage
    case Running => assert t.attempts + [] == t.attempts;
    case Failed(usage) =>
      ApplyOne(Some(t), Settled(Some(step), Some(usage), false));
      SettledOnce(t, step, usage, false);
    case Waiting(usage, id, attempt) =>
      ApplyTwo(Some(t), Settled(Some(step), Some(usage), false), Scheduled(step, id, attempt));
      SettledOnce(t, step, usage, false);
    case Answered(usage) =>
      ApplyOne(Some(t), Settled(Some(step), Some(usage), true));
      SettledOnce(t, step, usage, true);
  }

  lemma StepAccepted(t: TurnUsage, s: StepScript)
    requires t.active.None? && !t.invalid
    ensures ApplyAll(Some(t), StepEvents(s))
            == Some(t.(attempts := t.attempts + StepUsages(s), active := Some(Active(s.step, StageState(s.stage)))))
  {
    var begun := t.(active := Some(Active(s.step, Open)));
    var retried := begun.(attempts := t.attempts + RetriedUsages(s.retried));
    var first, second := RetriedEvents(s.step, s.retried), Activities(s.step, s.activity);
    ApplyOne(Some(t), StepStart(s.step));
    RetriedAccepted(begun, s.step, s.retried);
    ApplyAllAppend(Some(t), [StepStart(s.step)], first);
    ActivitiesAccepted(retried, s.step, s.activity);
    ApplyAllAppend(Some(t), [StepStart(s.step)] + first, second);
    StageAccepted(retried, s.step, s.stage);
    ApplyAllAppend(Some(t), [StepStart(s.step)] + first + second, StageEvents(s.step, s.stage));
    assert t.attempts + StepUsages(s) == retried.attempts + StageUsages(s.stage);
  }

  lemma {:induction false} StepsAccepted(t: TurnUsage, steps: seq<StepScript>)
    requires t.active.None? && !t.invalid
    requires AllSettled(steps)
    ensures ApplyAll(Some(t), StepsEvents(steps)) == Some(t.(attempts := t.attempts + StepsUsages(steps)))
    decreases |steps|
  {
    if steps == [] {
      assert t.attempts + StepsUsages(steps) == t.attempts;
    } else {
      var init, s := steps[..|steps| - 1], steps[|steps| - 1];
      var t1 := t.(attempts := t.attempts + StepsUsages(init));
      StepsAccepted(t, init);
      OneMoreStep(Some(t), StepsEvents(init), t1, s);
      Regroup(t.attempts, StepsUsages(init), StepUsages(s));
    }
  }

  lemma OneMoreStep(t: Option<TurnUsage>, before: seq<TurnEvent>, t1: TurnUsage, s: StepScript)
    requires ApplyAll(t, before) == Some(t1)
    requires t1.active.None? && !t1.invalid && !s.stage.Running?
    ensures ApplyAll(t, before + StepEvents(s) + [StepEnd(s.step)])
            == Some(t1.(attempts := t1.attempts + StepUsages(s)))
  {
    StepAccepted(t1, s);
    ApplyAllAppend(t, before, StepEvents(s));
    ApplyPush(t, before + StepEvents(s), StepEnd(s.step));
  }

  lemma ScriptAccepted(script: Script)
    requires WellFormed(script)
    ensures ApplyAll(None, Events(script)) == Some(Entry(script))
  {
    var begun := TurnUsage(true, false, [], None);
    PreludeIgnored(script.prelude);
    ApplyAllAppend(None, script.prelude, [TurnStart(false)]);
    ApplyOne(None, TurnStart(false));
    var start := script.prelude + [TurnStart(false)];
    assert ApplyAll(None, start) == Some(begun);
    ApplyAllAppend(None, start, StepsEvents(script.steps));
    StepsAccepted(begun, script.steps);
    var closed := begun.(attempts := [] + StepsUsages(script.steps));
    assert [] + StepsUsages(script.steps) == StepsUsages(script.steps);
    if script.open.Some? {
      ApplyAllAppend(None, start + StepsEvents(script.steps), StepEvents(script.open.value));
      StepAccepted(closed, script.open.value);
    } else {
      assert start + StepsEvents(script.steps) + [] == start + StepsEvents(script.steps);
      assert Usages(script) == StepsUsages(script.steps);
    }
  }

  // ---- nothing else is accepted ----

  // The open step, one event on.
  function ExtendStep(s: StepScript, event: TurnEvent): StepScript {
    match event
    case Activity(_) => s.(activity := s.activity + 1)
    case Settled(_, Some(usage), byMessage) => s.(stage := if byMessage then Answered(usage) else Failed(usage))
    case Scheduled(_, id, attempt) => if s.stage.Failed? then s.(stage := Waiting(s.stage.usage, id, attempt)) else s
    case RetryStarted(_, id, attempt) =>
      if s.stage.Waiting? then
        StepScript(s.step, s.retried + [Retried(s.activity, s.stage.usage, id, attempt)], 0, Running)
      else s
    case _ => s
  }

  // The script of the events so far, one event on.
  function Extend(script: Script, event: TurnEvent): Script {
    if script.open.None? then
      if event.StepStart? then script.(open := Some(StepScript(event.step, [], 0, Running))) else script
    else if event.StepEnd? then script.(steps := script.steps + [script.open.value], open := None)
    else script.(open := Some(ExtendStep(script.open.value, event)))
  }

  // What the ledger accepts while a step is open.
  lemma AcceptedInStep(s: StepScript, event: TurnEvent)
    requires !Apply(Some(TurnUsage(true, false, [], Some(Active(s.step, StageState(s.stage))))), event).value.invalid
    ensures match event
            case Activity(step) => s.stage.Running? && step == Some(s.step)
            case Settled(step, usage, _) => s.stage.Running? && step == Some(s.step) && usage.Some?
            case Scheduled(step, _, _) => s.stage.Failed? && step == s.step
            case RetryStarted(step, id, attempt) => s.stage == Waiting(s.stage.usage, id, attempt) && step == s.step
            case StepEnd(step) => step == s.step && !s.stage.Running?
            case _ => false
  {
  }

  lemma RetriedEventsPush(step: int, retried: seq<Retried>, r: Retried)
    ensures RetriedEvents(step, retried + [r])
            == RetriedEvents(step, retried) + Activities(step, r.activity) + [Settled(Some(step), Some(r.usage), false)]
               + [Scheduled(step, r.id, r.attempt)] + [RetryStarted(step, r.id, r.attempt)]
  {
    assert (retried + [r])[..|retried|] == retried;
  }

  lemma Regroup5<T>(first: seq<T>, a: seq<T>, b: seq<T>, c: seq<T>, d: seq<T>, e: seq<T>)
    ensures first + (a + b + c + d + e) == first + a + b + (c + d) + e
  {
  }

  lemma RetryExtends(s: StepScript, id: string, attempt: int)
    requires s.stage.Waiting? && s.stage.id == id && s.stage.attempt == attempt
    ensures StepEvents(ExtendStep(s, RetryStarted(s.step, id, attempt)))
            == StepEvents(s) + [RetryStarted(s.step, id, attempt)]
  {
    var r := Retried(s.activity, s.stage.usage, id, attempt);
    RetriedEventsPush(s.step, s.retried, r);
    assert Activities(s.step, 0) == [];
    Regroup5([StepStart(s.step)], RetriedEvents(s.step, s.retried), Activities(s.step, s.activity),
             [Settled(Some(s.step), Some(s.stage.usage), false)], [Scheduled(s.step, id, attempt)],
             [RetryStarted(s.step, id, attempt)]);
  }

  // One more event of the open step adds that event to the step.
  lemma StepExtends(s: StepScript, event: TurnEvent)
    requires !Apply(Some(TurnUsage(true, false, [], Some(Active(s.step, StageState(s.stage))))), event).value.invalid
    requires !event.StepEnd?
    ensures StepEvents(ExtendStep(s, event)) == StepEvents(s) + [event]
  {
    AcceptedInStep(s, event);
    var start := [StepStart(s.step)] + RetriedEvents(s.step, s.retried);
    if event.RetryStarted? {
      RetryExtends(s, event.id, event.attempt);
    } else if event.Activity? {
      Regroup(start, Activities(s.step, s.activity), [event]);
    } else if event.Settled? {
      assert StageEvents(s.step, s.stage) == [];
    } else {
      Regroup(start + Activities(s.step, s.activity), StageEvents(s.step, s.stage), [event]);
    }
  }

  lemma StepClosed(start: seq<TurnEvent>, steps: seq<StepScript>, s: StepScript)
    ensures start + StepsEvents(steps + [s]) + [] == start + StepsEvents(steps) + StepEvents(s) + [StepEnd(s.step)]
  {
    assert (steps + [s])[..|steps|] == steps;
  }

  lemma ExtendEnds(script: Script, event: TurnEvent)
    requires WellFormed(script) && script.open.Some? && event.StepEnd?
    requires event.step == script.open.value.step && !script.open.value.stage.Running?
    ensures WellFormed(Extend(script, event)) && Events(Extend(script, event)) == Events(script) + [event]
  {
    var s := script.open.value;
    assert (script.steps + [s])[..|script.steps|] == script.steps;
    StepClosed(script.prelude + [TurnStart(false)], script.steps, s);
  }

  lemma ExtendGoesOn(script: Script, event: TurnEvent)
    requires WellFormed(script) && script.open.Some? && !event.StepEnd?
    requires StepEvents(ExtendStep(script.open.value, event)) == StepEvents(script.open.value) + [event]
    ensures WellFormed(Extend(script, event)) && Events(Extend(script, event)) == Events(script) + [event]
  {
    Regroup(script.prelude + [TurnStart(false)] + StepsEvents(script.steps), StepEvents(script.open.value), [event]);
  }

  lemma StepAlone(script: Script, event: TurnEvent)
    requires script.open.Some? && !Apply(Some(Entry(script)), event).value.invalid
    ensures var s := script.open.value;
      !Apply(Some(TurnUsage(true, false, [], Some(Active(s.step, StageState(s.stage))))), event).value.invalid
  {
  }

  lemma ExtendOpened(script: Script, event: TurnEvent)
    requires WellFormed(script) && script.open.Some?
    requires !Apply(Some(Entry(script)), event).value.invalid
    ensures WellFormed(Extend(script, event)) && Events(Extend(script, event)) == Events(script) + [event]
  {
    StepAlone(script, event);
    AcceptedInStep(script.open.value, event);
    if event.StepEnd? {
      ExtendEnds(script, event);
    } else {
      StepExtends(script.open.value, event);
      ExtendGoesOn(script, event);
    }
  }

  lemma ExtendClosed(script: Script, event: TurnEvent)
    requires WellFormed(script) && script.open.None?
    requires !Apply(Some(Entry(script)), event).value.invalid
    ensures WellFormed(Extend(script, event)) && Events(Extend(script, event)) == Events(script) + [event]
  {
    assert event.StepStart?;
    assert StepEvents(StepScript(event.step, [], 0, Running)) == [event];
  }

  lemma ApplySticky(t: TurnUsage, event: TurnEvent)
    ensures Apply(Some(t), event).Some?
    ensures t.invalid ==> Apply(Some(t), event).value.invalid
    ensures !t.turnStarted && Apply(Some(t), event).value.turnStarted ==> Apply(Some(t), event).value.invalid
  {
  }

  lemma ExtendScript(script: Script, event: TurnEvent)
    requires WellFormed(script)
    requires !Apply(Some(Entry(script)), event).value.invalid
    ensures WellFormed(Extend(script, event)) && Events(Extend(script, event)) == Events(script) + [event]
  {
    if script.open.Some? {
      ExtendOpened(script, event);
    } else {
      ExtendClosed(script, event);
    }
  }

  predicate ValidOpened(entry: Option<TurnUsage>) {
    entry.Some? && entry.value.turnStarted && !entry.value.invalid
  }

  lemma FirstTracked(before: seq<TurnEvent>, event: TurnEvent)
    requires ApplyAll(None, before).None? && ValidOpened(Apply(None, event))
    ensures WellFormed(Script(before, [], None)) && Events(Script(before, [], None)) == before + [event]
  {
    NothingTracked(before);
  }

  // A valid entry of a turn that was opened was reached by the events of some script.
  lemma {:induction false} Parse(events: seq<TurnEvent>) returns (script: Script)
    requires ValidOpened(ApplyAll(None, events))
    ensures WellFormed(script) && Events(script) == events
    decreases |events|
  {
    var before := events[..|events| - 1];
    var event := events[|events| - 1];
    var entry := ApplyAll(None, before);
    assert events == before + [event];
    if entry.Some? {
      ApplySticky(entry.value, event);
      var prefix := Parse(before);
      ScriptAccepted(prefix);
      ExtendScript(prefix, event);
      script := Extend(prefix, event);
    } else {
      FirstTracked(before, event);
      script := Script(before, [], None);
    }
  }

  lemma {:induction false} NothingTracked(events: seq<TurnEvent>)
    requires ApplyAll(None, events).None?
    ensures forall i :: 0 <= i < |events| ==> Ignorable(events[i])
    decreases |events|
  {
    if events != [] {
      NothingTracked(events[..|events| - 1]);
    }
  }

  // ---- the main result ----

  // A finished script: at least one step, none open.
  predicate Finished(script: Script) {
    WellFormed(script) && script.steps != [] && script.open.None?
  }

  // Every attempt can be read exactly, and the three totals stay within the safe integers.
  predicate Countable(attempts: seq<TokenUsage>) {
    && AllNormalize(attempts)
    && Sum(Column(NormalizeAll(attempts), INPUT)) <= MAX_SAFE_INTEGER
    && Sum(Column(NormalizeAll(attempts), OUTPUT)) <= MAX_SAFE_INTEGER
    && Sum(Column(NormalizeAll(attempts), TOTAL)) <= MAX_SAFE_INTEGER
  }

  lemma StepHasUsage(s: StepScript)
    requires !s.stage.Running?
    ensures StepUsages(s) != []
  {
  }

  lemma NormalizedCounts(usage: TokenUsage)
    requires NormalizeUsageAttempt(usage).Some?
    ensures var n := NormalizeUsageAttempt(usage).value;
            && IsTokenCount(n.inputTokens) && IsTokenCount(n.outputTokens) && IsTokenCount(n.totalTokens)
            && n.inputTokens + n.cacheReadTokens.GetOr(0) + n.cacheWriteTokens.GetOr(0)
               + n.outputTokens <= n.totalTokens
            && (n.cacheReadTokens.Some? && n.cacheWriteTokens.Some? ==>
                  n.inputTokens + n.cacheReadTokens.value + n.cacheWriteTokens.value + n.outputTokens == n.totalTokens)
            && n.reasoningTokens.GetOr(0) <= n.outputTokens
  {
  }

  // The exact total of a field every attempt reports; a field one of them omits has none.
  function ReportedSum(attempts: seq<Normalized>, field: Normalized -> Option<int>): Option<int> {
    if exists i :: 0 <= i < |attempts| && field(attempts[i]).None? then None
    else Some(Sum(Column(attempts, (a: Normalized) => field(a).GetOr(0))))
  }

  lemma {:induction false} SumBelow(parts: seq<int>, wholes: seq<int>)
    requires |parts| == |wholes| && forall i :: 0 <= i < |parts| ==> parts[i] <= wholes[i]
    ensures Sum(parts) <= Sum(wholes)
    decreases |parts|
  {
    if parts != [] {
      SumBelow(parts[..|parts| - 1], wholes[..|wholes| - 1]);
    }
  }

  // A reported part of the totals is itself summed exactly: it cannot leave the safe integers first.
  lemma ReportedExactly(attempts: seq<Normalized>, field: Normalized -> Option<int>)
    requires forall i :: 0 <= i < |attempts| && field(attempts[i]).Some? ==>
               IsTokenCount(field(attempts[i]).value) && field(attempts[i]).value <= attempts[i].totalTokens
    requires Sum(Column(attempts, TOTAL)) <= MAX_SAFE_INTEGER
    ensures SafeOptionalTokenSum(attempts, field) == ReportedSum(attempts, field)
  {
    if forall i :: 0 <= i < |attempts| ==> field(attempts[i]).Some? {
      SumBelow(Column(attempts, (a: Normalized) => field(a).GetOr(0)), Column(attempts, TOTAL));
    }
  }

  lemma CountableColumns(attempts: seq<TokenUsage>)
    requires Countable(attempts)
    ensures var n := NormalizeAll(attempts);
            && AllCounts(Column(n, INPUT)) && AllCounts(Column(n, OUTPUT)) && AllCounts(Column(n, TOTAL))
            && SafeOptionalTokenSum(n, CACHE_READ) == ReportedSum(n, CACHE_READ)
            && SafeOptionalTokenSum(n, CACHE_WRITE) == ReportedSum(n, CACHE_WRITE)
            && SafeOptionalTokenSum(n, REASONING) == ReportedSum(n, REASONING)
  {
    var n := NormalizeAll(attempts);
    forall i | 0 <= i < |attempts|
      ensures IsTokenCount(n[i].inputTokens) && IsTokenCount(n[i].outputTokens) && IsTokenCount(n[i].totalTokens)
      ensures n[i].cacheReadTokens.Some? ==>
                IsTokenCount(n[i].cacheReadTokens.value) && n[i].cacheReadTokens.value <= n[i].totalTokens
      ensures n[i].cacheWriteTokens.Some? ==>
                IsTokenCount(n[i].cacheWriteTokens.value) && n[i].cacheWriteTokens.value <= n[i].totalTokens
      ensures n[i].reasoningTokens.Some? ==>
                IsTokenCount(n[i].reasoningTokens.value) && n[i].reasoningTokens.value <= n[i].totalTokens
    {
      NormalizedCounts(attempts[i]);
    }
    ReportedExactly(n, CACHE_READ);
    ReportedExactly(n, CACHE_WRITE);
    ReportedExactly(n, REASONING);
  }

  // What a complete turn's total is: the exact sums over all its attempts.
  predicate TotalsOf(total: Normalized, attempts: seq<Normalized>) {
    && total.inputTokens == Sum(Column(attempts, INPUT))
    && total.outputTokens == Sum(Column(attempts, OUTPUT))
    && total.totalTokens == Sum(Column(attempts, TOTAL))
    && total.cacheReadTokens == ReportedSum(attempts, CACHE_READ)
    && total.cacheWriteTokens == ReportedSum(attempts, CACHE_WRITE)
    && total.reasoningTokens == ReportedSum(attempts, REASONING)
  }

  lemma UsageCompletes(t: TurnUsage)
    requires t.turnStarted && !t.invalid && t.active.None? && t.attempts != []
    ensures CompleteTurnUsage(Some(t)).Some? <==> Countable(t.attempts)
    ensures Countable(t.attempts) ==> TotalsOf(CompleteTurnUsage(Some(t)).value, NormalizeAll(t.attempts))
  {
    if Countable(t.attempts) {
      CountableColumns(t.attempts);
    }
  }

  lemma FinishedEntry(script: Script)
    requires Finished(script)
    ensures Entry(script) == TurnUsage(true, false, Usages(script), None) && Usages(script) != []
  {
    StepHasUsage(script.steps[|script.steps| - 1]);
    assert Usages(script) == StepsUsages(script.steps) + [];
  }

  // Usage is complete exactly for the events of a finished script whose attempts can all be counted,
  // and is then the exact sum over them.
  lemma CompletesExactlyScripts(events: seq<TurnEvent>)
    ensures CompleteTurnUsage(ApplyAll(None, events)).Some?
            <==> exists script :: Finished(script) && Events(script) == events && Countable(Usages(script))
    ensures forall script :: Finished(script) && Events(script) == events && Countable(Usages(script)) ==>
              TotalsOf(CompleteTurnUsage(ApplyAll(None, events)).value, NormalizeAll(Usages(script)))
  {
    forall script | Finished(script) && Events(script) == events
      ensures ApplyAll(None, events) == Some(Entry(script))
      ensures CompleteTurnUsage(ApplyAll(None, events)).Some? <==> Countable(Usages(script))
      ensures Countable(Usages(script)) ==>
                TotalsOf(CompleteTurnUsage(ApplyAll(None, events)).value, NormalizeAll(Usages(script)))
    {
      ScriptAccepted(script);
      FinishedEntry(script);
      UsageCompletes(Entry(script));
    }
    if CompleteTurnUsage(ApplyAll(None, events)).Some? {
      var script := Parse(events);
      ScriptAccepted(script);
      assert Finished(script);
    }
  }
}
