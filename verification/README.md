# A model of the DSH companion's event pipeline

This project models, in Dafny, the parts of the companion that have to be exactly right although events arrive late,
twice or out of order: the durable delivery queues of the session stream, the timeline that events are reduced to with
its two fast forms, the token ledger of a turn, the broker between the editor and its companion, the exact money
arithmetic of the bill, the cache-hit percentage, the forest of tool calls, and the running JSON size of a growing row.

**Delivery** (`SequenceHeap`, `OrderedDelivery`, `DeliveryInvariant`, `SessionDelivery`, `SessionInvariant`,
`SessionTheorems`, `DeliveryQueue`). One session of the stream controller is a state machine whose steps are everything
that can happen between two awaits: a frame, a subscription marker, a row of a replayed snapshot, a history read that
returns anything or fails, one pass of a drain loop, an abort, a new generation, a removal, a listener that calls back
into the controller while rows are handed to it. The theorems hold for every sequence of these steps. `DeliveryQueue`
is the queue object with its two lazily pruned heaps, each method tied to a step of the machine.

**Timeline** (`TimelineNodes`, `NodeLookup`, `Filtering`, `TurnClosure`, `TurnState`, `Usage`, `Reducer`, `Runs`,
`ChangeHints`, `HintConditions`, `StreamRows`, `Resubscription`, `Redelivery`, `ClosedTurns`, `LedgerOfRun`,
`TurnTracking`, `ReplayNodeIndex`, `ReplayHints`, `TimelineReplay`). `Reducer.Reduce` is one transition as a function;
`TimelineReplay` is the same transition as the code makes it, editing an array in place and looking rows up in an index,
and `ReduceTimelineBatch` is a whole replay over one array. `TurnLedger` and `TurnScript` are the usage ledger and the
grammar of what it accepts.

**Trajectory** (`Trajectory`, `TrajectoryTheorems`, `TrajectoryOrder`). The record ledger and its checkpointed
projector.

**Broker** (`CompanionBroker`, `BrokerInvariant`, `BrokerRuns`, `BrokerDelivery`, `EditorCompanionBroker`). Calls,
expiring timers and aborts are steps; the class takes one of them with every method.

**Billing** (`DecimalText`, `BillingPeriods`, `Billing`, `BillingSummary`, `BillingCurrency`, `BillingDisplay`). Decimal
texts, prices with three-valued conditions, entries, summaries, their conversion into one currency, and totals.

**Small cores**: `Usage` (percentage), `ToolCallTree`, `TextNodeSize` (QuoteJSONString is section 25.5.2.3 of ECMA-262,
2023 edition).

`Options` holds the optional value. `Run` in `Runs` folds a step over its inputs, and `RunKeeps` is the one induction
behind the theorems about runs.

## What turned out not to hold

Each failing promise has the exact condition under which the code keeps it, and an input that shows it failing.

- The change hint of an event is where the first preview it retires was, and the arms for the ends of turns and steps,
  retries, losses of the connection and calls being written do not lower it for the rows they rewrite. It is right if
  and only if no row before it is one the arm rewrites (`HintConditions.HintExactly`); `EndOfTurnLies`, `EndOfStepLies`,
  `RetryLies`, `PreparingLies` and `LossLies` show every such arm failing. A late attempt lowers it for the row it
  removes but not for the marks it takes away: it is right if and only if no marked row of its closed turn stands before
  that place (`AttemptHintExactly`, `AttemptLies`).
- The id index of a replay goes stale before the hint exactly when the end of a failed turn takes an error notice away
  from before a preview it has just retired (`ReplayHints.TransitionKeysExactly`, `FailedTurnMisleads`). Batch equality
  is proved for every history where this does not happen; histories without tool previews are among them.
- A repeated first frame of a subscription starts the row over. The row says everything the stream has said if and only
  if the frames delivered from the last first frame on already say it (`Redelivery.RowSaysAllExactly`). That is so
  whenever the first frame is not delivered again after another one (`RepeatsOfLaterFrames`), but also when all of it
  comes again (`RepeatedFromTheFirst`); `RepeatedBaselineDropsText` shows the row that loses text.
- A request handed to a waiting poll reaches its companion if and only if the poll's signal is not aborted and its grant
  is still there when the poll runs on (`BrokerDelivery.ReachesItsCompanion`). Otherwise no poll ever returns it, and
  unless the companion answers by its id nevertheless, it settles only when it is cancelled, times out or its grant is
  released (`LostForGood`). `BrokerRuns.HandedRequestCanBeLost` is a run in which this happens.
- Record numbers do not always ascend across sections: a compaction is listed before the turn that is open around it.
  They ascend if and only if every compaction that a record of another kind precedes stands behind an open turn and is
  followed, with only compactions between, by the direct user record that closes it
  (`TrajectoryOrder.NumbersAscendExactly`). Contexts alone open no turn, so behind them a compaction always breaks the
  order (`NeverBehindContexts`). `TrajectoryTheorems.CompactionIsListedFirst` is a compaction in the middle of a turn,
  and `CompactionBehindContext` one between a context and a direct user record.
- The last loop of `billingPriceForFact`, over the ends of a price's term, never refuses anything: a term that ends
  inside the span has already changed a sample. It is modelled, and the proof shows its branch is dead.

## Model

| member | source | states |
|---|---|---|
| SequenceHeap.SiftHeapDown | packages/dsh-adapter/src/stream-controller.ts:982-997 | From a heap whose only disorder is at the start, the result is a heap with the same elements. |
| SequenceHeap.HeapifySequences | packages/dsh-adapter/src/stream-controller.ts:954-958 | Any list becomes a min-heap of the same elements. |
| SequenceHeap.HeapPushSequence | packages/dsh-adapter/src/stream-controller.ts:960-970 | Pushing keeps the heap and adds exactly the one element. |
| SequenceHeap.HeapPopSequence | packages/dsh-adapter/src/stream-controller.ts:972-980 | Popping takes the root away and keeps the heap and all other elements. |
| SequenceHeap.RootIsLeast | packages/dsh-adapter/src/stream-controller.ts:922-997 | The root of a heap is its least element. |
| DeliveryQueue.PruneHeap | packages/dsh-adapter/src/stream-controller.ts:922-946 | Dropping stale tops lazily leaves the least held position at or above the minimum on top, or nothing. |
| DeliveryQueue.OrderedSessionDelivery.HeldSequencesAfter | packages/dsh-adapter/src/stream-controller.ts:922-946 | Exactly the least pending and the least skipped position at or above the minimum, whatever was added and removed between calls with growing minima. |
| DeliveryQueue.OrderedSessionDelivery.QueueHeldSequence | packages/dsh-adapter/src/stream-controller.ts:948-952 | A newly held position enters the right heap, if the heaps exist, and nothing else changes. |
| DeliveryQueue.OrderedSessionDelivery.QueueRow | packages/dsh-adapter/src/stream-controller.ts:492-497 | A row at or above the cursor joins its bucket unless the same row is there; a row below it changes nothing. |
| DeliveryQueue.OrderedSessionDelivery.AbsorbRow | packages/dsh-adapter/src/stream-controller.ts:706-726 | One row of a history read or snapshot tail: ignored, queued, or passed over because its projection is older than what was shown. |
| DeliveryQueue.OrderedSessionDelivery.EmitPendingSequence | packages/dsh-adapter/src/stream-controller.ts:846-862 | The bucket at the cursor is handed over in arrival order, the cursor having moved first; listeners that tear the delivery down see only a prefix. |
| DeliveryQueue.OrderedSessionDelivery.DrainUntilAwait | packages/dsh-adapter/src/stream-controller.ts:649-683 | The drain loop up to its next await does what the step machine does, for any cost of the work. |
| DeliveryQueue.OrderedSessionDelivery.FillUntilAwait | packages/dsh-adapter/src/stream-controller.ts:728-788 | The hole-filling loop up to its next await does what the step machine does, for any cost of the work. |
| OrderedDelivery.DrainTurn | packages/dsh-adapter/src/stream-controller.ts:649-683 | An undisturbed turn of the drain ends at an await or leaves, and hands over no more than the batch allows. |
| OrderedDelivery.FillTurn | packages/dsh-adapter/src/stream-controller.ts:728-788 | An undisturbed turn of the filling loop either yields or has passed the end of the hole. |
| DeliveryInvariant.Partition | packages/dsh-adapter/src/stream-controller.ts:649-862 | The rows, skips and gaps emitted so far partition [start, nextSequence): each position once, in ascending order. |
| DeliveryInvariant.RowsHandledOnce | packages/dsh-adapter/src/stream-controller.ts:649-862 | A queued position is still pending with all its rows, or was handed over once as its whole bucket. |
| DeliveryInvariant.GapCoversNothingHeld | packages/dsh-adapter/src/stream-controller.ts:774-788 | A declared gap covers only positions that were never held. |
| SessionInvariant.StepKeeps | packages/dsh-adapter/src/stream-controller.ts:340-862 | Every step, at every await, keeps the whole invariant of a session. |
| SessionInvariant.Reachable | packages/dsh-adapter/src/stream-controller.ts:340-862 | The invariant holds after any schedule of steps from a newly opened session. |
| SessionTheorems.HandedOverInOrder | packages/dsh-adapter/src/stream-controller.ts:649-862 | Over every run, what left the queues is the deliveries' logs in order, each log a partition of [start, nextSequence), and no gap covers a held position. |
| SessionTheorems.NoRowLost | packages/dsh-adapter/src/stream-controller.ts:508-862 | Over every run, a row that entered a queue is waiting there or was handed over in its bucket. |
| SessionTheorems.OneDrainAndNoLostWakeUp | packages/dsh-adapter/src/stream-controller.ts:624-647 | At most one drain owns the current delivery, and waiting work has one unless its stream generation is gone. |
| SessionTheorems.LeavesNothingBehind | packages/dsh-adapter/src/stream-controller.ts:649-683 | A drain that leaves its loop on a live delivery leaves no pending row and no recovery target. |
| SessionTheorems.FillLoopEnds | packages/dsh-adapter/src/stream-controller.ts:728-788 | Every pass of the recovery loop lowers (positions left, budget spent), and the loop stops exactly at zero. |
| SessionTheorems.FillLoopUndisturbed | packages/dsh-adapter/src/stream-controller.ts:728-788 | What arrives while the recovery loop yields does not raise that measure. |
| SessionTheorems.NeverRedelivered | packages/dsh-adapter/src/stream-controller.ts:377-436 | Across any number of reconnects at or above the watermark, what was handed over only grows: nothing is redelivered or reordered. |
| SessionTheorems.FallRestartsBehindCursor | packages/dsh-adapter/src/stream-controller.ts:378-436 | After a cursor below the watermark without a snapshot, along any gentle run, what is handed over in the new delivery partitions [cursor + 1, nextSequence), in order, no gap over a held position. |
| SessionTheorems.BaselineRestartsBehindCursor | packages/dsh-adapter/src/stream-controller.ts:508-574 | While such a fall's snapshot is being replayed, along any gentle run, the replay is still going on or what was handed over since partitions [cursor + 1, nextSequence). |
| SessionTheorems.SnapshotFallRestarts | packages/dsh-adapter/src/stream-controller.ts:378-419 | A cursor below the watermark that a snapshot preceded begins such a replay, with the same outcome along any gentle run. |
| TurnLedger.ComputeSafeTokenSum | packages/timeline/src/usage-tracking.ts:84-92 | The running sum with its checks is the sum if every value and the sum are safe counts, and nothing otherwise. |
| TurnScript.NormalizedCounts | packages/timeline/src/usage-tracking.ts:43-78 | A normalised attempt has safe counts whose parts do not exceed its total, and add up to it where all are reported. |
| TurnScript.ScriptAccepted | packages/timeline/src/turn-tracking.ts:64-160 | The events of every well-formed script leave the ledger valid, holding exactly the script's attempts. |
| TurnScript.Parse | packages/timeline/src/turn-tracking.ts:64-160 | Conversely, a valid entry was reached by the events of a well-formed script. |
| TurnScript.CompletesExactlyScripts | packages/timeline/src/usage-tracking.ts:5-41 | Usage is complete if and only if the turn's events form a finished script with countable attempts, and is then the exact componentwise sum over them. |
| NodeLookup.FindNodeIndexFromEnd | packages/timeline/src/node-lookup.ts:16-25 | The scan from the end finds the last row that matches, or none. |
| NodeLookup.FindOptimisticUser | packages/timeline/src/reducer.ts:173-187 | The scan from the front finds the first preview the message stands for, or none. |
| NodeLookup.ComputeSameUserMessagePreview | packages/timeline/src/node-lookup.ts:142-161 | The loop decides whether a preview and a message have the same text and the same attachments in order. |
| TurnClosure.RetireToolPreviews | packages/timeline/src/tool-preview-lifecycle.ts:27-44 | Splicing in place removes exactly the previews the event retires, in order, and reports the first position. |
| TurnClosure.InvalidateTurnTail | packages/timeline/src/turn-closure.ts:110-116 | Every marked row of the turn loses its mark and total, and nothing else changes. |
| TurnClosure.CloseTurn | packages/timeline/src/turn-closure.ts:11-94 | The three loops over the array compute the closed rows: settled, terminal added, matching notices dropped, tail marked. |
| TurnClosure.ClosedTurnMarks | packages/timeline/src/turn-closure.ts:56-94 | After closing, a row may be continued from if and only if it is the last of the turn to say anything, nothing of the turn follows it, and the turn did not fail. |
| ChangeHints.HintIsHonest | packages/timeline/src/reducer.ts:144-602 | For user messages, deltas and completions, every row before the reported start is unchanged from the base, whatever previews were retired or closed turns invalidated. |
| HintConditions.HintExactly | packages/timeline/src/reducer.ts:144-148 | For every other event but a late attempt, the hint is where the first retired preview was or the first row, and it is right if and only if nothing was retired or no row before it is one the arm rewrites or drops. |
| HintConditions.EndOfTurnLies | packages/timeline/src/turn-closure.ts:19-94 | The end of a turn that settles a streaming row before a preview it retires leaves that row out of the hint. |
| HintConditions.EndOfStepLies | packages/timeline/src/reducer.ts:627-656 | So does the end of a step. |
| HintConditions.RetryLies | packages/timeline/src/reducer.ts:750-779 | So does a retry that begins, for its own row. |
| HintConditions.PreparingLies | packages/timeline/src/reducer.ts:657-693 | So does a newer attempt's preview that takes the place of an older one. |
| HintConditions.LossLies | packages/timeline/src/reducer.ts:816-828 | So does a lost connection whose notice takes the place of an earlier row of that id. |
| HintConditions.AttemptHintExactly | packages/timeline/src/reducer.ts:603-626 | For a late attempt the hint is the lower of the first retired preview and the removed row, and it is right if and only if its turn is open or no marked row of the turn stands before that place. |
| HintConditions.AttemptLies | packages/timeline/src/reducer.ts:603-626 | An attempt of a closed turn whose marked row stands before the removed one leaves the unmarked row out of the hint. |
| StreamRows.AsideKeepsRow | packages/timeline/src/reducer.ts:149-913 | Any event that neither ends the stream's turn, nor is a message, completion or late attempt in its place, nor writes under its row's id, leaves the stream's row to be found again with the same text, reasoning and live state. |
| Resubscription.RowSaysLastRun | packages/timeline/src/reducer.ts:31-58 | After any number of subscriptions, with any such events in between, the row's text and reasoning are the concatenated new frames of the last one. |
| Redelivery.RowSaysAllExactly | packages/timeline/src/reducer.ts:31-58 | After any run whose last subscription delivers frames again and again, with any such events in between, the row says all text and reasoning of the stream so far if and only if the frames from the last first frame on already do. |
| Redelivery.RepeatsOfLaterFrames | packages/timeline/src/reducer.ts:285-318 | That is so whenever the first frame is not delivered again after another one. |
| Redelivery.RepeatedFromTheFirst | packages/timeline/src/reducer.ts:285-318 | It is also so where the stream is delivered again from its first frame on. |
| Redelivery.RepeatedBaselineDropsText | packages/timeline/src/reducer.ts:31-41 | The reducer, given the first, the second and again the first frame, leaves a row that says only the first. |
| ClosedTurns.StepKeeps | packages/timeline/src/reducer.ts:150-172 | Every transition on scoped events keeps the closed turns closed. |
| ClosedTurns.ClosedTurnsStayClosed | packages/timeline/src/turn-closure.ts:11-116 | In every run of scoped events no row of a closed turn is streaming, queued or running, and at most one is completed. |
| ClosedTurns.CompletedTwice | packages/timeline/src/turn-closure.ts:62-94 | Two completed rows of a turn would be counted twice: the bound says there is at most one. |
| LedgerOfRun.EntryIsHistory | packages/timeline/src/turn-tracking.ts:55-160 | In every run, the entry of a turn is the ledger of that turn's own events, whatever the other turns do. |
| LedgerOfRun.TotalShownExactly | packages/timeline/src/reducer.ts:159-172 | When a turn completes, its closing row shows a total if and only if its events are a finished script with countable attempts, and the total is the exact sum over the script; its other rows show none. |
| TurnTracking.Tracking.SettleUsageAttempt | packages/timeline/src/turn-tracking.ts:81-100 | The copy-on-write update records the attempt exactly as the ledger's transition does, and leaves other turns alone. |
| TurnTracking.Tracking.StartUsageRetry | packages/timeline/src/turn-tracking.ts:114-129 | A retry starts exactly as the ledger's transition says: only the one scheduled, or the entry becomes invalid. |
| TurnTracking.TrackEvent | packages/timeline/src/turn-tracking.ts:38-225 | The tracking object, updated in place by an event, is the tracking function of the event. |
| ReplayNodeIndex.PositionsExact | packages/timeline/src/replay-node-index.ts:5-30 | The positions listed for an id are all of its rows, ascending. |
| ReplayNodeIndex.Index.Synchronize | packages/timeline/src/replay-node-index.ts:9-30 | Popping and pushing from a position makes the index describe the rows as they are, if the rows before it kept their ids. |
| ReplayNodeIndex.Index.ById | packages/timeline/src/replay-node-index.ts:34-42 | An index that covers the array finds what the scan from the end finds. |
| ReplayNodeIndex.Index.OptimisticUserOf | packages/timeline/src/replay-node-index.ts:43-53 | An index that covers the array finds what the scan from the front finds. |
| ReplayHints.TransitionKeys | packages/timeline/src/reducer.ts:958-982 | Unless a failed turn's end misleads it, the rows before a transition's hint keep their ids and kinds, so what is re-read is enough. |
| ReplayHints.TransitionKeysExactly | packages/timeline/src/turn-closure.ts:44-54 | With one row for every id, that is so if and only if no failed turn's end drops a notice from before a preview it retires. |
| ReplayHints.FailedTurnMisleads | packages/timeline/src/turn-closure.ts:44-54 | A turn that fails with the words of a notice before its preview moves another row to that place, and the hint points behind it. |
| ReplayHints.PreviewFreeRun | packages/timeline/src/reducer.ts:657-693 | A run from rows without previews and without preview events never misleads the replay. |
| TimelineReplay.ReduceTimeline | packages/timeline/src/reducer.ts:93-950 | In place or not, with an index that covers its rows, the transition is exactly the transition function's; only where the state's rows are the working array itself is the base of the hint that array, as edited. The index stays right before the hint. |
| TimelineReplay.ReduceTimelineBatch | packages/timeline/src/reducer.ts:958-982 | Replaying a history over one array and one index is folding the transition, unless some event misleads it; after two or more events that may touch rows, the base of the hint is the result's own array. |
| TimelineReplay.PreviewFreeNeverMisleads | packages/timeline/src/reducer.ts:958-982 | No event of a history without previews misleads it. |
| Trajectory.FoldTrajectoryNodes | packages/timeline/src/trajectory.ts:312-393 | The mutable fold from a checkpoint gives the projection of the whole list and captures the fold state at the position asked for. |
| Trajectory.FoldSplit | packages/timeline/src/trajectory.ts:427-471 | Folding everything is folding a prefix and then the rest from the state reached. |
| Trajectory.LatestTrajectoryBoundary | packages/timeline/src/trajectory.ts:395-408 | The scan finds the position after the last boundary at or after the start. |
| Trajectory.TrajectoryProjector.Project | packages/timeline/src/trajectory.ts:437-471 | However many calls came before, unhinted or with hints whose prefix really is shared, the result is that of folding every row. |
| TrajectoryTheorems.EveryRecordOnce | packages/timeline/src/trajectory.ts:144-247 | Every row with a record is listed exactly once under its own number, and nothing else is listed. |
| TrajectoryTheorems.TurnsCountUp | packages/timeline/src/trajectory.ts:312-393 | The turns of the ledger count 1, 2, 3, every section is non-empty and ascending, and each later turn opens with its only user record. |
| TrajectoryOrder.NumbersAscendExactly | packages/timeline/src/trajectory.ts:312-393 | The flattened record numbers ascend if and only if every compaction that a record of another kind precedes stands behind an open turn and is followed, with only compactions between, by the direct user record that closes it. |
| TrajectoryOrder.NeverBehindContexts | packages/timeline/src/trajectory.ts:325-345 | With a compaction behind contexts alone they never ascend. |
| TrajectoryTheorems.CompactionIsListedFirst | packages/timeline/src/trajectory.ts:338-352 | A compaction in the middle of a turn is listed before the turn. |
| TrajectoryTheorems.CompactionBehindContext | packages/timeline/src/trajectory.ts:325-345 | A compaction between a context and a direct user record is listed before the turn that both of them belong to. |
| TrajectoryTheorems.ReducerHintIsHonest | packages/timeline/src/trajectory.ts:437-471 | The reducer's hint for a user message, delta or completion is one the projector may rely on. |
| BrokerRuns.StepKeeps | packages/dsh-editor-bridge/src/companion-broker.ts:44-226 | Every call, timer and abort keeps the broker's invariant. |
| BrokerRuns.Reachable | packages/dsh-editor-bridge/src/companion-broker.ts:44-226 | In every reachable state queued ids are the undelivered pending ones in order, a waiting poll has an empty queue, each id is handed out once, only handed-out reads are withdrawn, and the bounds of 16 grants, one per session, 4 pending and 32 queued hold. |
| BrokerRuns.SettlesOnce | packages/dsh-editor-bridge/src/companion-broker.ts:128-167 | A read that has settled keeps its answer in every later state; ids once asked and handed out stay so. |
| BrokerDelivery.ReachesItsCompanion | packages/dsh-editor-bridge/src/companion-broker.ts:79-105 | In every reachable state, a request handed to a poll is returned by it if and only if its signal is not aborted and its grant is still there, and never again afterwards. |
| BrokerDelivery.LostForGood | packages/dsh-editor-bridge/src/companion-broker.ts:79-105 | Otherwise the poll fails, no poll of any later state returns the request, and unless it is answered by name it settles only by a cancellation or timeout or the release of its grant. |
| BrokerDelivery.SettlesUnanswered | packages/dsh-editor-bridge/src/companion-broker.ts:128-167 | Over any actions that do not answer it, a read settles only by its cancellation or the release of its grant, with the answer that step gives. |
| BrokerRuns.HandedRequestCanBeLost | packages/dsh-editor-bridge/src/companion-broker.ts:79-105 | A request handed to a poll that is then aborted is delivered to nobody and offered to no later poll. |
| EditorCompanionBroker.Broker.Attach | packages/dsh-editor-bridge/src/companion-broker.ts:44-78 | Attaching takes the step of the machine and answers as it says: renewed, refused, or a new grant that wakes the session's waiters. |
| EditorCompanionBroker.Broker.PollOnce | packages/dsh-editor-bridge/src/companion-broker.ts:79-105 | A poll is answered busy while another one waits, takes the oldest queued event, or waits. |
| EditorCompanionBroker.Broker.Read | packages/dsh-editor-bridge/src/companion-broker.ts:128-167 | A read is admitted, asked and bounded as the machine says, with the same error for each refusal. |
| EditorCompanionBroker.Broker.Cancel | packages/dsh-editor-bridge/src/companion-broker.ts:152-160 | A read that times out or is aborted leaves its grant; only one that was handed out is followed by a withdrawal. |
| EditorCompanionBroker.Broker.Respond | packages/dsh-editor-bridge/src/companion-broker.ts:106-122 | Only the owner of the grant settles a pending read, and only one that was delivered. |
| EditorCompanionBroker.Broker.Release | packages/dsh-editor-bridge/src/companion-broker.ts:217-226 | Every pending read of the grant fails, its queue is dropped and its poll is let go. |
| EditorCompanionBroker.Broker.WaitForSession | packages/dsh-editor-bridge/src/companion-broker.ts:172-191 | At once yes with a grant, no when aborted or too many wait, suspended otherwise. |
| EditorCompanionBroker.Broker.Dispose | packages/dsh-editor-bridge/src/companion-broker.ts:168-171 | Waking every waiter and releasing grant after grant is the one step that ends everything, whatever order they come in. |
| DecimalText.UnitsOfAmount | packages/domain/src/billing.ts:262-271 | Printing an amount and reading it back gives the amount. |
| DecimalText.AmountsAreExact | packages/domain/src/billing.ts:262-271 | Equal amounts print equally and different ones differently. |
| DecimalText.RateFits | packages/domain/src/billing.ts:242-245 | What is printed at nine places is a rate exactly below a billion. |
| BillingPeriods.ConditionMonotone | packages/domain/src/billing-periods.ts:17-70 | A condition decided with something unknown stays so however the unknown turns out. |
| BillingPeriods.ComputeEffective | packages/domain/src/billing-periods.ts:75-120 | The loops over overrides and multipliers compute the price at a moment, or refuse it. |
| BillingPeriods.RatesAreExactProducts | packages/domain/src/billing-periods.ts:71-120 | Every rate of a resolved price is its selected rate times all factors that apply, without rounding. |
| BillingPeriods.UnknownsDoNotMatter | packages/domain/src/billing-periods.ts:20-120 | A price resolved with time, context or tier unknown is the one every completion of the unknowns gives. |
| BillingPeriods.PlainPrice | packages/domain/src/billing-periods.ts:123-133 | A price without rules has its own rates at every moment. |
| BillingPeriods.SameMinuteSamePrice | packages/domain/src/billing-periods.ts:162-164 | Within one minute and the price's term the price does not change, which is why minutes are enough. |
| BillingPeriods.SamplePrice | packages/domain/src/billing-periods.ts:150-167 | The sampled price is returned exactly when it is the same at every instant of the span. |
| BillingPeriods.BillingPriceForFact | packages/domain/src/billing-periods.ts:123-168 | A request's price: the rules' absence, unknown times, a bad span and the sampled span each as the code decides. |
| Billing.NormalizedAddsUp | packages/domain/src/billing.ts:348-372 | Normalising changes no reported count, and what it fills in makes the parts add up to the total. |
| Billing.ChargesEveryToken | packages/domain/src/billing.ts:405-437 | Without an issue, every category is charged exactly the tokens due to it. |
| Billing.DueAddsUp | packages/domain/src/billing.ts:405-437 | What is due adds up to everything reported: no token is charged twice or left out. |
| Billing.ChargesAreExact | packages/domain/src/billing.ts:338-343 | Every charge is tokens times rate over a million, with nothing rounded. |
| Billing.AddAmounts | packages/domain/src/billing.ts:272-275 | The printed sum is the sum of the amounts read. |
| Billing.EstimateBillingEntry | packages/domain/src/billing.ts:374-437 | An entry is its first obstacle, or the charges of the price that held throughout; a known span is refused only where the price is unresolved or changes within it; its amount is the exact sum of its charges. |
| BillingSummary.SummarizeBillingEntries | packages/domain/src/billing.ts:277-336 | The accumulating maps are the groups of the entries, and the tallies count every issue. |
| BillingSummary.SummaryConserves | packages/domain/src/billing.ts:277-336 | By category and altogether, the breakdown of a currency is the sum of its entries' charges, in tokens and in money. |
| BillingSummary.BreakdownIsAmounts | packages/domain/src/billing.ts:277-336 | The breakdown of a currency adds up to the amounts of its entries. |
| BillingSummary.SummaryGroupsOk | packages/domain/src/billing.ts:277-336 | There is one group for each currency and category, with at most 32 distinct rates that account for it unless truncated. |
| BillingCurrency.BillingCurrencyDisplay | packages/domain/src/billing-currency.ts:26-85 | Native, unavailable or converted exactly as the totals and the rate allow, with the converted totals and breakdown. |
| BillingCurrency.ConvertTextExact | packages/domain/src/billing-currency.ts:40-45 | What is printed after conversion reads back as the converted amount. |
| BillingCurrency.RoundedWithinHalf | packages/domain/src/billing-currency.ts:44-44 | A conversion is off by at most half a unit. |
| BillingCurrency.ConversionConserves | packages/domain/src/billing-currency.ts:46-72 | The displayed breakdown has every token of the original one, and of its money each group's amount converted once. |
| BillingCurrency.TokensUnchanged | packages/domain/src/billing-currency.ts:46-72 | Token counts do not depend on the rate or the target. |
| BillingDisplay.TotalsAreAmounts | packages/application/src/use-cases/billing-use-cases.ts:152-173 | The total of a currency is the exact sum of the amounts of its entries. |
| BillingDisplay.SummaryDisplayAgrees | packages/domain/src/billing-currency.ts:26-85 | For entries as the estimate makes them, totals and breakdown agree in every currency, and converted they differ by at most half a unit of 10^-15 for every converted part. |
| Usage.RoundedIntegerPercent | packages/timeline/src/usage.ts:80-93 | The binary search finds the percentage rounded half up, and every intermediate is a safe integer. |
| Usage.FindPlaces | packages/timeline/src/usage.ts:54-60 | The loop ends with the fewest places at which the miss shows. |
| Usage.FindLoss | packages/timeline/src/usage.ts:61-71 | The loop finds the last digit's distance from ten without leaving the safe integers. |
| Usage.CacheHitPercent | packages/timeline/src/usage.ts:43-73 | The text is the exact percentage rounded half up to the fewest decimals at which it is below 100; it is 100 only without a miss. |
| ToolCallTree.CreatesCycle | packages/timeline/src/tool-call-tree.ts:78-91 | The climb answers whether the child is an ancestor of the parent; on links without a cycle its guard never fires. |
| ToolCallTree.DepthOf | packages/timeline/src/tool-call-tree.ts:100-114 | Exact up to 256 and above it exactly when the depth is. |
| ToolCallTree.LinkKeepsRanks | packages/timeline/src/tool-call-tree.ts:27-34 | A link that closes no cycle can be added to links without one. |
| ToolCallTree.LinkParents | packages/timeline/src/tool-call-tree.ts:27-34 | Every link was claimed and there is no cycle; a claim is passed over only where it would close one. |
| ToolCallTree.TrimsOnlyTheDeep | packages/timeline/src/tool-call-tree.ts:93-98 | Only links of calls deeper than 256 are cut, and the others are unchanged. |
| ToolCallTree.TrimsEnough | packages/timeline/src/tool-call-tree.ts:93-98 | Afterwards no call is deeper than 256, in whatever order they were visited. |
| ToolCallTree.SiblingsKeepOrder | packages/timeline/src/tool-call-tree.ts:38-48 | Roots and siblings are listed in the order in which they were first seen. |
| ToolCallTree.SoundFits | packages/timeline/src/tool-call-tree.ts:51-76 | On such links no chain of children meets its own path or runs past the limit: the guards have nothing to do. |
| ToolCallTree.Path.ProjectNode | packages/timeline/src/tool-call-tree.ts:51-76 | With its shared path set and depth guard, the recursion gives the full tree and leaves the set as it was. |
| ToolCallTree.TalliesOnce | packages/timeline/src/tool-call-tree.ts:18-76 | The trees of a level show exactly the calls at or under them, each once. |
| ToolCallTree.ForestHolds | packages/timeline/src/tool-call-tree.ts:18-49 | Every id once, no branch over 256, roots and children as linked, in input order. |
| ToolCallTree.ProjectToolCallTree | packages/timeline/src/tool-call-tree.ts:18-49 | For any claimed parents whatever, the forest shows every id of the input exactly once and keeps these bounds and orders. |
| TextNodeSize.QuotedIsRead | packages/timeline/src/text-node-size.ts:10-29 | Quoting a string as JSON loses nothing: it reads back, lone surrogates and all. |
| TextNodeSize.QuotedLengthsAdd | packages/timeline/src/text-node-size.ts:31-36 | Quoted lengths add up but for a surrogate pair that the seam splits, which saves ten characters. |
| TextNodeSize.AppendedSizeIsExact | packages/timeline/src/text-node-size.ts:10-29 | For every row, suffix and text, the computed size is the JSON length of the new row. |
| TextNodeSize.SizeNeverDrifts | packages/timeline/src/text-node-size.ts:10-29 | A size carried along any run of appends stays exact. |

## Left out

- Sockets, the WebSocket handshake, retries and clocks: frames are already normalised events, and a history read is any list of rows or none.
- Timers of the broker and the random jitter of reconnects: leases, polls and calls expire at any step.
- Live projection frames, which bypass the queues: the ordering theorems are about queued rows.
- The filter and the budget of transient frames before the queues, and the projection side channels beyond what decides whether a row is passed over.
- The class of the stream controller: its protocol is a state machine over values, one session at a time, since each await lets any other step in between; only the queue object of a session is a class.
- Equality and keys of events by JSON text: events are compared as values.
- Sharing of unchanged row objects, weak maps and caches that do not change a value; in the trajectory, where identity decides, rows and snapshots are objects.
- The workflow and team arms of the reducer, the notice of a declared gap, and goals, todos and deliverables beyond being upserted as cards.
- The settling of a tool's presentation when its turn ends, and the text of trajectory records: line folding, truncation and durations.
- A property that is present but undefined and one that is absent are one value.
- The name of a mode command is given as the mode it stands for.
- Counts that are not integers: a safe count is an integer between 0 and 2^53 - 1, and a count outside is refused as in the code.
- Dates outside the representable range, and the calendar itself: a time leaf of a condition is any predicate of the minute, possibly unknown.
- The shape guards of prices and conditions; a price is well formed where the code has checked it.
- Grants are entries of a map, not objects: a poll that outlives its grant finds it by id.
- The cap on tool nesting of the original host and the rendering of the forest.
- Usage.CacheHitPercent: assumes that the billed input is a safe integer, as the thresholds of the code need.
- ClosedTurns.ClosedTurnsStayClosed: needs turn-scoped events that carry their turn and message ids that belong to one turn, as the host sends them.
- SessionTheorems.NeverRedelivered: excludes cursors below the watermark, restarts, removals and closing, after which a new delivery begins by intent; for such a cursor SessionTheorems.FallRestartsBehindCursor and SessionTheorems.SnapshotFallRestarts say what that one delivers.
- TextNodeSize.AppendedSizeIsExact: the values of properties other than the text are given as their JSON text.
