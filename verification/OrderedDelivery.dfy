/**
 The queue of one session's durable rows: what each atomic piece of the drain does to it.

 `log`, `queued` and `passed` record the whole history of a delivery (what was handed on, every
 row ever queued, every position ever marked as filtered); no step reads them.
 */
module OrderedDelivery {
  import opened Options

  const STREAM_BATCH_SIZE := 64
  const STREAM_TIME_SLICE_MS := 8

  datatype Event = Event(sequence: Option<int>, projectionKey: Option<string>, payload: string)

  // One thing handed to the subscribers, or one position stepped over. Only the first
  // `delivered` events of a bucket reach them when a listener tears the delivery down.
  datatype Item =
    | Rows(position: int, bucket: seq<Event>, delivered: nat)
    | Skipped(position: int)
    | Gap(fromSequence: int, toSequence: int)
  {
    function Lo(): int {
      if Gap? then fromSequence else position
    }

    function Hi(): int {
      if Gap? then toSequence else position
    }
  }

  datatype Delivery = Delivery(
    start: int,
    nextSequence: int,
    pending: map<int, seq<Event>>,
    skippedSequences: set<int>,
    recoveryThrough: Option<int>,
    emittedSinceYield: nat,
    workMsSinceYield: nat,
    log: seq<Item>,
    queued: map<int, seq<Event>>,
    passed: set<int>)
  {
    function Bucket(position: int): seq<Event> {
      if position in pending then pending[position] else []
    }

    predicate BudgetSpent() {
      emittedSinceYield >= STREAM_BATCH_SIZE || workMsSinceYield >= STREAM_TIME_SLICE_MS
    }
  }

  function Max(a: int, b: int): int {
    if a < b then b else a
  }

  function Create(nextSequence: int): Delivery {
    Delivery(nextSequence, nextSequence, map[], {}, None, 0, 0, [], map[], {})
  }

  // The least element of `positions` at or above `minimum`.
  ghost predicate IsLeastFrom(positions: set<int>, minimum: int, least: Option<int>) {
    match least
    case Some(p) => p in positions && minimum <= p && forall q :: q in positions && minimum <= q ==> p <= q
    case None => forall q :: q in positions ==> q < minimum
  }

  lemma {:induction false} LeastFromExists(positions: set<int>, minimum: int)
    ensures exists least :: IsLeastFrom(positions, minimum, least)
  {
    if p :| p in positions {
      var rest := positions - {p};
      LeastFromExists(rest, minimum);
      var least :| IsLeastFrom(rest, minimum, least);
      assert forall q :: q in positions <==> q in rest || q == p;
      if minimum <= p && (least == None || p < least.value) {
        assert IsLeastFrom(positions, minimum, Some(p));
      } else {
        assert IsLeastFrom(positions, minimum, least);
      }
    } else {
      assert IsLeastFrom(positions, minimum, None);
    }
  }

  ghost function LeastFrom(positions: set<int>, minimum: int): (least: Option<int>)
    ensures IsLeastFrom(positions, minimum, least)
  {
    LeastFromExists(positions, minimum);
    var least :| IsLeastFrom(positions, minimum, least);
    least
  }

  // ---- what each piece of queue handling does ----

  // A row joins its bucket unless the very same row is there already.
  function Queue(d: Delivery, position: int, event: Event): Delivery {
    if event in d.Bucket(position) then d
    else
      var bucket := d.Bucket(position) + [event];
      d.(pending := d.pending[position := bucket], queued := d.queued[position := bucket])
  }

  function Pass(d: Delivery, position: int): Delivery {
    d.(skippedSequences := d.skippedSequences + {position}, passed := d.passed + {position})
  }

  // The bucket leaves the queue and the cursor moves on before any listener is called.
  function EmitPending(d: Delivery, delivered: nat, elapsed: nat): Delivery {
    d.(pending := d.pending - {d.nextSequence},
    nextSequence := d.nextSequence + 1,
    emittedSinceYield := d.emittedSinceYield + delivered,
    workMsSinceYield := d.workMsSinceYield + elapsed,
    log := d.log + [Rows(d.nextSequence, d.Bucket(d.nextSequence), delivered)])
  }

  function StepOver(d: Delivery): Delivery {
    d.(skippedSequences := d.skippedSequences - {d.nextSequence},
    nextSequence := d.nextSequence + 1,
    emittedSinceYield := d.emittedSinceYield + 1,
    log := d.log + [Skipped(d.nextSequence)])
  }

  function EmitGap(d: Delivery, gapTo: int): Delivery
    requires d.nextSequence <= gapTo
  {
    d.(nextSequence := gapTo + 1,
    emittedSinceYield := d.emittedSinceYield + (gapTo - d.nextSequence + 1),
    log := d.log + [Gap(d.nextSequence, gapTo)])
  }

  function Refresh(d: Delivery): Delivery {
    d.(emittedSinceYield := 0, workMsSinceYield := 0)
  }

  // Where an iteration leaves the drain: going on, at an `await`, or out of its loop.
  datatype Outcome =
    | Again
    | Yield
    | Recover(fromSequence: int, toSequence: int)
    | Leave

  // One pass of the drain loop while its delivery is alive.
  ghost function DrainIteration(d: Delivery, delivered: nat, elapsed: nat): (Delivery, Outcome) {
    var next := d.nextSequence;
    if d.Bucket(next) != [] then
      if d.BudgetSpent() then (Refresh(d), Yield) else (EmitPending(d, delivered, elapsed), Again)
    else if d.recoveryThrough.Some? && d.recoveryThrough.value >= next then
      (d.(recoveryThrough := None), Recover(next, d.recoveryThrough.value))
    else
      var firstPending := LeastFrom(d.pending.Keys, next);
      (d.(recoveryThrough := None),
       if firstPending.None? || firstPending.value <= next then Leave else Recover(next, firstPending.value - 1))
  }

  // The end of the hole in front of the cursor, no further than `toSequence`.
  ghost function GapEnd(d: Delivery, toSequence: int): int {
    var pending := LeastFrom(d.pending.Keys, d.nextSequence);
    var skipped := LeastFrom(d.skippedSequences, d.nextSequence);
    var firstKnown :=
      if pending.None? then skipped
      else if skipped.None? then pending
      else Some(if pending.value <= skipped.value then pending.value else skipped.value);
    if firstKnown.None? || toSequence < firstKnown.value - 1 then toSequence else firstKnown.value - 1
  }

  // One pass of the hole-filling loop while its delivery is alive.
  ghost function FillIteration(d: Delivery, toSequence: int, delivered: nat, elapsed: nat): (Delivery, Outcome) {
    var next := d.nextSequence;
    if toSequence < next then (d, Leave)
    else if LeastFrom(d.pending.Keys, next) == Some(next) then
      if d.BudgetSpent() then (Refresh(d), Yield)
      else (EmitPending(d.(skippedSequences := d.skippedSequences - {next}), delivered, elapsed), Again)
    else if d.BudgetSpent() then (Refresh(d), Yield)
    else if LeastFrom(d.skippedSequences, next) == Some(next) then (StepOver(d), Again)
    else (EmitGap(d, GapEnd(d, toSequence)), Again)
  }

  // ---- undisturbed turns: passes up to the next await, `clock` giving the work at each position ----

  ghost function DrainTurn(d: Delivery, clock: int -> nat): (r: (Delivery, Outcome))
    ensures r.1 != Again
    ensures |d.log| <= |r.0.log| <= |d.log| + Max(STREAM_BATCH_SIZE - d.emittedSinceYield, 0)
    decreases Max(STREAM_BATCH_SIZE - d.emittedSinceYield, 0)
  {
    var (after, outcome) := DrainIteration(d, |d.Bucket(d.nextSequence)|, clock(d.nextSequence));
    if outcome == Again then DrainTurn(after, clock) else (after, outcome)
  }

  ghost function FillTurn(d: Delivery, toSequence: int, clock: int -> nat): (r: (Delivery, Outcome))
    ensures r.1 == Yield || (r.1 == Leave && toSequence < r.0.nextSequence)
    decreases Max(toSequence + 1 - d.nextSequence, 0)
  {
    var (after, outcome) := FillIteration(d, toSequence, |d.Bucket(d.nextSequence)|, clock(d.nextSequence));
    if outcome == Again then FillTurn(after, toSequence, clock) else (after, outcome)
  }
}
