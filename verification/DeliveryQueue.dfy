/**
 The delivery object itself: its maps and its lazily pruned heaps, updated in place. Every method
 is tied to the piece of OrderedDelivery it carries out.
 */
module DeliveryQueue {
  import opened Options
  import opened SequenceHeap
  import opened OrderedDelivery
  import opened SessionDelivery

  datatype RangeOrder = RangeOrder(pending: seq<int>, skipped: seq<int>)

  // Every position at or above `floor` is in the heap, which may also hold stale and repeated ones.
  ghost predicate Covers(heap: seq<int>, positions: set<int>, floor: int) {
    IsMinHeap(heap) && forall p :: p in positions && floor <= p ==> p in multiset(heap)
  }

  lemma TopIsLeast(heap: seq<int>, positions: set<int>, minimum: int)
    requires Covers(heap, positions, minimum)
    requires heap != [] ==> minimum <= heap[0] && heap[0] in positions
    ensures LeastFrom(positions, minimum) == if heap == [] then None else Some(heap[0])
  {
    forall p | p in positions && minimum <= p
      ensures heap != [] && heap[0] <= p
    {
      assert p in heap;
      var i :| 0 <= i < |heap| && heap[i] == p;
      RootIsLeast(heap, i);
    }
  }

  // Pop what is below the minimum or no longer held.
  method PruneHeap(heap: seq<int>, positions: set<int>, ghost floor: int, minimum: int) returns (pruned: seq<int>)
    requires Covers(heap, positions, floor) && floor <= minimum
    ensures Covers(pruned, positions, minimum)
    ensures LeastFrom(positions, minimum) == if pruned == [] then None else Some(pruned[0])
  {
    pruned := heap;
    while |pruned| > 0
      invariant Covers(pruned, positions, minimum)
      decreases |pruned|
    {
      if minimum <= pruned[0] && pruned[0] in positions {
        break;
      }
      var top;
      top, pruned := HeapPopSequence(pruned);
    }
    TopIsLeast(pruned, positions, minimum);
  }

  class OrderedSessionDelivery {
    var nextSequence: int
    var pending: map<int, seq<Event>>
    var skippedSequences: set<int>
    var recoveryThrough: Option<int>
    var emittedSinceYield: nat
    var workMsSinceYield: nat
    var rangeOrder: Option<RangeOrder>

    ghost var start: int
    ghost var log: seq<Item>
    ghost var queued: map<int, seq<Event>>
    ghost var passed: set<int>
    // The largest minimum looked up so far: nothing below it is ever asked for again.
    ghost var floor: int

    ghost function View(): Delivery
      reads this
    {
      Delivery(start, nextSequence, pending, skippedSequences, recoveryThrough, emittedSinceYield, workMsSinceYield,
               log, queued, passed)
    }

    ghost predicate Valid()
      reads this
    {
      && floor <= nextSequence
      && (forall p :: p in pending ==> pending[p] != [])
      && (rangeOrder.Some? ==>
            && Covers(rangeOrder.value.pending, pending.Keys, floor)
            && Covers(rangeOrder.value.skipped, skippedSequences, floor))
    }

    constructor (nextSequence: int)
      ensures Valid() && View() == Create(nextSequence)
    {
      this.nextSequence := nextSequence;
      pending, skippedSequences, recoveryThrough := map[], {}, None;
      emittedSinceYield, workMsSinceYield, rangeOrder := 0, 0, None;
      start, log, queued, passed, floor := nextSequence, [], map[], {}, nextSequence;
    }

    // The least pending and the least skipped position at or above `minimum`.
    method HeldSequencesAfter(minimum: int) returns (firstPending: Option<int>, firstSkipped: Option<int>)
      requires Valid() && floor <= minimum <= nextSequence
      modifies `rangeOrder, `floor
      ensures Valid() && floor == minimum
      ensures firstPending == LeastFrom(pending.Keys, minimum)
      ensures firstSkipped == LeastFrom(skippedSequences, minimum)
    {
      if rangeOrder.None? {
        var pendingKeys := Listed(pending.Keys);
        var skippedKeys := Listed(skippedSequences);
        var pendingHeap := HeapifySequences(pendingKeys);
        var skippedHeap := HeapifySequences(skippedKeys);
        rangeOrder := Some(RangeOrder(pendingHeap, skippedHeap));
      }
      var order := rangeOrder.value;
      var pendingHeap := PruneHeap(order.pending, pending.Keys, floor, minimum);
      var skippedHeap := PruneHeap(order.skipped, skippedSequences, floor, minimum);
      rangeOrder := Some(RangeOrder(pendingHeap, skippedHeap));
      floor := minimum;
      firstPending := if pendingHeap == [] then None else Some(pendingHeap[0]);
      firstSkipped := if skippedHeap == [] then None else Some(skippedHeap[0]);
    }

    // Make a newly held position visible to a cursor that is already armed.
    method QueueHeldSequence(sequence: int, skipped: bool)
      requires rangeOrder.Some? ==> IsMinHeap(rangeOrder.value.pending) && IsMinHeap(rangeOrder.value.skipped)
      modifies `rangeOrder
      ensures rangeOrder.Some? == old(rangeOrder).Some?
      ensures rangeOrder.Some? ==>
                var before, after := old(rangeOrder).value, rangeOrder.value;
                && IsMinHeap(after.pending) && IsMinHeap(after.skipped)
                && multiset(after.pending)
                   == multiset(before.pending) + (if skipped then multiset{} else multiset{sequence})
                && multiset(after.skipped)
                   == multiset(before.skipped) + (if skipped then multiset{sequence} else multiset{})
    {
      if rangeOrder.Some? {
        var order := rangeOrder.value;
        if skipped {
          var heap := HeapPushSequence(order.skipped, sequence);
          rangeOrder := Some(order.(skipped := heap));
        } else {
          var heap := HeapPushSequence(order.pending, sequence);
          rangeOrder := Some(order.(pending := heap));
        }
      }
    }

    // A row at or above the cursor joins its bucket, unless the very same row is there; a row below it is ignored.
    method QueueRow(sequence: int, event: Event)
      requires Valid()
      modifies this
      ensures Valid()
      ensures View() == if sequence < old(nextSequence) then old(View()) else Queue(old(View()), sequence, event)
    {
      if sequence < nextSequence {
        return;
      }
      var bucket := if sequence in pending then pending[sequence] else [];
      if event in bucket {
        return;
      }
      pending := pending[sequence := bucket + [event]];
      queued := queued[sequence := bucket + [event]];
      QueueHeldSequence(sequence, false);
    }

    method PassRow(sequence: int)
      requires Valid()
      modifies this
      ensures Valid() && View() == Pass(old(View()), sequence)
    {
      skippedSequences := skippedSequences + {sequence};
      passed := passed + {sequence};
      QueueHeldSequence(sequence, true);
    }

    // One row of a snapshot or a history read.
    method AbsorbRow(fence: Fence, event: Event, through: Option<int>) returns (fence': Fence)
      requires Valid()
      modifies this
      ensures Valid() && (View(), fence') == Absorb(old(View()), fence, event, through)
    {
      fence' := fence;
      if event.sequence.None? || event.sequence.value < nextSequence
         || (through.Some? && through.value < event.sequence.value) {
        return;
      }
      var sequence := event.sequence.value;
      if event.projectionKey.Some? {
        var isNew;
        isNew, fence' :=
          fence.Remember(event.projectionKey.value, sequence).0, fence.Remember(event.projectionKey.value, sequence).1;
        if !isNew {
          PassRow(sequence);
          return;
        }
      }
      QueueRow(sequence, event);
    }

    // Hand the bucket at the cursor to the listeners, who see the first `delivered` events of it
    // before they tear the delivery down. The cursor moves before the first of them is called.
    method EmitPendingSequence(delivered: nat, elapsed: nat) returns (handed: seq<Event>)
      requires Valid() && delivered <= |View().Bucket(nextSequence)|
      modifies this
      ensures Valid() && View() == EmitPending(old(View()), delivered, elapsed)
      ensures handed == old(View()).Bucket(old(nextSequence))[..delivered]
    {
      var bucket := if nextSequence in pending then pending[nextSequence] else [];
      log := log + [Rows(nextSequence, bucket, delivered)];
      pending := pending - {nextSequence};
      nextSequence := nextSequence + 1;
      handed := [];
      var before := emittedSinceYield;
      while |handed| < delivered
        invariant |handed| <= delivered <= |bucket|
        invariant handed == bucket[..|handed|]
        invariant emittedSinceYield == before + |handed|
        invariant View() == EmitPending(old(View()), delivered, 0).(emittedSinceYield := before + |handed|)
        invariant Valid()
      {
        handed := handed + [bucket[|handed|]];
        emittedSinceYield := emittedSinceYield + 1;
      }
      workMsSinceYield := workMsSinceYield + elapsed;
    }

    method StepOverSkipped()
      requires Valid()
      modifies this
      ensures Valid() && View() == StepOver(old(View()))
    {
      log := log + [Skipped(nextSequence)];
      skippedSequences := skippedSequences - {nextSequence};
      nextSequence := nextSequence + 1;
      emittedSinceYield := emittedSinceYield + 1;
    }

    method EmitGapNotice(gapTo: int)
      requires Valid() && nextSequence <= gapTo
      modifies this
      ensures Valid() && View() == EmitGap(old(View()), gapTo)
    {
      log := log + [Gap(nextSequence, gapTo)];
      emittedSinceYield := emittedSinceYield + (gapTo - nextSequence + 1);
      nextSequence := gapTo + 1;
    }

    method Refreshed()
      requires Valid()
      modifies `emittedSinceYield, `workMsSinceYield
      ensures Valid() && View() == Refresh(old(View()))
    {
      emittedSinceYield, workMsSinceYield := 0, 0;
    }

    // One pass of the drain loop.
    method DrainPass(delivered: nat, elapsed: nat) returns (outcome: Outcome)
      requires Valid() && delivered <= |View().Bucket(nextSequence)|
      modifies this
      ensures Valid() && (View(), outcome) == DrainIteration(old(View()), delivered, elapsed)
    {
      var next := nextSequence;
      if next in pending && pending[next] != [] {
        if emittedSinceYield >= STREAM_BATCH_SIZE || workMsSinceYield >= STREAM_TIME_SLICE_MS {
          Refreshed();
          return Yield;
        }
        var _ := EmitPendingSequence(delivered, elapsed);
        return Again;
      }
      var requiredThrough := recoveryThrough;
      recoveryThrough := None;
      if requiredThrough.Some? && next <= requiredThrough.value {
        return Recover(next, requiredThrough.value);
      }
      var firstPending, firstSkipped := HeldSequencesAfter(next);
      if firstPending.None? || firstPending.value <= next {
        return Leave;
      }
      return Recover(next, firstPending.value - 1);
    }

    // One pass of the hole-filling loop.
    method FillPass(toSequence: int, delivered: nat, elapsed: nat) returns (outcome: Outcome)
      requires Valid() && delivered <= |View().Bucket(nextSequence)|
      modifies this
      ensures Valid() && (View(), outcome) == FillIteration(old(View()), toSequence, delivered, elapsed)
    {
      var next := nextSequence;
      if toSequence < next {
        return Leave;
      }
      var firstPending, firstSkipped := HeldSequencesAfter(next);
      if firstPending == Some(next) {
        if emittedSinceYield >= STREAM_BATCH_SIZE || workMsSinceYield >= STREAM_TIME_SLICE_MS {
          Refreshed();
          return Yield;
        }
        skippedSequences := skippedSequences - {next};
        var _ := EmitPendingSequence(delivered, elapsed);
        return Again;
      }
      if emittedSinceYield >= STREAM_BATCH_SIZE || workMsSinceYield >= STREAM_TIME_SLICE_MS {
        Refreshed();
        return Yield;
      }
      if firstSkipped == Some(next) {
        StepOverSkipped();
        return Again;
      }
      var firstKnown :=
        if firstPending.None? then firstSkipped
        else if firstSkipped.None? then firstPending
        else Some(if firstPending.value <= firstSkipped.value then firstPending.value else firstSkipped.value);
      var gapTo := if firstKnown.None? || toSequence < firstKnown.value - 1 then toSequence else firstKnown.value - 1;
      EmitGapNotice(gapTo);
      return Again;
    }

    // The drain loop up to its next await, while nothing tears the delivery down.
    method DrainUntilAwait(clock: int -> nat) returns (outcome: Outcome)
      requires Valid()
      modifies this
      ensures Valid() && (View(), outcome) == DrainTurn(old(View()), clock)
    {
      while true
        invariant Valid()
        invariant DrainTurn(old(View()), clock) == DrainTurn(View(), clock)
        decreases Max(STREAM_BATCH_SIZE - emittedSinceYield, 0)
      {
        outcome := DrainPass(if nextSequence in pending then |pending[nextSequence]| else 0, clock(nextSequence));
        if outcome != Again {
          return;
        }
      }
    }

    // The hole-filling loop up to its next await, while nothing tears the delivery down.
    method FillUntilAwait(toSequence: int, clock: int -> nat) returns (outcome: Outcome)
      requires Valid()
      modifies this
      ensures Valid() && (View(), outcome) == FillTurn(old(View()), toSequence, clock)
    {
      while true
        invariant Valid()
        invariant FillTurn(old(View()), toSequence, clock) == FillTurn(View(), toSequence, clock)
        decreases Max(toSequence + 1 - nextSequence, 0)
      {
        outcome :=
          FillPass(toSequence, if nextSequence in pending then |pending[nextSequence]| else 0, clock(nextSequence));
        if outcome != Again {
          return;
        }
      }
    }
  }

  method Listed(positions: set<int>) returns (list: seq<int>)
    ensures forall p :: p in positions ==> p in multiset(list)
  {
    list := [];
    var rest := positions;
    while true
      invariant forall p :: p in positions ==> p in rest || p in multiset(list)
      decreases |rest|
    {
      if p :| p in rest {
        list := list + [p];
        rest := rest - {p};
      } else {
        return;
      }
    }
  }
}
