/** What every piece of queue handling keeps, and what that says about the history of a delivery. */
module DeliveryInvariant {
  import opened Options
  import opened OrderedDelivery

  // The logged items are consecutive, ascending and fill [start, next) exactly.
  ghost predicate Tiles(start: int, log: seq<Item>, next: int) {
    if log == [] then start == next
    else
      var last := log[|log| - 1];
      last.Hi() + 1 == next && last.Lo() <= last.Hi() && Tiles(start, log[..|log| - 1], last.Lo())
  }

  ghost predicate BucketOf(position: int, bucket: seq<Event>) {
    && bucket != []
    && (forall i :: 0 <= i < |bucket| ==> bucket[i].sequence == Some(position))
    && (forall i, j :: 0 <= i < j < |bucket| ==> bucket[i] != bucket[j])
  }

  // A bucket is logged whole; a filtered position never had a row; a gap never covers a held position.
  ghost predicate ItemOk(queued: map<int, seq<Event>>, passed: set<int>, item: Item) {
    match item
    case Rows(p, bucket, delivered) => p in queued && queued[p] == bucket && delivered <= |bucket|
    case Skipped(p) => p in passed && p !in queued
    case Gap(a, b) => forall p :: a <= p <= b ==> p !in queued && p !in passed
  }

  // The cursor, what is still held and the history, without the drain's bookkeeping.
  ghost predicate Ledger(start: int, next: int, pending: map<int, seq<Event>>, skipped: set<int>,
                         log: seq<Item>, queued: map<int, seq<Event>>, passed: set<int>) {
    && Tiles(start, log, next)
    && (forall i :: 0 <= i < |log| ==> ItemOk(queued, passed, log[i]))
    && (forall p :: p in pending ==> next <= p && p in queued && queued[p] == pending[p])
    && (forall p :: p in queued ==> start <= p && BucketOf(p, queued[p]) && (next <= p ==> p in pending))
    && (forall p :: p in passed ==> start <= p && (next <= p ==> p in skipped))
    && skipped <= passed
  }

  ghost predicate DeliveryInv(d: Delivery) {
    Ledger(d.start, d.nextSequence, d.pending, d.skippedSequences, d.log, d.queued, d.passed)
  }

  lemma QueueKeeps(d: Delivery, position: int, event: Event)
    requires DeliveryInv(d) && d.nextSequence <= position && event.sequence == Some(position)
    ensures DeliveryInv(Queue(d, position, event))
  {
    var q := Queue(d, position, event);
    TilesAscend(d.start, d.log, d.nextSequence);
    if q != d {
      forall i | 0 <= i < |q.log|
        ensures ItemOk(q.queued, q.passed, q.log[i])
      {
        ItemEnds(d.start, d.log, d.nextSequence, i);
        assert ItemOk(d.queued, d.passed, d.log[i]);
      }
    }
  }

  lemma PassKeeps(d: Delivery, position: int)
    requires DeliveryInv(d) && d.nextSequence <= position
    ensures DeliveryInv(Pass(d, position))
  {
    var q := Pass(d, position);
    TilesAscend(d.start, d.log, d.nextSequence);
    forall i | 0 <= i < |q.log|
      ensures ItemOk(q.queued, q.passed, q.log[i])
    {
      ItemEnds(d.start, d.log, d.nextSequence, i);
      assert ItemOk(d.queued, d.passed, d.log[i]);
    }
  }

  // Every logged item lies inside [start, next).
  lemma {:induction false} ItemEnds(start: int, log: seq<Item>, next: int, i: nat)
    requires Tiles(start, log, next) && i < |log|
    ensures start <= log[i].Lo() <= log[i].Hi() < next
    decreases |log|
  {
    TilesAscend(start, log[..|log| - 1], log[|log| - 1].Lo());
    if i < |log| - 1 {
      ItemEnds(start, log[..|log| - 1], log[|log| - 1].Lo(), i);
    }
  }

  lemma {:induction false} TilesAscend(start: int, log: seq<Item>, next: int)
    requires Tiles(start, log, next)
    ensures start <= next
  {
    if log != [] {
      TilesAscend(start, log[..|log| - 1], log[|log| - 1].Lo());
    }
  }

  lemma AppendKeeps(d: Delivery, after: Delivery, item: Item)
    requires DeliveryInv(d)
    requires after.log == d.log + [item] && after.start == d.start
    requires after.queued == d.queued && after.passed == d.passed
    requires item.Lo() == d.nextSequence <= item.Hi() && after.nextSequence == item.Hi() + 1
    requires ItemOk(d.queued, d.passed, item)
    ensures Tiles(after.start, after.log, after.nextSequence)
    ensures forall i :: 0 <= i < |after.log| ==> ItemOk(after.queued, after.passed, after.log[i])
  {
    assert after.log[..|d.log|] == d.log;
    forall i | 0 <= i < |after.log|
      ensures ItemOk(after.queued, after.passed, after.log[i])
    {
      if i < |d.log| {
        assert ItemOk(d.queued, d.passed, d.log[i]);
      }
    }
  }

  lemma EmitPendingKeeps(d: Delivery, delivered: nat, elapsed: nat)
    requires DeliveryInv(d) && d.nextSequence in d.pending && delivered <= |d.Bucket(d.nextSequence)|
    ensures DeliveryInv(EmitPending(d, delivered, elapsed))
  {
    AppendKeeps(d, EmitPending(d, delivered, elapsed), Rows(d.nextSequence, d.Bucket(d.nextSequence), delivered));
  }

  // The position may have been skipped as well.
  lemma EmitSkippedKeeps(d: Delivery, delivered: nat, elapsed: nat)
    requires DeliveryInv(d) && d.nextSequence in d.pending && delivered <= |d.Bucket(d.nextSequence)|
    ensures DeliveryInv(EmitPending(d.(skippedSequences := d.skippedSequences - {d.nextSequence}), delivered, elapsed))
  {
    var after := EmitPending(d.(skippedSequences := d.skippedSequences - {d.nextSequence}), delivered, elapsed);
    AppendKeeps(d, after, Rows(d.nextSequence, d.Bucket(d.nextSequence), delivered));
  }

  lemma StepOverKeeps(d: Delivery)
    requires DeliveryInv(d) && d.nextSequence !in d.pending && d.nextSequence in d.skippedSequences
    ensures DeliveryInv(StepOver(d))
  {
    AppendKeeps(d, StepOver(d), Skipped(d.nextSequence));
  }

  lemma EmitGapKeeps(d: Delivery, gapTo: int)
    requires DeliveryInv(d) && d.nextSequence <= gapTo
    requires forall p :: d.nextSequence <= p <= gapTo ==> p !in d.pending && p !in d.skippedSequences
    ensures DeliveryInv(EmitGap(d, gapTo))
  {
    AppendKeeps(d, EmitGap(d, gapTo), Gap(d.nextSequence, gapTo));
  }

  lemma DrainIterationKeeps(d: Delivery, delivered: nat, elapsed: nat)
    requires DeliveryInv(d) && delivered <= |d.Bucket(d.nextSequence)|
    ensures DeliveryInv(DrainIteration(d, delivered, elapsed).0)
  {
    if d.nextSequence in d.pending {
      EmitPendingKeeps(d, delivered, elapsed);
    }
  }

  lemma FillIterationKeeps(d: Delivery, toSequence: int, delivered: nat, elapsed: nat)
    requires DeliveryInv(d) && delivered <= |d.Bucket(d.nextSequence)|
    ensures DeliveryInv(FillIteration(d, toSequence, delivered, elapsed).0)
  {
    var next := d.nextSequence;
    if toSequence < next || d.BudgetSpent() {
    } else if next in d.pending {
      EmitSkippedKeeps(d, delivered, elapsed);
    } else if next in d.skippedSequences {
      StepOverKeeps(d);
    } else {
      EmitGapKeeps(d, GapEnd(d, toSequence));
    }
  }

  // ---- what the invariant says ----

  ghost predicate CoveredBy(d: Delivery, position: int, i: nat) {
    i < |d.log| && d.log[i].Lo() <= position <= d.log[i].Hi()
  }

  lemma {:induction false} TileAt(start: int, log: seq<Item>, next: int, position: int) returns (i: nat)
    requires Tiles(start, log, next) && start <= position < next
    ensures i < |log| && log[i].Lo() <= position <= log[i].Hi()
    decreases |log|
  {
    var last := |log| - 1;
    if log[last].Lo() <= position {
      i := last;
    } else {
      i := TileAt(start, log[..last], log[last].Lo(), position);
    }
  }

  lemma {:induction false} ItemsAscend(start: int, log: seq<Item>, next: int, i: nat, j: nat)
    requires Tiles(start, log, next) && i < j < |log|
    ensures log[i].Hi() < log[j].Lo()
    decreases |log|
  {
    var last := |log| - 1;
    if j == last {
      ItemEnds(start, log[..last], log[last].Lo(), i);
    } else {
      ItemsAscend(start, log[..last], log[last].Lo(), i, j);
    }
  }

  // The items emitted so far partition [start, nextSequence), in ascending order.
  lemma Partition(d: Delivery, position: int)
    requires DeliveryInv(d)
    ensures (exists i :: CoveredBy(d, position, i)) <==> d.start <= position < d.nextSequence
    ensures forall i, j :: CoveredBy(d, position, i) && CoveredBy(d, position, j) ==> i == j
    ensures forall i, j :: 0 <= i < j < |d.log| ==> d.log[i].Hi() < d.log[j].Lo()
  {
    if d.start <= position < d.nextSequence {
      var i := TileAt(d.start, d.log, d.nextSequence, position);
      assert CoveredBy(d, position, i);
    }
    forall i | CoveredBy(d, position, i)
      ensures d.start <= position < d.nextSequence
    {
      ItemEnds(d.start, d.log, d.nextSequence, i);
    }
    forall i, j | 0 <= i < j < |d.log|
      ensures d.log[i].Hi() < d.log[j].Lo()
    {
      ItemsAscend(d.start, d.log, d.nextSequence, i, j);
    }
  }

  // No row is lost: a queued position is either still pending with all its rows, or was handed on
  // once, as the whole bucket in arrival order.
  lemma RowsHandledOnce(d: Delivery, position: int)
    requires DeliveryInv(d) && position in d.queued
    ensures position in d.pending <==> d.nextSequence <= position
    ensures position in d.pending ==> d.pending[position] == d.queued[position]
    ensures position !in d.pending ==>
              exists i :: 0 <= i < |d.log| && d.log[i].Rows? && d.log[i].position == position
                          && d.log[i].bucket == d.queued[position]
  {
    if position < d.nextSequence {
      var i := TileAt(d.start, d.log, d.nextSequence, position);
      assert ItemOk(d.queued, d.passed, d.log[i]);
    }
  }

  // A gap covers only positions that were never held.
  lemma GapCoversNothingHeld(d: Delivery, i: nat, position: int)
    requires DeliveryInv(d) && CoveredBy(d, position, i) && d.log[i].Gap?
    ensures position !in d.queued && position !in d.passed
  {
    assert ItemOk(d.queued, d.passed, d.log[i]);
  }
}
