/** The binary min-heaps of positions behind a delivery's hole lookups. */
module SequenceHeap {

  // `value` is no larger than either child of node `i`.
  predicate AboveChildren(heap: seq<int>, value: int, i: nat) {
    && (2 * i + 1 < |heap| ==> value <= heap[2 * i + 1])
    && (2 * i + 2 < |heap| ==> value <= heap[2 * i + 2])
  }

  predicate Ordered(heap: seq<int>, i: nat)
    requires i < |heap|
  {
    AboveChildren(heap, heap[i], i)
  }

  // Every node at or after `from` is no larger than its children.
  ghost predicate HeapFrom(heap: seq<int>, from: nat) {
    forall i: nat :: from <= i < |heap| ==> Ordered(heap, i)
  }

  ghost predicate IsMinHeap(heap: seq<int>) {
    HeapFrom(heap, 0)
  }

  function Parent(i: nat): (p: nat)
    requires i > 0
    ensures p < i && (i == 2 * p + 1 || i == 2 * p + 2)
  {
    (i - 1) / 2
  }

  function Swap(heap: seq<int>, i: nat, j: nat): (result: seq<int>)
    requires i < |heap| && j < |heap|
    ensures |result| == |heap|
    ensures result[i] == heap[j] && result[j] == heap[i]
    ensures forall k :: 0 <= k < |heap| && k != i && k != j ==> result[k] == heap[k]
    ensures multiset(result) == multiset(heap)
  {
    heap[i := heap[j]][j := heap[i]]
  }

  lemma {:induction false} RootIsLeast(heap: seq<int>, i: nat)
    requires IsMinHeap(heap) && i < |heap|
    ensures heap[0] <= heap[i]
  {
    if i > 0 {
      RootIsLeast(heap, Parent(i));
      assert Ordered(heap, Parent(i));
    }
  }

  // One exchange of `index` with its smaller child moves the only disorder down.
  lemma SiftStep(heap: seq<int>, start: nat, index: nat, smallest: nat)
    requires start <= index < smallest < |heap| && Parent(smallest) == index
    requires heap[smallest] < heap[index] && AboveChildren(heap, heap[smallest], index)
    requires forall i: nat :: start <= i < |heap| && i != index ==> Ordered(heap, i)
    requires index > start && start <= Parent(index) ==> AboveChildren(heap, heap[Parent(index)], index)
    ensures forall i: nat :: start <= i < |heap| && i != smallest ==> Ordered(Swap(heap, smallest, index), i)
    ensures AboveChildren(Swap(heap, smallest, index), Swap(heap, smallest, index)[index], smallest)
  {
    var swapped := Swap(heap, smallest, index);
    assert Ordered(heap, smallest);
    forall i: nat | start <= i < |heap| && i != smallest
      ensures Ordered(swapped, i)
    {
      if i != index {
        assert Ordered(heap, i);
      }
    }
  }

  method SiftHeapDown(heap: seq<int>, start: nat) returns (result: seq<int>)
    requires HeapFrom(heap, start + 1)
    ensures HeapFrom(result, start)
    ensures multiset(result) == multiset(heap)
    ensures |result| == |heap|
  {
    result := heap;
    var index := start;
    while true
      invariant |result| == |heap| && multiset(result) == multiset(heap)
      invariant start <= index
      invariant forall i: nat :: start <= i < |result| && i != index ==> Ordered(result, i)
      invariant start < index < |result| && start <= Parent(index) ==>
                  AboveChildren(result, result[Parent(index)], index)
      decreases |heap| - index
    {
      var left, right := 2 * index + 1, 2 * index + 2;
      var smallest := index;
      if left < |result| && result[left] < result[smallest] {
        smallest := left;
      }
      if right < |result| && result[right] < result[smallest] {
        smallest := right;
      }
      if smallest == index {
        return;
      }
      SiftStep(result, start, index, smallest);
      result := Swap(result, smallest, index);
      index := smallest;
    }
  }

  method HeapifySequences(sequences: seq<int>) returns (heap: seq<int>)
    ensures IsMinHeap(heap)
    ensures multiset(heap) == multiset(sequences)
  {
    heap := sequences;
    var index := |heap| / 2 - 1;
    while index >= 0
      invariant -1 <= index && |heap| == |sequences|
      invariant multiset(heap) == multiset(sequences)
      invariant HeapFrom(heap, index + 1)
    {
      heap := SiftHeapDown(heap, index);
      index := index - 1;
    }
  }

  // Node `i` is no larger than its children, `skip` left aside.
  predicate OrderedExcept(heap: seq<int>, i: nat, skip: nat)
    requires i < |heap|
  {
    && (2 * i + 1 < |heap| && 2 * i + 1 != skip ==> heap[i] <= heap[2 * i + 1])
    && (2 * i + 2 < |heap| && 2 * i + 2 != skip ==> heap[i] <= heap[2 * i + 2])
  }

  // A heap but for one node, which may be smaller than its parent.
  ghost predicate HeapButFor(heap: seq<int>, index: nat) {
    && index < |heap|
    && (forall i: nat :: i < |heap| ==> OrderedExcept(heap, i, index))
    && (index > 0 ==> AboveChildren(heap, heap[Parent(index)], index))
  }

  // One exchange of `index` with its larger parent moves the only disorder up.
  lemma BubbleStep(heap: seq<int>, index: nat)
    requires HeapButFor(heap, index) && index > 0 && heap[index] < heap[Parent(index)]
    ensures HeapButFor(Swap(heap, Parent(index), index), Parent(index))
  {
    var parent := Parent(index);
    var swapped := Swap(heap, parent, index);
    assert OrderedExcept(heap, parent, index);
    forall i: nat | i < |heap|
      ensures OrderedExcept(swapped, i, parent)
    {
      assert OrderedExcept(heap, i, index);
    }
    if parent > 0 {
      assert OrderedExcept(heap, Parent(parent), index);
    }
  }

  method HeapPushSequence(heap: seq<int>, sequence: int) returns (result: seq<int>)
    requires IsMinHeap(heap)
    ensures IsMinHeap(result)
    ensures multiset(result) == multiset(heap) + multiset{sequence}
  {
    result := heap + [sequence];
    var index: nat := |heap|;
    forall i: nat | i < |result|
      ensures OrderedExcept(result, i, index)
    {
      assert i < |heap| ==> Ordered(heap, i);
    }
    while index > 0
      invariant HeapButFor(result, index) && |result| == |heap| + 1
      invariant multiset(result) == multiset(heap) + multiset{sequence}
    {
      var parent := Parent(index);
      if result[parent] <= result[index] {
        break;
      }
      BubbleStep(result, index);
      result := Swap(result, parent, index);
      index := parent;
    }
    forall i: nat | i < |result|
      ensures Ordered(result, i)
    {
      assert OrderedExcept(result, i, index);
    }
  }

  method HeapPopSequence(heap: seq<int>) returns (top: int, result: seq<int>)
    requires IsMinHeap(heap) && |heap| > 0
    ensures IsMinHeap(result)
    ensures top == heap[0]
    ensures multiset(result) == multiset(heap) - multiset{top}
    ensures |result| == |heap| - 1
  {
    top := heap[0];
    var last := heap[|heap| - 1];
    result := heap[..|heap| - 1];
    assert heap == result + [last];
    if |result| > 0 {
      ghost var shorter := result;
      result := result[0 := last];
      assert multiset(result) == multiset(shorter) - multiset{top} + multiset{last};
      forall i: nat | 1 <= i < |result|
        ensures Ordered(result, i)
      {
        assert Ordered(heap, i);
      }
      result := SiftHeapDown(result, 0);
    }
  }
}
