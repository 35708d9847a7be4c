/**
 Removing the matching items of a sequence, and where the first of them was.
 */
module Filtering {
  import opened Options

  function Kept<T>(s: seq<T>, drop: T -> bool): (r: seq<T>)
    ensures |r| <= |s|
  {
    if s == [] then []
    else Kept(s[..|s| - 1], drop) + if drop(s[|s| - 1]) then [] else [s[|s| - 1]]
  }

  // The position of the first dropped item, or the length.
  function FirstMatch<T>(s: seq<T>, drop: T -> bool): (first: nat)
    ensures first <= |s|
    ensures first < |s| ==> drop(s[first])
    ensures forall i :: 0 <= i < first ==> !drop(s[i])
  {
    if s == [] then 0
    else
      var before := FirstMatch(s[..|s| - 1], drop);
      if before < |s| - 1 || drop(s[|s| - 1]) then before else |s|
  }

  function FirstDropped<T>(s: seq<T>, drop: T -> bool): Option<nat> {
    if FirstMatch(s, drop) == |s| then None else Some(FirstMatch(s, drop))
  }

  lemma {:induction false} KeptMembers<T>(s: seq<T>, drop: T -> bool, x: T)
    ensures x in Kept(s, drop) <==> x in s && !drop(x)
    decreases |s|
  {
    if s != [] {
      KeptMembers(s[..|s| - 1], drop, x);
      assert s == s[..|s| - 1] + [s[|s| - 1]];
    }
  }

  lemma {:induction false} NothingDropped<T>(s: seq<T>, drop: T -> bool)
    requires forall i :: 0 <= i < |s| ==> !drop(s[i])
    ensures Kept(s, drop) == s
    decreases |s|
  {
    if s != [] {
      NothingDropped(s[..|s| - 1], drop);
    }
  }

  lemma {:induction false} KeptAppend<T>(a: seq<T>, b: seq<T>, drop: T -> bool)
    ensures Kept(a + b, drop) == Kept(a, drop) + Kept(b, drop)
    decreases |b|
  {
    if b == [] {
      assert a + b == a;
    } else {
      assert (a + b)[..|a + b| - 1] == a + b[..|b| - 1];
      KeptAppend(a, b[..|b| - 1], drop);
    }
  }

  // Nothing before the first dropped item moves.
  lemma KeptPrefix<T>(s: seq<T>, drop: T -> bool)
    ensures FirstMatch(s, drop) <= |Kept(s, drop)|
    ensures Kept(s, drop)[..FirstMatch(s, drop)] == s[..FirstMatch(s, drop)]
    ensures FirstMatch(s, drop) == |s| ==> Kept(s, drop) == s
  {
    var first := FirstMatch(s, drop);
    assert s == s[..first] + s[first..];
    KeptAppend(s[..first], s[first..], drop);
    NothingDropped(s[..first], drop);
  }

  lemma FirstMatchIs<T>(s: seq<T>, drop: T -> bool, first: nat)
    requires first <= |s| && (first < |s| ==> drop(s[first]))
    requires forall i :: 0 <= i < first ==> !drop(s[i])
    ensures FirstMatch(s, drop) == first
  {
  }

  lemma KeptFromFront<T>(s: seq<T>, drop: T -> bool, i: nat)
    requires i < |s|
    ensures Kept(s[i..], drop) == (if drop(s[i]) then [] else [s[i]]) + Kept(s[i + 1..], drop)
  {
    assert s[i..] == [s[i]] + s[i + 1..];
    KeptAppend([s[i]], s[i + 1..], drop);
    assert [s[i]][..0] == [];
  }

  lemma RemovedAt<T>(front: seq<T>, x: T, rest: seq<T>)
    ensures var all := front + [x] + rest;
            all[|front|] == x && all[..|front|] + all[|front| + 1..] == front + rest
  {
  }

  // Splices the matching items out, from the end back.
  method SpliceMatching<T>(s: seq<T>, drop: T -> bool) returns (kept: seq<T>, first: Option<nat>)
    ensures kept == Kept(s, drop) && first == FirstDropped(s, drop)
  {
    kept, first := s, None;
    ghost var rest: seq<T> := [];
    var index := |s| - 1;
    while index >= 0
      invariant -1 <= index < |s|
      invariant kept == s[..index + 1] + rest && rest == Kept(s[index + 1..], drop)
      invariant first.Some? ==> index < first.value < |s| && drop(s[first.value])
      invariant forall i :: index < i < first.GetOr(|s|) ==> !drop(s[i])
    {
      KeptFromFront(s, drop, index);
      assert s[..index + 1] == s[..index] + [s[index]];
      RemovedAt(s[..index], s[index], rest);
      if drop(kept[index]) {
        kept := kept[..index] + kept[index + 1..];
        first := Some(index);
      } else {
        rest := [s[index]] + rest;
      }
      index := index - 1;
    }
    FirstMatchIs(s, drop, first.GetOr(|s|));
    assert s[0..] == s;
  }
}
