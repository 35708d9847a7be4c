/**
 Frames delivered more than once: what the row says after any delivery of a subscription, and when that is everything.
 */
module Redelivery {
  import opened Options
  import opened Reducer
  import opened Resubscription
  import opened Runs
  import opened StreamRows
  import opened TimelineNodes
  import opened TurnState

  // ---- repeats are invisible ----

  predicate Ascending(stream: seq<Delta>) {
    && (forall i :: 0 <= i < |stream| ==> stream[i].transient.index.Some?)
    && (forall i :: 0 <= i < |stream| ==> stream[i].delta != "")
    && (forall i, j :: 0 <= i < j < |stream| ==> IndexOf(stream[i]) < IndexOf(stream[j]))
  }

  // A delivery of the stream's first `reached` frames in order, any of them repeated at will.
  predicate Stutters(stream: seq<Delta>, positions: seq<nat>, reached: nat) {
    if positions == [] then reached == 0
    else
      var p := positions[|positions| - 1];
      && p < |stream|
      && ((p < reached && Stutters(stream, positions[..|positions| - 1], reached))
          || (reached == p + 1 && Stutters(stream, positions[..|positions| - 1], p)))
  }

  function Delivered(stream: seq<Delta>, positions: seq<nat>): seq<Delta> {
    if positions == [] then []
    else
      var p := positions[|positions| - 1];
      Delivered(stream, positions[..|positions| - 1]) + if p < |stream| then [stream[p]] else []
  }

  // The run has said the stream's first `reached` frames.
  predicate HasSaid(stream: seq<Delta>, run: seq<Delta>, reached: nat) {
    && reached <= |stream| && NewFrames(run) == stream[..reached]
    && Highest(run) == if reached == 0 then None else Some(IndexOf(stream[reached - 1]))
  }

  lemma SaysAgain(stream: seq<Delta>, run: seq<Delta>, reached: nat, p: nat)
    requires Ascending(stream) && HasSaid(stream, run, reached) && p < reached
    ensures HasSaid(stream, run + [stream[p]], reached)
  {
    AppendedFrame(run, stream[p]);
  }

  lemma SaysNext(stream: seq<Delta>, run: seq<Delta>, p: nat)
    requires Ascending(stream) && HasSaid(stream, run, p) && p < |stream|
    ensures HasSaid(stream, run + [stream[p]], p + 1)
  {
    AppendedFrame(run, stream[p]);
    assert stream[..p + 1] == stream[..p] + [stream[p]];
  }

  lemma {:induction false} RepeatsAreInvisible(stream: seq<Delta>, positions: seq<nat>, reached: nat)
    requires Ascending(stream) && Stutters(stream, positions, reached)
    ensures HasSaid(stream, Delivered(stream, positions), reached)
    decreases |positions|
  {
    if positions != [] {
      var init, p := positions[..|positions| - 1], positions[|positions| - 1];
      if p < reached && Stutters(stream, init, reached) {
        RepeatsAreInvisible(stream, init, reached);
        SaysAgain(stream, Delivered(stream, init), reached, p);
      } else {
        RepeatsAreInvisible(stream, init, p);
        SaysNext(stream, Delivered(stream, init), p);
      }
    }
  }

  lemma SameFrame(stream: seq<Delta>, p: nat, q: nat)
    requires Ascending(stream) && p < |stream| && q < |stream|
    ensures stream[p] == stream[q] <==> p == q
    ensures IndexOf(stream[p]) <= IndexOf(stream[q]) <==> p <= q
  {
    if p < q {
      assert IndexOf(stream[p]) < IndexOf(stream[q]);
    } else if q < p {
      assert IndexOf(stream[q]) < IndexOf(stream[p]);
    }
  }

  predicate Within(positions: seq<nat>, n: nat) {
    forall i :: 0 <= i < |positions| ==> positions[i] < n
  }

  lemma OneMoreSaid(stream: seq<Delta>, run: seq<Delta>, p: nat, reached: nat)
    requires Ascending(stream) && p < |stream| && reached <= |stream|
    requires Highest(run).None? || Highest(run).value < IndexOf(stream[p])
    requires NewFrames(run + [stream[p]]) == stream[..reached]
    ensures reached == p + 1 && NewFrames(run) == stream[..p]
  {
    AppendedFrame(run, stream[p]);
    assert NewFrames(run) + [stream[p]] == stream[..reached];
    assert |stream[..reached]| == reached;
    assert stream[..reached] == stream[..reached - 1] + [stream[reached - 1]];
    assert (NewFrames(run) + [stream[p]])[reached - 1] == stream[p];
    SameFrame(stream, p, reached - 1);
  }

  // And nothing but such a delivery says the first `reached` frames.
  lemma {:induction false} OnlyStutters(stream: seq<Delta>, positions: seq<nat>, reached: nat)
    requires Ascending(stream) && Within(positions, |stream|) && reached <= |stream|
    requires NewFrames(Delivered(stream, positions)) == stream[..reached]
    ensures Stutters(stream, positions, reached)
    decreases |positions|
  {
    if positions == [] {
      assert |stream[..reached]| == reached;
    } else {
      var init, p := positions[..|positions| - 1], positions[|positions| - 1];
      var run := Delivered(stream, init);
      AppendedFrame(run, stream[p]);
      if Highest(run).Some? && IndexOf(stream[p]) <= Highest(run).value {
        OnlyStutters(stream, init, reached);
        RepeatsAreInvisible(stream, init, reached);
        SameFrame(stream, p, reached - 1);
      } else {
        OneMoreSaid(stream, run, p, reached);
        OnlyStutters(stream, init, p);
      }
    }
  }

  // ---- no other frames say the same ----

  // How much is said, on both channels.
  function Volume(frames: seq<Delta>): nat {
    |Spoken(frames, Text)| + |Spoken(frames, Thinking)|
  }

  lemma VolumeAppend(frames: seq<Delta>, d: Delta)
    ensures Volume(frames + [d]) == Volume(frames) + |d.delta|
  {
    SpokenAppend(frames, d, Text);
    SpokenAppend(frames, d, Thinking);
  }

  lemma {:induction false} VolumeGrows(stream: seq<Delta>, low: nat, high: nat)
    requires Ascending(stream) && low <= high <= |stream|
    ensures Volume(stream[..low]) <= Volume(stream[..high])
            && (low < high ==> Volume(stream[..low]) < Volume(stream[..high]))
    decreases high
  {
    if low < high {
      VolumeGrows(stream, low, high - 1);
      VolumeAppend(stream[..high - 1], stream[high - 1]);
      assert stream[..high] == stream[..high - 1] + [stream[high - 1]];
    }
  }

  // One past the highest position delivered.
  function Reach(positions: seq<nat>): nat {
    if positions == [] then 0
    else
      var before, last := Reach(positions[..|positions| - 1]), positions[|positions| - 1];
      if last < before then before else last + 1
  }

  lemma {:induction false} ReachWithin(positions: seq<nat>, n: nat)
    requires Within(positions, n)
    ensures Reach(positions) <= n
    decreases |positions|
  {
    if positions != [] {
      ReachWithin(positions[..|positions| - 1], n);
    }
  }

  // The run says no more than the frames up to the highest, and as much only if it says just them.
  predicate SaysAtMost(stream: seq<Delta>, run: seq<Delta>, reach: nat) {
    && reach <= |stream|
    && Highest(run) == (if reach == 0 then None else Some(IndexOf(stream[reach - 1])))
    && Volume(NewFrames(run)) <= Volume(stream[..reach])
    && (Volume(NewFrames(run)) == Volume(stream[..reach]) ==> NewFrames(run) == stream[..reach])
  }

  lemma AtMostAgain(stream: seq<Delta>, run: seq<Delta>, reach: nat, p: nat)
    requires Ascending(stream) && SaysAtMost(stream, run, reach) && p < reach
    ensures SaysAtMost(stream, run + [stream[p]], reach)
  {
    AppendedFrame(run, stream[p]);
    SameFrame(stream, p, reach - 1);
  }

  lemma NewIsHigher(stream: seq<Delta>, run: seq<Delta>, reach: nat, p: nat)
    requires Ascending(stream) && reach <= p < |stream|
    requires Highest(run) == if reach == 0 then None else Some(IndexOf(stream[reach - 1]))
    ensures NewFrames(run + [stream[p]]) == NewFrames(run) + [stream[p]]
    ensures Highest(run + [stream[p]]) == Some(IndexOf(stream[p]))
  {
    AppendedFrame(run, stream[p]);
    if reach > 0 {
      SameFrame(stream, p, reach - 1);
    }
  }

  lemma AtMostNext(stream: seq<Delta>, run: seq<Delta>, reach: nat, p: nat)
    requires Ascending(stream) && SaysAtMost(stream, run, reach) && reach <= p < |stream|
    ensures SaysAtMost(stream, run + [stream[p]], p + 1)
  {
    NewIsHigher(stream, run, reach, p);
    VolumeAppend(NewFrames(run), stream[p]);
    VolumeAppend(stream[..p], stream[p]);
    VolumeGrows(stream, reach, p);
    assert stream[..p + 1] == stream[..p] + [stream[p]];
  }

  lemma {:induction false} SaysNoMore(stream: seq<Delta>, positions: seq<nat>)
    requires Ascending(stream) && Within(positions, |stream|)
    ensures SaysAtMost(stream, Delivered(stream, positions), Reach(positions))
    decreases |positions|
  {
    if positions != [] {
      var init, p := positions[..|positions| - 1], positions[|positions| - 1];
      SaysNoMore(stream, init);
      if p < Reach(init) {
        AtMostAgain(stream, Delivered(stream, init), Reach(init), p);
      } else {
        AtMostNext(stream, Delivered(stream, init), Reach(init), p);
      }
    }
  }

  // The same text and the same reasoning: the same frames.
  lemma SameTextSameFrames(stream: seq<Delta>, positions: seq<nat>, reached: nat)
    requires Ascending(stream) && Within(positions, reached) && reached <= |stream|
    ensures var said := NewFrames(Delivered(stream, positions));
            said == stream[..reached] <==> (Spoken(said, Text) == Spoken(stream[..reached], Text)
                                            && Spoken(said, Thinking) == Spoken(stream[..reached], Thinking))
  {
    ReachWithin(positions, reached);
    SaysNoMore(stream, positions);
    VolumeGrows(stream, Reach(positions), reached);
  }

  // ---- the last time the subscription began ----

  // The positions from the last delivery of the first frame on.
  function LastPositions(positions: seq<nat>): seq<nat> {
    if positions == [] then []
    else
      var last := positions[|positions| - 1];
      if last == 0 then [0] else LastPositions(positions[..|positions| - 1]) + [last]
  }

  // One subscription's frames: its first one starts the row over, the others extend it.
  predicate Subscription(s: Stream, stream: seq<Delta>) {
    && stream != [] && Ascending(stream)
    && forall i :: 0 <= i < |stream| ==> FrameOf(s, stream[i]) && (IsBaseline(stream[i]) <==> i == 0)
  }

  lemma {:induction false} DeliveredLast(s: Stream, earlier: seq<Delta>, stream: seq<Delta>, positions: seq<nat>)
    requires Subscription(s, stream) && Within(positions, |stream|) && 0 in positions
    ensures LastRun(earlier + Delivered(stream, positions)) == Delivered(stream, LastPositions(positions))
    decreases |positions|
  {
    var init, p := positions[..|positions| - 1], positions[|positions| - 1];
    assert positions == init + [p];
    var run := earlier + Delivered(stream, init);
    assert earlier + Delivered(stream, positions) == run + [stream[p]];
    assert (run + [stream[p]])[..|run|] == run;
    if p == 0 {
      assert [0][..0] == [];
    } else {
      DeliveredLast(s, earlier, stream, init);
      var last := LastPositions(init);
      assert (last + [p])[..|last|] == last;
    }
  }

  lemma {:induction false} LastWithin(positions: seq<nat>, n: nat)
    requires Within(positions, n)
    ensures Within(LastPositions(positions), n)
    decreases |positions|
  {
    if positions != [] {
      LastWithin(positions[..|positions| - 1], n);
    }
  }

  lemma {:induction false} StuttersWithin(stream: seq<Delta>, positions: seq<nat>, reached: nat)
    requires Stutters(stream, positions, reached)
    ensures Within(positions, reached) && reached <= |stream| && (positions != [] ==> 0 in positions)
    decreases |positions|
  {
    if positions != [] {
      var init, p := positions[..|positions| - 1], positions[|positions| - 1];
      assert positions == init + [p];
      if p < reached && Stutters(stream, init, reached) {
        StuttersWithin(stream, init, reached);
      } else {
        StuttersWithin(stream, init, p);
      }
    }
  }

  // ---- what the row says ----

  ghost predicate RowSays(nodes: seq<Node>, s: Stream, frames: seq<Delta>) {
    var p := RowIndex(nodes, s);
    && p >= 0 && nodes[p].body.Assistant?
    && nodes[p].body.message.markdown == Spoken(frames, Text)
    && ReasoningText(nodes[p].body.message.reasoning) == Spoken(frames, Thinking)
  }

  lemma {:induction false} FramesAppend(s: Stream, a: seq<Input>, b: seq<Input>)
    ensures Frames(s, a + b) == Frames(s, a) + Frames(s, b)
    decreases |b|
  {
    if b == [] {
      assert a + b == a;
    } else {
      assert (a + b)[..|a + b| - 1] == a + b[..|b| - 1];
      FramesAppend(s, a, b[..|b| - 1]);
    }
  }

  /**
   Any earlier subscriptions, and then one whose first `reached` frames arrive in order, each of them again at will, and
   any events aside in between: the row says just these frames if and only if they have all arrived in order since the
   first frame last did.
   */
  lemma RowSaysAllExactly(state: State, s: Stream, earlier: seq<Input>, last: seq<Input>,
                          stream: seq<Delta>, positions: seq<nat>, reached: nat)
    requires last != [] && Starts(state, s, (earlier + last)[0])
    requires forall i :: 0 <= i < |earlier + last| ==>
               Delivers(s, (earlier + last)[i]) || Aside(s, RowOf(state, s, (earlier + last)[0]), (earlier + last)[i])
    requires Subscription(s, stream) && positions != [] && Stutters(stream, positions, reached) && reached <= |stream|
    requires Frames(s, last) == Delivered(stream, positions)
    ensures RowSays(ReduceAll(state, earlier + last).nodes, s, stream[..reached])
       <==> Stutters(stream, LastPositions(positions), reached)
  {
    RowSaysLastRun(state, s, earlier + last);
    FramesAppend(s, earlier, last);
    StuttersWithin(stream, positions, reached);
    DeliveredLast(s, Frames(s, earlier), stream, positions);
    LastWithin(positions, reached);
    SameTextSameFrames(stream, LastPositions(positions), reached);
    LastSaysExactly(stream, LastPositions(positions), reached);
  }

  lemma LastSaysExactly(stream: seq<Delta>, positions: seq<nat>, reached: nat)
    requires Ascending(stream) && Within(positions, reached) && reached <= |stream|
    ensures NewFrames(Delivered(stream, positions)) == stream[..reached] <==> Stutters(stream, positions, reached)
  {
    if Stutters(stream, positions, reached) {
      RepeatsAreInvisible(stream, positions, reached);
    } else if NewFrames(Delivered(stream, positions)) == stream[..reached] {
      OnlyStutters(stream, positions, reached);
    }
  }

  // ---- how that comes about, and how it does not ----

  // The first frame is not delivered again after another.
  predicate FirstComesFirst(positions: seq<nat>) {
    forall i, j :: 0 <= i < j < |positions| && positions[j] == 0 ==> positions[i] == 0
  }

  lemma {:induction false} OnlyTheFirst(stream: seq<Delta>, positions: seq<nat>, reached: nat)
    requires Stutters(stream, positions, reached) && positions != [] && Within(positions, 1)
    ensures reached == 1 && LastPositions(positions) == [0]
    decreases |positions|
  {
    var init, p := positions[..|positions| - 1], positions[|positions| - 1];
    assert p == 0 && [0][..0] == [];
    if init != [] && p < reached && Stutters(stream, init, reached) {
      OnlyTheFirst(stream, init, reached);
    }
  }

  // Then every repeat is invisible in the row.
  lemma {:induction false} RepeatsOfLaterFrames(stream: seq<Delta>, positions: seq<nat>, reached: nat)
    requires Stutters(stream, positions, reached) && positions != [] && FirstComesFirst(positions)
    ensures Stutters(stream, LastPositions(positions), reached)
    decreases |positions|
  {
    var init, p := positions[..|positions| - 1], positions[|positions| - 1];
    if p == 0 {
      assert Within(positions, 1);
      OnlyTheFirst(stream, positions, reached);
      assert [0][..0] == [] && Stutters(stream, [], 0);
    } else {
      var last := LastPositions(init);
      assert (last + [p])[..|last|] == last;
      if p < reached && Stutters(stream, init, reached) {
        RepeatsOfLaterFrames(stream, init, reached);
      } else {
        RepeatsOfLaterFrames(stream, init, p);
      }
    }
  }

  lemma TwoFrames(stream: seq<Delta>)
    requires |stream| >= 2
    ensures Stutters(stream, [], 0) && Stutters(stream, [0], 1) && Stutters(stream, [0, 1], 2)
    ensures LastPositions([0]) == [0] && LastPositions([0, 1]) == [0, 1]
    ensures Delivered(stream, [0]) == [stream[0]] && Delivered(stream, [0, 1]) == [stream[0], stream[1]]
  {
    assert [0][..0] == [] && [0, 1][..1] == [0];
  }

  // The first frame again after the second leaves the row with the first alone ...
  lemma RepeatedFirstFrame(stream: seq<Delta>)
    requires |stream| >= 2
    ensures Stutters(stream, [0, 1, 0], 2) && !Stutters(stream, LastPositions([0, 1, 0]), 2)
    ensures Delivered(stream, [0, 1, 0]) == [stream[0], stream[1], stream[0]]
  {
    TwoFrames(stream);
    assert [0, 1, 0][..2] == [0, 1];
    assert LastPositions([0, 1, 0]) == [0];
    assert [0][..0] == [];
  }

  // ... until the second comes again too.
  lemma RepeatedFromTheFirst(stream: seq<Delta>)
    requires |stream| >= 2
    ensures Stutters(stream, [0, 1, 0, 1], 2) && !FirstComesFirst([0, 1, 0, 1])
            && Stutters(stream, LastPositions([0, 1, 0, 1]), 2)
  {
    TwoFrames(stream);
    RepeatedFirstFrame(stream);
    assert [0, 1, 0, 1][..3] == [0, 1, 0];
    assert LastPositions([0, 1, 0]) == [0] && [0] + [1] == [0, 1];
    assert [0, 1, 0, 1][0] == 0 && [0, 1, 0, 1][1] == 1 && [0, 1, 0, 1][2] == 0;
  }

  // At the reducer: a message of two frames, and the first once more.
  const MESSAGE := Stream("m", "a", Some(1), Some(0), None)

  const NOTHING := State(None, [], 0, None, None, None, map[], None, Turns(map[], map[], Some(1), {}))

  function FrameInput(text: string, index: int): Input {
    Input(0,
          MessageDelta(Delta(Text, "m", text, Some(1), Some(0), None,
                             Transient(Some("a"), Some(index), Some(index), None))), false, None)
  }

  function FrameDelta(text: string, index: int): Delta {
    FrameInput(text, index).event.delta
  }

  // A message that says only its first frame, though the second arrived in between.
  lemma FirstFrameAgain(state: State, s: Stream, stream: seq<Delta>, one: Input, two: Input)
    requires Starts(state, s, one) && Delivers(s, one) && Delivers(s, two)
    requires Subscription(s, stream) && stream == [one.event.delta, two.event.delta]
    ensures RowSays(ReduceAll(state, [one, two, one]).nodes, s, [stream[0]])
    ensures !RowSays(ReduceAll(state, [one, two, one]).nodes, s, stream)
  {
    SaysTheFirst(state, s, stream, one, two);
    SaysNotBoth(state, s, stream, one, two);
  }

  lemma SaysTheFirst(state: State, s: Stream, stream: seq<Delta>, one: Input, two: Input)
    requires Starts(state, s, one) && Delivers(s, one) && Delivers(s, two)
    requires Subscription(s, stream) && stream == [one.event.delta, two.event.delta]
    ensures RowSays(ReduceAll(state, [one, two, one]).nodes, s, [stream[0]])
  {
    RowSaysLastRun(state, s, [one, two, one]);
    FramesOfThree(s, one, two, one);
    LastOfThree(s, stream);
  }

  lemma LastOfThree(s: Stream, stream: seq<Delta>)
    requires Subscription(s, stream) && |stream| >= 2
    ensures NewFrames(LastRun([stream[0], stream[1], stream[0]])) == [stream[0]]
  {
    RepeatedFirstFrame(stream);
    DeliveredLast(s, [], stream, [0, 1, 0]);
    assert [] + Delivered(stream, [0, 1, 0]) == Delivered(stream, [0, 1, 0]);
    OneFrameSaid(stream);
  }

  lemma SaysNotBoth(state: State, s: Stream, stream: seq<Delta>, one: Input, two: Input)
    requires Starts(state, s, one) && Delivers(s, one) && Delivers(s, two)
    requires Subscription(s, stream) && stream == [one.event.delta, two.event.delta]
    ensures !RowSays(ReduceAll(state, [one, two, one]).nodes, s, stream)
  {
    var inputs := [one, two, one];
    assert [] + inputs == inputs && stream[..2] == stream;
    FramesOfThree(s, one, two, one);
    RepeatedFirstFrame(stream);
    RowSaysAllExactly(state, s, [], inputs, stream, [0, 1, 0], 2);
  }

  lemma RepeatedBaselineDropsText()
    ensures var one, two := FrameInput("one", 1), FrameInput("two", 2);
      && RowSays(ReduceAll(NOTHING, [one, two, one]).nodes, MESSAGE, [FrameDelta("one", 1)])
      && !RowSays(ReduceAll(NOTHING, [one, two, one]).nodes, MESSAGE, [FrameDelta("one", 1), FrameDelta("two", 2)])
  {
    StartsFromNothing(FrameInput("one", 1));
    FirstFrameAgain(NOTHING, MESSAGE, [FrameDelta("one", 1), FrameDelta("two", 2)], FrameInput("one", 1),
                    FrameInput("two", 2));
  }

  lemma OneFrameSaid(stream: seq<Delta>)
    requires Ascending(stream) && |stream| >= 2
    ensures LastPositions([0, 1, 0]) == [0] && NewFrames(Delivered(stream, [0])) == [stream[0]]
  {
    TwoFrames(stream);
    AppendedFrame([], stream[0]);
    assert [] + [stream[0]] == [stream[0]] && NewFrames([]) == [];
  }

  lemma FramesOfThree(s: Stream, a: Input, b: Input, c: Input)
    requires Delivers(s, a) && Delivers(s, b) && Delivers(s, c)
    ensures Frames(s, [a, b, c]) == [a.event.delta, b.event.delta, c.event.delta]
  {
    FrameOfOne(s, a);
    FrameOfOne(s, b);
    FrameOfOne(s, c);
    FramesAppend(s, [a], [b]);
    FramesAppend(s, [a, b], [c]);
    assert [a] + [b] == [a, b] && [a, b] + [c] == [a, b, c];
  }

  lemma FrameOfOne(s: Stream, a: Input)
    requires Delivers(s, a)
    ensures Frames(s, [a]) == [a.event.delta]
  {
    assert [a][..0] == [];
  }

  lemma StartsFromNothing(input: Input)
    requires Delivers(MESSAGE, input) && IsBaseline(input.event.delta)
    ensures Starts(NOTHING, MESSAGE, input)
  {
  }
}
