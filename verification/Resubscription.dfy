/**
 Live text across re-subscriptions: whatever frames of earlier subscriptions were seen, however often later frames are
 repeated, and whatever else happens in between, a row ends up saying what the last subscription said.
 */
module Resubscription {
  import opened Filtering
  import opened NodeLookup
  import opened Options
  import opened Reducer
  import opened Runs
  import opened StreamRows
  import opened TimelineNodes
  import opened TurnClosure
  import opened TurnState

  // ---- what was said ----

  // The frame a new subscription starts the row over with.
  predicate IsBaseline(d: Delta) {
    d.transient.sequence == Some(1) && d.delta != ""
  }

  function LastRun(frames: seq<Delta>): seq<Delta> {
    if frames == [] then []
    else
      var last := frames[|frames| - 1];
      if IsBaseline(last) then [last] else LastRun(frames[..|frames| - 1]) + [last]
  }

  // A frame of a stream always has its index.
  function IndexOf(d: Delta): int {
    d.transient.index.GetOr(0)
  }

  // The highest index among the frames that say something.
  function Highest(run: seq<Delta>): Option<int>
  {
    if run == [] then None
    else
      var before, last := Highest(run[..|run| - 1]), run[|run| - 1];
      if last.delta == "" || (before.Some? && IndexOf(last) <= before.value) then before
      else Some(IndexOf(last))
  }

  // The frames that say something and go beyond every earlier one; the others are repeats.
  function NewFrames(run: seq<Delta>): seq<Delta>
  {
    if run == [] then []
    else
      var init, last := run[..|run| - 1], run[|run| - 1];
      if last.delta == "" || (Highest(init).Some? && IndexOf(last) <= Highest(init).value) then NewFrames(init)
      else NewFrames(init) + [last]
  }

  function Spoken(frames: seq<Delta>, channel: Channel): string {
    if frames == [] then ""
    else
      Spoken(frames[..|frames| - 1], channel)
      + if frames[|frames| - 1].channel == channel then frames[|frames| - 1].delta else ""
  }

  // ---- the row ----

  predicate Says(m: Message, s: Stream, run: seq<Delta>)
  {
    && m.markdown == Spoken(NewFrames(run), Text)
    && ReasoningText(m.reasoning) == Spoken(NewFrames(run), Thinking)
    && m.live.attempt == Some(s.attempt)
    && m.live.lastIndex.Some? && Highest(run) == m.live.lastIndex
  }

  lemma AppendedFrame(run: seq<Delta>, d: Delta)
    requires d.transient.index.Some? && d.delta != ""
    ensures Highest(run).Some? && IndexOf(d) <= Highest(run).value ==>
              NewFrames(run + [d]) == NewFrames(run) && Highest(run + [d]) == Highest(run)
    ensures Highest(run).None? || Highest(run).value < IndexOf(d) ==>
              NewFrames(run + [d]) == NewFrames(run) + [d] && Highest(run + [d]) == Some(IndexOf(d))
  {
    assert (run + [d])[..|run + [d]| - 1] == run;
  }

  lemma SpokenAppend(frames: seq<Delta>, d: Delta, channel: Channel)
    ensures Spoken(frames + [d], channel) == Spoken(frames, channel) + if d.channel == channel then d.delta else ""
  {
    assert (frames + [d])[..|frames + [d]| - 1] == frames;
  }

  // A run of one frame says that frame.
  lemma FirstFrame(d: Delta)
    requires d.transient.index.Some? && d.delta != ""
    ensures Highest([d]) == Some(IndexOf(d))
    ensures Spoken(NewFrames([d]), Text) == if d.channel.Text? then d.delta else ""
    ensures Spoken(NewFrames([d]), Thinking) == if d.channel.Thinking? then d.delta else ""
  {
    AppendedFrame([], d);
    assert [] + [d] == [d] && NewFrames([]) == [] && Spoken([], Text) == "" && Spoken([], Thinking) == "";
    SpokenAppend([], d, Text);
    SpokenAppend([], d, Thinking);
  }

  lemma StartedOver(m: Message, s: Stream, d: Delta, timing: Option<Timing>, closed: bool)
    requires FrameOf(s, d) && IsBaseline(d) && Replaces(d, m.live)
    ensures Says(ExtendedMessage(m, d, timing, closed), s, [d])
  {
    FirstFrame(d);
  }

  lemma FreshRow(s: Stream, d: Delta, timing: Option<Timing>, closed: bool)
    requires FrameOf(s, d) && IsBaseline(d)
    ensures Says(NewRow(d, timing, closed), s, [d])
  {
    FirstFrame(d);
  }

  function MessageAfter(m: Message, d: Delta, timing: Option<Timing>, closed: bool): Message {
    if IsRepeated(d, m.live) then m else ExtendedMessage(m, d, timing, closed)
  }

  lemma HearsMore(m: Message, s: Stream, run: seq<Delta>, d: Delta, timing: Option<Timing>, closed: bool)
    requires Says(m, s, run) && FrameOf(s, d) && d.delta != "" && !IsBaseline(d)
    ensures Says(MessageAfter(m, d, timing, closed), s, run + [d])
  {
    AppendedFrame(run, d);
    if !IsRepeated(d, m.live) {
      SpokenAppend(NewFrames(run), d, Text);
      SpokenAppend(NewFrames(run), d, Thinking);
    }
  }

  lemma HearsFrame(m: Message, s: Stream, frames: seq<Delta>, d: Delta, timing: Option<Timing>, closed: bool)
    requires Says(m, s, LastRun(frames)) && FrameOf(s, d) && d.delta != ""
    ensures Says(MessageAfter(m, d, timing, closed), s, LastRun(frames + [d]))
  {
    assert (frames + [d])[..|frames + [d]| - 1] == frames;
    if IsBaseline(d) {
      StartedOver(m, s, d, timing, closed);
    } else {
      HearsMore(m, s, LastRun(frames), d, timing, closed);
    }
  }

  // ---- the transcript around the row ----

  // The stream's row, which it says what the frames' last run said in.
  predicate HearsRow(nodes: seq<Node>, s: Stream, row: string, frames: seq<Delta>) {
    var p := RowIndex(nodes, s);
    && p >= 0 && nodes[p].body.Assistant?
    && Says(nodes[p].body.message, s, LastRun(frames))
    && Speaks(nodes[p], s, row, SpeechOf(nodes[p].body.message))
  }

  predicate Follows(state: State, s: Stream, row: string, frames: seq<Delta>) {
    Accepts(state, s) && HearsRow(state.nodes, s, row, frames)
  }

  // Writing over the row it found leaves a lookup finding the same row.
  lemma SameRow(nodes: seq<Node>, s: Stream, m: Message)
    requires var p := RowIndex(nodes, s);
             p >= 0 && nodes[p].body.Assistant?
    requires m.live.attempt.Some?
    requires s.turn.Some? ==> m.turn == s.turn
    requires s.step.Some? ==> m.step == s.step
    ensures var p := RowIndex(nodes, s);
            RowIndex(nodes[p := Node(nodes[p].id, Assistant(m))], s) == p
  {
    var p := RowIndex(nodes, s);
    var after := nodes[p := Node(nodes[p].id, Assistant(m))];
    var exact := LastIndex(nodes, Conversation(s.messageId, true));
    if exact >= 0 {
      LastIndexIs(after, Conversation(s.messageId, true), p);
    } else {
      LastIndexIs(after, Conversation(s.messageId, true), -1);
      LastIndexIs(after, OpenAt(s.turn.value, s.step.value), p);
    }
  }

  lemma AppendedRow(nodes: seq<Node>, s: Stream, m: Message)
    requires m.live.attempt.Some?
    ensures RowIndex(nodes + [Node(s.messageId, Assistant(m))], s) == |nodes|
  {
    LastIndexIs(nodes + [Node(s.messageId, Assistant(m))], Conversation(s.messageId, true), |nodes|);
  }

  lemma PlacesFrame(nodes: seq<Node>, start: Option<nat>, turns: Turns, s: Stream, d: Delta)
    requires !TurnIsClosed(turns, s.turn) && FrameOf(s, d) && d.delta != ""
    ensures var timing := NoteFirstToken(turns.timings, d.turn, d.step, d.time);
            var p := RowIndex(nodes, s);
            PlaceDelta(nodes, start, turns, d).nodes
            == if p < 0 then nodes + [Node(s.messageId, Assistant(NewRow(d, timing, false)))]
               else if nodes[p].body.Assistant? then
                 nodes[p := Node(nodes[p].id, Assistant(MessageAfter(nodes[p].body.message, d, timing, false)))]
               else nodes[p := ExtendedRow(nodes[p], d, timing, false)]
  {
  }

  lemma FrameReduces(state: State, s: Stream, input: Input)
    requires Accepts(state, s) && Delivers(s, input)
    ensures var d := input.event.delta;
            var kept := Retained(state.nodes, input.event);
            var next := Reduce(state, input);
            && Accepts(next, s)
            && next.nodes == if d.delta == "" then state.nodes
                             else PlaceDelta(kept, FirstRetired(state.nodes, input.event), state.turns, d).nodes
  {
  }

  // A frame that says something lands in the row the stream already has.
  lemma FrameLands(nodes: seq<Node>, turns: Turns, start: Option<nat>, s: Stream, row: string, frames: seq<Delta>,
                   d: Delta)
    requires !TurnIsClosed(turns, s.turn) && FrameOf(s, d) && d.delta != ""
    requires HearsRow(nodes, s, row, frames)
    ensures HearsRow(PlaceDelta(nodes, start, turns, d).nodes, s, row, frames + [d])
  {
    var p := RowIndex(nodes, s);
    var timing := NoteFirstToken(turns.timings, d.turn, d.step, d.time);
    PlacesFrame(nodes, start, turns, s, d);
    HearsFrame(nodes[p].body.message, s, frames, d, timing, false);
    RowStays(nodes, s, d, timing);
  }

  // A row that speaks as before has heard the same.
  lemma HeardBefore(nodes: seq<Node>, after: seq<Node>, s: Stream, row: string, frames: seq<Delta>)
    requires HearsRow(nodes, s, row, frames)
    requires RowHolds(after, s, row, SpeechOf(nodes[RowIndex(nodes, s)].body.message))
    ensures HearsRow(after, s, row, frames)
  {
  }

  lemma FollowsFrame(state: State, s: Stream, row: string, frames: seq<Delta>, input: Input)
    requires Follows(state, s, row, frames) && Delivers(s, input)
    ensures Follows(Reduce(state, input), s, row, frames + [input.event.delta])
  {
    var d := input.event.delta;
    FrameReduces(state, s, input);
    if d.delta == "" {
      assert (frames + [d])[..|frames + [d]| - 1] == frames;
      SilentFrame(LastRun(frames), d);
    } else {
      var kept, first := Retained(state.nodes, input.event), FirstRetired(state.nodes, input.event);
      RetainedAside(state.nodes, input.event, s, row, SpeechOf(state.nodes[RowIndex(state.nodes, s)].body.message));
      HeardBefore(state.nodes, kept, s, row, frames);
      FrameLands(kept, state.turns, first, s, row, frames, d);
    }
  }

  lemma FollowsAside(state: State, s: Stream, row: string, frames: seq<Delta>, input: Input)
    requires Follows(state, s, row, frames) && Aside(s, row, input)
    ensures Follows(Reduce(state, input), s, row, frames)
  {
    AsideKeepsRow(state, input, s, row, SpeechOf(state.nodes[RowIndex(state.nodes, s)].body.message));
    HeardBefore(state.nodes, Reduce(state, input).nodes, s, row, frames);
  }

  lemma RowStays(nodes: seq<Node>, s: Stream, d: Delta, timing: Option<Timing>)
    requires FrameOf(s, d)
    requires var p := RowIndex(nodes, s);
             p >= 0 && nodes[p].body.Assistant? && nodes[p].body.message.live.attempt == Some(s.attempt)
    ensures var p := RowIndex(nodes, s);
            RowIndex(nodes[p := Node(nodes[p].id, Assistant(MessageAfter(nodes[p].body.message, d, timing, false)))], s)
              == p
  {
    var p := RowIndex(nodes, s);
    var m := nodes[p].body.message;
    if IsRepeated(d, m.live) {
      assert nodes[p := Node(nodes[p].id, Assistant(m))] == nodes;
    } else {
      SameRow(nodes, s, MessageAfter(m, d, timing, false));
    }
  }

  lemma SilentFrame(run: seq<Delta>, d: Delta)
    requires d.transient.index.Some? && d.delta == ""
    ensures NewFrames(run + [d]) == NewFrames(run) && Highest(run + [d]) == Highest(run)
  {
    assert (run + [d])[..|run + [d]| - 1] == run;
  }

  // The first frame finds no row, or a row fed by some live stream, which it starts over.
  predicate Starts(state: State, s: Stream, input: Input) {
    && Accepts(state, s) && Delivers(s, input) && IsBaseline(input.event.delta)
    && var rows := Retained(state.nodes, input.event);
       var p := RowIndex(rows, s);
       p < 0 || (rows[p].body.Assistant? && Replaces(input.event.delta, rows[p].body.message.live))
  }

  // The id of the row the first frame goes to.
  function RowOf(state: State, s: Stream, input: Input): string {
    var rows := Retained(state.nodes, input.event);
    var p := RowIndex(rows, s);
    if p < 0 then s.messageId else rows[p].id
  }

  lemma FirstRow(kept: seq<Node>, turns: Turns, start: Option<nat>, s: Stream, d: Delta)
    requires !TurnIsClosed(turns, s.turn) && FrameOf(s, d) && IsBaseline(d)
    requires var p := RowIndex(kept, s);
             p < 0 || (kept[p].body.Assistant? && Replaces(d, kept[p].body.message.live))
    ensures var nodes := PlaceDelta(kept, start, turns, d).nodes;
            HearsRow(nodes, s, if RowIndex(kept, s) < 0 then s.messageId else kept[RowIndex(kept, s)].id, [d])
  {
    assert LastRun([d]) == [d];
    var p := RowIndex(kept, s);
    var timing := NoteFirstToken(turns.timings, d.turn, d.step, d.time);
    PlacesFrame(kept, start, turns, s, d);
    if p < 0 {
      FreshRow(s, d, timing, false);
      AppendedRow(kept, s, NewRow(d, timing, false));
    } else {
      var m := kept[p].body.message;
      StartedOver(m, s, d, timing, false);
      SameRow(kept, s, ExtendedMessage(m, d, timing, false));
    }
  }

  lemma FollowsFirst(state: State, s: Stream, input: Input)
    requires Starts(state, s, input)
    ensures Follows(Reduce(state, input), s, RowOf(state, s, input), [input.event.delta])
  {
    FrameReduces(state, s, input);
    FirstRow(Retained(state.nodes, input.event), state.turns, FirstRetired(state.nodes, input.event), s,
             input.event.delta);
  }

  // The frames of the stream among the events of a session.
  function Frames(s: Stream, inputs: seq<Input>): seq<Delta> {
    if inputs == [] then []
    else
      var last := inputs[|inputs| - 1];
      Frames(s, inputs[..|inputs| - 1]) + if Delivers(s, last) then [last.event.delta] else []
  }

  lemma AnotherInput(state: State, s: Stream, row: string, past: seq<Input>, input: Input)
    requires Follows(state, s, row, Frames(s, past)) && (Delivers(s, input) || Aside(s, row, input))
    ensures Follows(Reduce(state, input), s, row, Frames(s, past + [input]))
  {
    assert (past + [input])[..|past + [input]| - 1] == past;
    if Delivers(s, input) {
      FollowsFrame(state, s, row, Frames(s, past), input);
    } else {
      assert Frames(s, past) + [] == Frames(s, past);
      FollowsAside(state, s, row, Frames(s, past), input);
    }
  }

  // The main result: with any events aside between its frames, the row says exactly what the last subscription said.
  lemma RowSaysLastRun(state: State, s: Stream, inputs: seq<Input>)
    requires inputs != [] && Starts(state, s, inputs[0])
    requires forall i :: 0 <= i < |inputs| ==> Delivers(s, inputs[i]) || Aside(s, RowOf(state, s, inputs[0]), inputs[i])
    ensures var nodes := ReduceAll(state, inputs).nodes;
            var said := NewFrames(LastRun(Frames(s, inputs)));
            var p := RowIndex(nodes, s);
            && p >= 0 && nodes[p].body.Assistant? && nodes[p].id == RowOf(state, s, inputs[0])
            && nodes[p].body.message.markdown == Spoken(said, Text)
            && ReasoningText(nodes[p].body.message.reasoning) == Spoken(said, Thinking)
  {
    var row := RowOf(state, s, inputs[0]);
    var follows := (t: State, past: seq<Input>) => Follows(t, s, row, Frames(s, past));
    var accepts := (input: Input) => Delivers(s, input) || Aside(s, row, input);
    FirstFollows(state, s, inputs);
    forall t: State, past: seq<Input>, input: Input | follows(t, past) && accepts(input)
      ensures follows(Reduce(t, input), past + [input])
    {
      AnotherInput(t, s, row, past, input);
    }
    RunKeeps(Reduce, follows, accepts, state, inputs, 1);
  }

  lemma FirstFollows(state: State, s: Stream, inputs: seq<Input>)
    requires inputs != [] && Starts(state, s, inputs[0])
    ensures Follows(Run(Reduce, state, inputs[..1]), s, RowOf(state, s, inputs[0]), Frames(s, inputs[..1]))
  {
    FollowsFirst(state, s, inputs[0]);
    assert inputs[..1][..0] == [];
    assert Run(Reduce, state, []) == state;
  }
}
