/**
 The change hint of a transition: rows before it are promised to be the rows of the base array.
 */
module ChangeHints {
  import opened Filtering
  import opened NodeLookup
  import opened Options
  import opened Reducer
  import opened TimelineNodes
  import opened TurnClosure
  import opened TurnState

  predicate Agree(a: seq<Node>, b: seq<Node>, count: nat) {
    && count <= |a| && count <= |b|
    && forall i :: 0 <= i < count ==> a[i] == b[i]
  }

  // Rows before the hint are untouched, and the hint is no later than the one it started from.
  predicate Honest(before: seq<Node>, start: Option<nat>, r: Arranged) {
    r.start.Some? ==>
      && Agree(before, r.nodes, r.start.value)
      && (start.Some? ==> r.start.value <= start.value)
  }

  lemma UserHint(nodes: seq<Node>, start: Option<nat>, messageId: string, user: UserBody)
    requires start.Some? ==> start.value <= |nodes|
    ensures Honest(nodes, start, PlaceUser(nodes, start, messageId, user))
    ensures PlaceUser(nodes, start, messageId, user).start.Some?
  {
  }

  lemma DeltaHint(nodes: seq<Node>, start: Option<nat>, turns: Turns, d: Delta)
    requires start.Some? ==> start.value <= |nodes|
    ensures Honest(nodes, start, PlaceDelta(nodes, start, turns, d))
  {
  }

  lemma CompletionHint(nodes: seq<Node>, start: Option<nat>, turns: Turns, c: Completion, input: Input)
    requires start.Some? ==> start.value <= |nodes|
    ensures Honest(nodes, start, PlaceCompletion(nodes, start, turns, c, input))
  {
  }

  lemma RetiredAgree(nodes: seq<Node>, event: Event)
    ensures var first := FirstRetired(nodes, event);
            && (first.Some? ==> Agree(nodes, Retained(nodes, event), first.value))
            && (first.None? ==> Retained(nodes, event) == nodes)
  {
    KeptPrefix(nodes, RetiredBy(event));
    var first := FirstRetired(nodes, event);
    if first.Some? {
      var kept := Retained(nodes, event);
      forall i | 0 <= i < first.value ensures nodes[i] == kept[i] {
        assert kept[..first.value][i] == nodes[..first.value][i];
      }
    }
  }

  // For user messages, deltas and completions the hint is right whatever previews were retired and
  // whatever closed turn was reopened for comment.
  lemma HintIsHonest(state: State, input: Input)
    requires !Ignored(state, input) && MayChangeNodes(state, input.event)
    requires input.event.UserMessage? || input.event.MessageDelta? || input.event.MessageCompleted?
    ensures var next := Reduce(state, input);
            && next.changeBase == Some(state.nodes)
            && next.changeStart.Some? && Agree(state.nodes, next.nodes, next.changeStart.value)
  {
    var kept := Retained(state.nodes, input.event);
    var first := FirstRetired(state.nodes, input.event);
    RetiredAgree(state.nodes, input.event);
    match input.event {
      case UserMessage(messageId, user) => UserHint(kept, first, messageId, user);
      case MessageDelta(d) => DeltaHint(kept, first, state.turns, d);
      case MessageCompleted(c) => CompletionHint(kept, first, state.turns, c, input);
    }
  }

  lemma RemovalHint(nodes: seq<Node>, start: Option<nat>, turns: Turns, turn: int, step: int, sequence: int)
    requires start.Some? ==> start.value <= |nodes|
    ensures var r := RemoveAttempt(nodes, start, turns, turn, step, sequence);
            var from := r.start.GetOr(0);
            && from <= |nodes| && (start.Some? ==> from <= start.value)
            && Agree(Unmarked(nodes, turns, Some(turn)), r.nodes, from)
  {
  }
}
