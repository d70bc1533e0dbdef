/**
 What a provider round holds, told by the stream's events alone (internal/agent/engine.go).
 */
module RoundLaws {
  import opened Prelude
  import opened ToolBatches
  import opened ProviderRound

  /** What a message says, piece by piece: characters of text, characters of thinking, and calls. */
  datatype Atom = TextChar(c: char) | ThinkingChar(c: char) | Calling(id: string, name: string)

  function Chars(text: string, thinking: bool): seq<Atom> {
    seq(|text|, i requires 0 <= i < |text| => if thinking then ThinkingChar(text[i]) else TextChar(text[i]))
  }

  function SaidBy(event: StreamEvent): seq<Atom> {
    match event
    case TextDelta(text) => Chars(text, false)
    case ThinkingDelta(text) => Chars(text, true)
    case ToolCallStart(id, name, _) => [Calling(id, name)]
    case _ => []
  }

  function Said(events: seq<StreamEvent>): seq<Atom> {
    if events == [] then [] else Said(events[..|events| - 1]) + SaidBy(events[|events| - 1])
  }

  function ShownBy(block: Block): seq<Atom> {
    match block
    case Text(text) => Chars(text, false)
    case Thinking(text) => Chars(text, true)
    case CallBlock(call) => [Calling(call.id, call.name)]
    case ResultBlock(_) => []
  }

  function Shown(content: seq<Block>): seq<Atom> {
    if content == [] then [] else Shown(content[..|content| - 1]) + ShownBy(content[|content| - 1])
  }

  lemma ShownSnoc(content: seq<Block>, block: Block)
    ensures Shown(content + [block]) == Shown(content) + ShownBy(block)
  {
    assert (content + [block])[..|content|] == content;
  }

  lemma CharsJoin(a: string, b: string, thinking: bool)
    ensures Chars(a + b, thinking) == Chars(a, thinking) + Chars(b, thinking)
  {
  }

  predicate NamedAs(calls: seq<Call>, id: string, name: string) {
    FindCall(calls, id).id == id && FindCall(calls, id).name == name
  }

  /** A list of calls holds, for every start, a call of its id and name. */
  predicate Named(events: seq<StreamEvent>, calls: seq<Call>) {
    forall i :: 0 <= i < |events| && events[i].ToolCallStart? ==> NamedAs(calls, events[i].id, events[i].name)
  }

  /** One more delta is said at the end of what the finished drafts show. */
  lemma DeltaShown(drafts: seq<Draft>, thinking: bool, text: string, calls: seq<Call>)
    ensures Shown(Finish(AppendDelta(drafts, thinking, text), calls)) ==
      Shown(Finish(drafts, calls)) + Chars(text, thinking)
  {
    hide Chars, Shown, FindCall;
    var n, next := |drafts|, AppendDelta(drafts, thinking, text);
    var content, longer := Finish(drafts, calls), Finish(next, calls);
    if |next| == n {
      var before := content[..n - 1];
      assert content == before + [content[n - 1]];
      assert longer == before + [longer[n - 1]];
      ShownSnoc(before, content[n - 1]);
      ShownSnoc(before, longer[n - 1]);
      CharsJoin(drafts[n - 1].text, text, thinking);
    } else {
      assert longer == content + [longer[n]];
      ShownSnoc(content, longer[n]);
    }
  }

  lemma StartShown(drafts: seq<Draft>, id: string, name: string, calls: seq<Call>)
    requires NamedAs(calls, id, name)
    ensures Shown(Finish(drafts + [CallMark(id)], calls)) == Shown(Finish(drafts, calls)) + [Calling(id, name)]
  {
    hide Chars, Shown, FindCall;
    var content, longer := Finish(drafts, calls), Finish(drafts + [CallMark(id)], calls);
    assert longer == content + [CallBlock(FindCall(calls, id))];
    ShownSnoc(content, CallBlock(FindCall(calls, id)));
  }

  lemma StepShown(drafts: seq<Draft>, event: StreamEvent, calls: seq<Call>)
    requires event.ToolCallStart? ==> NamedAs(calls, event.id, event.name)
    ensures Shown(Finish(DraftStep(drafts, event), calls)) == Shown(Finish(drafts, calls)) + SaidBy(event)
  {
    hide AppendDelta, Chars, Shown, NamedAs, Finish;
    match event
    case TextDelta(text) => DeltaShown(drafts, false, text, calls);
    case ThinkingDelta(text) => DeltaShown(drafts, true, text, calls);
    case ToolCallStart(id, name, _) => StartShown(drafts, id, name, calls);
    case _ =>
  }

  /** The finished content shows exactly what was said, in the order it was said. */
  lemma {:induction false} ContentShows(events: seq<StreamEvent>, calls: seq<Call>)
    requires Named(events, calls)
    ensures Shown(Finish(Drafts(events), calls)) == Said(events)
  {
    hide DraftStep, NamedAs, SaidBy;
    if events != [] {
      var before, last := events[..|events| - 1], events[|events| - 1];
      assert forall i :: 0 <= i < |before| ==> before[i] == events[i];
      ContentShows(before, calls);
      StepShown(Drafts(before), last, calls);
    }
  }

  predicate StartedBefore(events: seq<StreamEvent>, i: nat, id: string)
    requires i <= |events|
  {
    exists j :: 0 <= j < i && events[j].ToolCallStart? && events[j].id == id
  }

  /** The stream is good up to its completion at n: no end before it, every call with a name and an id of
      its own, and fragments only of calls that have started. */
  predicate Good(events: seq<StreamEvent>, n: nat) {
    && n < |events| && events[n].Completed?
    && forall i :: 0 <= i < n ==>
         && !events[i].Completed? && !events[i].ErrorEvent?
         && (events[i].ToolCallStart? ==>
              events[i].id != "" && events[i].name != "" && !StartedBefore(events, i, events[i].id))
         && (events[i].ArgumentsDelta? ==> StartedBefore(events, i, events[i].id))
  }

  lemma StartedIsBefore(events: seq<StreamEvent>, i: nat, id: string)
    requires i <= |events|
    ensures Started(events[..i], id) <==> StartedBefore(events, i, id)
  {
    if Started(events[..i], id) {
      var j :| 0 <= j < i && events[..i][j].ToolCallStart? && events[..i][j].id == id;
      assert events[j] == events[..i][j];
    }
    if StartedBefore(events, i, id) {
      var j :| 0 <= j < i && events[j].ToolCallStart? && events[j].id == id;
      assert events[..i][j] == events[j];
    }
  }

  lemma GoodIff(events: seq<StreamEvent>, n: nat)
    ensures Good(events, n) <==> StopsAt(events, n) && n < |events| && events[n].Completed?
  {
    if n < |events| && events[n].Completed? {
      forall i: nat | i < n
        ensures Acceptable(events[..n][..i], events[..n][i]) <==>
          && !events[i].Completed? && !events[i].ErrorEvent?
          && (events[i].ToolCallStart? ==>
              events[i].id != "" && events[i].name != "" && !StartedBefore(events, i, events[i].id))
          && (events[i].ArgumentsDelta? ==> StartedBefore(events, i, events[i].id))
      {
        assert events[..n][..i] == events[..i] && events[..n][i] == events[i];
        if events[i].ToolCallStart? || events[i].ArgumentsDelta? {
          StartedIsBefore(events, i, events[i].id);
        }
      }
    }
  }

  /** A call's text: its own fragments joined, or what its start came with when it has none, and an empty
      object where that is nothing. */
  function CallText(events: seq<StreamEvent>, id: string, initial: string): string {
    var fragments := Fragments(events, id);
    var text := if fragments == [] then initial else Join(fragments);
    if text == "" then "{}" else text
  }

  lemma {:induction false} FragmentsAre(events: seq<StreamEvent>, id: string)
    ensures Fragments(events, id) != [] <==> HasDelta(events, id)
  {
    if events != [] {
      FragmentsAre(events[1..], id);
      assert forall i :: 1 <= i < |events| ==> events[i] == events[1..][i - 1];
      if HasDelta(events[1..], id) {
        var i :| 0 <= i < |events[1..]| && events[1..][i].ArgumentsDelta? && events[1..][i].id == id;
        assert events[i + 1].ArgumentsDelta?;
      }
    }
  }

  lemma ArgumentsAre(events: seq<StreamEvent>, start: StreamEvent)
    requires start.ToolCallStart?
    ensures CallOf(events, start) == Call(start.id, start.name, CallText(events, start.id, start.initial))
  {
    hide Fragments, Join, OwnDeltas, HasDelta;
    FragmentsAre(events, start.id);
    OwnFragmentsDecide(events, start.id);
  }

  lemma {:induction false} StartsHold(events: seq<StreamEvent>, i: nat)
    requires i < |events| && events[i].ToolCallStart?
    ensures events[i] in Starts(events)
  {
    if i < |events| - 1 {
      StartsHold(events[..|events| - 1], i);
      assert events[..|events| - 1][i] == events[i];
    }
  }

  lemma CallsKeepIds(events: seq<StreamEvent>)
    ensures |Calls(events)| == |Starts(events)|
    ensures forall k :: 0 <= k < |Starts(events)| ==>
      && Starts(events)[k].ToolCallStart?
      && Calls(events)[k].id == Starts(events)[k].id && Calls(events)[k].name == Starts(events)[k].name
  {
    hide Starts;
    StartsAreCalls(events);
  }

  /** The calls of a good stream are found under their ids. */
  lemma CallsAreNamed(events: seq<StreamEvent>)
    requires Flows(events)
    ensures Named(events, Calls(events))
  {
    hide Starts, CallOf, Flows;
    DistinctCalls(events);
    StartsAreCalls(events);
    forall i | 0 <= i < |events| && events[i].ToolCallStart?
      ensures NamedAs(Calls(events), events[i].id, events[i].name)
    {
      StartsHold(events, i);
      var k :| 0 <= k < |Starts(events)| && Starts(events)[k] == events[i];
      CallsKeepIds(events);
      FindCallAt(Calls(events), k);
    }
  }

  /** The call was started in the stream, and has its own text. */
  ghost predicate FromStart(events: seq<StreamEvent>, call: Call) {
    exists initial :: ToolCallStart(call.id, call.name, initial) in events &&
                      call.arguments == CallText(events, call.id, initial)
  }

  lemma CallStarted(read: seq<StreamEvent>, k: nat)
    requires k < |Calls(read)|
    ensures FromStart(read, Calls(read)[k])
  {
    hide Starts, CallOf, CallText;
    StartsAreCalls(read);
    var start := Starts(read)[k];
    ArgumentsAre(read, start);
    assert Calls(read)[k] == Call(start.id, start.name, CallText(read, start.id, start.initial));
    assert ToolCallStart(start.id, start.name, start.initial) == start;
  }

  lemma MadeOf(events: seq<StreamEvent>, n: nat, round: Round, validJson: string -> bool)
    requires Makes(events, n, round, validJson)
    ensures Flows(events[..n]) && round.calls == Calls(events[..n]) && round.reason == events[n].reason
    ensures round.content == Finish(Drafts(events[..n]), Calls(events[..n]))
  {
  }

  /** The stop is the only one. */
  lemma SameStop(events: seq<StreamEvent>, n: nat, m: nat, round: Round, validJson: string -> bool)
    requires Makes(events, m, round, validJson) && StopsAt(events, n)
    ensures Makes(events, n, round, validJson)
  {
    assert events[..0] == [];
    StopIsAt(events, 0, m);
    StopIsAt(events, 0, n);
  }

  /** A round of a stream: the stream is good up to a completion and the round has its reason; the message
      shows exactly what was said, text, thinking and calls in the order they came; and each call, in the
      order they started, has its own text, which is valid. */
  lemma RoundIsTheStream(events: seq<StreamEvent>, round: Round, validJson: string -> bool, n: nat)
    requires RoundOf(events, validJson) == Some(round) && Good(events, n)
    ensures round.reason == events[n].reason && Shown(round.content) == Said(events[..n])
    ensures CallBlocks(round.content) == round.calls
    ensures forall k :: 0 <= k < |round.calls| ==>
              validJson(round.calls[k].arguments) && FromStart(events[..n], round.calls[k])
  {
    hide Makes, StopsAt, Calls, Starts, CallText, Shown, Said, CallBlocks;
    var read := events[..n];
    GoodIff(events, n);
    RoundOfIff(events, round, validJson);
    var m: nat :| Makes(events, m, round, validJson);
    SameStop(events, n, m, round, validJson);
    RoundCalls(events, n, round, validJson);
    MadeOf(events, n, round, validJson);
    CallsAreNamed(read);
    ContentShows(read, Calls(read));
    forall k | 0 <= k < |round.calls|
      ensures FromStart(read, round.calls[k])
    {
      CallStarted(read, k);
    }
  }

  /** A stream makes a round exactly when it is good up to a completion and all its calls are valid. */
  lemma RoundIff(events: seq<StreamEvent>, validJson: string -> bool)
    ensures RoundOf(events, validJson).Some? <==>
      exists n: nat :: Good(events, n) && AllValid(Calls(events[..n]), validJson)
  {
    hide Calls, AllValid, StopsAt, Content;
    if RoundOf(events, validJson).Some? {
      var n := Stop(events, 0);
      assert events[..0] == [];
      StopStops(events, 0);
      GoodIff(events, n);
    }
    forall n: nat | Good(events, n) && AllValid(Calls(events[..n]), validJson)
      ensures RoundOf(events, validJson).Some?
    {
      GoodIff(events, n);
      assert events[..0] == [];
      StopIsAt(events, 0, n);
    }
  }
}
