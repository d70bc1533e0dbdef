/**
 Accumulating one provider stream into an assistant message (internal/agent/engine.go). Text and
 thinking runs are merged; the arguments of a tool call arrive in fragments that may be interleaved
 with other calls' fragments. Whether a text is valid JSON is given as a function.
 */
module ProviderRound {
  import opened Prelude
  import opened ToolBatches

  datatype StreamEvent =
    | TextDelta(text: string)
    | ThinkingDelta(text: string)
    | ToolCallStart(id: string, name: string, initial: string)
    | ArgumentsDelta(id: string, delta: string)
    | Completed(reason: string)
    | ErrorEvent
    | OtherEvent

  /** Message content. While a stream is being read a call block only names its call. */
  datatype Block = Text(text: string) | Thinking(text: string) | CallBlock(call: Call) | ResultBlock(result: ToolResult)

  datatype Draft = TextRun(text: string) | ThinkingRun(text: string) | CallMark(id: string)

  datatype Round = Round(content: seq<Block>, calls: seq<Call>, reason: string)

  // ------------------------------------------------------------ what a stream says

  function AppendDelta(drafts: seq<Draft>, thinking: bool, text: string): seq<Draft> {
    var n := |drafts|;
    if n > 0 && !thinking && drafts[n - 1].TextRun? then drafts[n - 1 := TextRun(drafts[n - 1].text + text)]
    else if n > 0 && thinking && drafts[n - 1].ThinkingRun? then drafts[n - 1 := ThinkingRun(drafts[n - 1].text + text)]
    else drafts + [if thinking then ThinkingRun(text) else TextRun(text)]
  }

  function DraftStep(drafts: seq<Draft>, event: StreamEvent): seq<Draft> {
    match event
    case TextDelta(text) => AppendDelta(drafts, false, text)
    case ThinkingDelta(text) => AppendDelta(drafts, true, text)
    case ToolCallStart(id, _, _) => drafts + [CallMark(id)]
    case _ => drafts
  }

  function Drafts(events: seq<StreamEvent>): seq<Draft> {
    if events == [] then []
    else DraftStep(Drafts(events[..|events| - 1]), events[|events| - 1])
  }

  /** The tool call events, in order. */
  function Starts(events: seq<StreamEvent>): seq<StreamEvent> {
    if events == [] then []
    else
      var last := events[|events| - 1];
      Starts(events[..|events| - 1]) + if last.ToolCallStart? then [last] else []
  }

  /** A call's own fragments joined in order, whatever other calls' fragments lie between them. */
  function OwnDeltas(events: seq<StreamEvent>, id: string): string {
    if events == [] then ""
    else
      var last := events[|events| - 1];
      OwnDeltas(events[..|events| - 1], id) + if last.ArgumentsDelta? && last.id == id then last.delta else ""
  }

  predicate HasDelta(events: seq<StreamEvent>, id: string) {
    exists i :: 0 <= i < |events| && events[i].ArgumentsDelta? && events[i].id == id
  }

  predicate Started(events: seq<StreamEvent>, id: string) {
    exists i :: 0 <= i < |events| && events[i].ToolCallStart? && events[i].id == id
  }

  /** The event is acceptable after the given ones. */
  predicate Acceptable(before: seq<StreamEvent>, event: StreamEvent) {
    match event
    case ToolCallStart(id, name, _) => id != "" && name != "" && !Started(before, id)
    case ArgumentsDelta(id, _) => Started(before, id)
    case Completed(_) => false
    case ErrorEvent => false
    case _ => true
  }

  predicate Flows(events: seq<StreamEvent>) {
    forall i :: 0 <= i < |events| ==> Acceptable(events[..i], events[i])
  }

  function Arguments(events: seq<StreamEvent>, start: StreamEvent): string
    requires start.ToolCallStart?
  {
    var text := if HasDelta(events, start.id) then OwnDeltas(events, start.id) else start.initial;
    if text == "" then "{}" else text
  }

  lemma {:induction false} StartsAreCalls(events: seq<StreamEvent>)
    ensures forall k :: 0 <= k < |Starts(events)| ==> Starts(events)[k].ToolCallStart? && Starts(events)[k] in events
  {
    if events != [] {
      StartsAreCalls(events[..|events| - 1]);
    }
  }

  function CallOf(events: seq<StreamEvent>, start: StreamEvent): Call
    requires start.ToolCallStart?
  {
    Call(start.id, start.name, Arguments(events, start))
  }

  function Calls(events: seq<StreamEvent>): seq<Call> {
    StartsAreCalls(events);
    seq(|Starts(events)|, k requires 0 <= k < |Starts(events)| => CallOf(events, Starts(events)[k]))
  }

  /** Where the stream stops being read: at the first completion, error or unacceptable event. */
  predicate StopsAt(events: seq<StreamEvent>, n: nat) {
    && n <= |events|
    && Flows(events[..n])
    && (n < |events| ==> !Acceptable(events[..n], events[n]))
  }

  predicate AllValid(calls: seq<Call>, validJson: string -> bool) {
    forall k :: 0 <= k < |calls| ==> validJson(calls[k].arguments)
  }

  function FindCall(calls: seq<Call>, id: string): Call {
    if calls == [] then Call(id, "", "") else if calls[0].id == id then calls[0] else FindCall(calls[1..], id)
  }

  function FinishOne(draft: Draft, calls: seq<Call>): Block {
    match draft
    case TextRun(text) => Text(text)
    case ThinkingRun(text) => Thinking(text)
    case CallMark(id) => CallBlock(FindCall(calls, id))
  }

  function Finish(drafts: seq<Draft>, calls: seq<Call>): (content: seq<Block>)
    ensures |content| == |drafts|
    ensures forall i :: 0 <= i < |drafts| ==> content[i] == FinishOne(drafts[i], calls)
  {
    if drafts == [] then [] else [FinishOne(drafts[0], calls)] + Finish(drafts[1..], calls)
  }

  /** The drafts with every call mark replaced by the finished call. */
  function Content(events: seq<StreamEvent>): seq<Block> {
    Finish(Drafts(events), Calls(events))
  }

  /** The stream ends in a completion at n and makes this round. */
  ghost predicate Makes(events: seq<StreamEvent>, n: nat, round: Round, validJson: string -> bool) {
    && StopsAt(events, n) && n < |events| && events[n].Completed?
    && AllValid(Calls(events[..n]), validJson)
    && round == Round(Content(events[..n]), Calls(events[..n]), events[n].reason)
  }

  lemma Snoc(events: seq<StreamEvent>, event: StreamEvent)
    ensures Drafts(events + [event]) == DraftStep(Drafts(events), event)
    ensures Starts(events + [event]) == Starts(events) + if event.ToolCallStart? then [event] else []
  {
    assert (events + [event])[..|events|] == events;
  }

  lemma SnocFlows(events: seq<StreamEvent>, event: StreamEvent)
    ensures Flows(events + [event]) <==> Flows(events) && Acceptable(events, event)
  {
    var all := events + [event];
    assert all[..|events|] == events && all[|events|] == event;
    forall i | 0 <= i < |events|
      ensures all[..i] == events[..i] && all[i] == events[i]
    {
    }
    if Flows(events) && Acceptable(events, event) {
      forall i | 0 <= i < |all|
        ensures Acceptable(all[..i], all[i])
      {
        if i < |events| {
          assert Acceptable(events[..i], events[i]);
        }
      }
    }
    if Flows(all) {
      assert Acceptable(all[..|events|], all[|events|]);
      forall i | 0 <= i < |events|
        ensures Acceptable(events[..i], events[i])
      {
        assert Acceptable(all[..i], all[i]);
      }
    }
  }

  lemma SnocDeltas(events: seq<StreamEvent>, event: StreamEvent, id: string)
    ensures OwnDeltas(events + [event], id) ==
      OwnDeltas(events, id) + if event.ArgumentsDelta? && event.id == id then event.delta else ""
    ensures HasDelta(events + [event], id) <==> HasDelta(events, id) || (event.ArgumentsDelta? && event.id == id)
    ensures Started(events + [event], id) <==> Started(events, id) || (event.ToolCallStart? && event.id == id)
  {
    var all := events + [event];
    assert all[..|events|] == events;
    assert forall i :: 0 <= i < |events| ==> all[i] == events[i];
    assert all[|events|] == event;
  }

  // ------------------------------------------------------------ what a round keeps

  lemma FlowsBefore(events: seq<StreamEvent>, n: nat, m: nat)
    ensures n < m <= |events| && Flows(events[..m]) ==> Acceptable(events[..n], events[n])
  {
    if n < m <= |events| && Flows(events[..m]) {
      assert events[..m][..n] == events[..n] && events[..m][n] == events[n];
    }
  }

  function TextOf(events: seq<StreamEvent>, thinking: bool): string {
    if events == [] then ""
    else
      var last := events[|events| - 1];
      TextOf(events[..|events| - 1], thinking) +
      if !thinking && last.TextDelta? then last.text else if thinking && last.ThinkingDelta? then last.text else ""
  }

  function DraftText(drafts: seq<Draft>, thinking: bool): string {
    if drafts == [] then ""
    else
      var last := drafts[|drafts| - 1];
      DraftText(drafts[..|drafts| - 1], thinking) +
      if !thinking && last.TextRun? then last.text else if thinking && last.ThinkingRun? then last.text else ""
  }

  function RunText(draft: Draft, thinking: bool): string {
    if !thinking && draft.TextRun? then draft.text else if thinking && draft.ThinkingRun? then draft.text else ""
  }

  lemma DraftTextSnoc(drafts: seq<Draft>, last: Draft, thinking: bool)
    ensures DraftText(drafts + [last], thinking) == DraftText(drafts, thinking) + RunText(last, thinking)
  {
    assert (drafts + [last])[..|drafts|] == drafts;
  }

  lemma AppendDeltaKeepsText(drafts: seq<Draft>, thinking: bool, text: string)
    ensures DraftText(AppendDelta(drafts, thinking, text), thinking) == DraftText(drafts, thinking) + text
    ensures DraftText(AppendDelta(drafts, thinking, text), !thinking) == DraftText(drafts, !thinking)
  {
    hide DraftText;
    var n := |drafts|;
    var appended := AppendDelta(drafts, thinking, text);
    if |appended| == n {
      assert appended == drafts[..n - 1] + [appended[n - 1]] && drafts == drafts[..n - 1] + [drafts[n - 1]];
      DraftTextSnoc(drafts[..n - 1], appended[n - 1], thinking);
      DraftTextSnoc(drafts[..n - 1], appended[n - 1], !thinking);
      DraftTextSnoc(drafts[..n - 1], drafts[n - 1], thinking);
      DraftTextSnoc(drafts[..n - 1], drafts[n - 1], !thinking);
    } else {
      DraftTextSnoc(drafts, appended[n], thinking);
      DraftTextSnoc(drafts, appended[n], !thinking);
    }
  }

  /** Merging runs loses and reorders nothing: all text, and all thinking, is what was streamed. */
  lemma {:induction false} MergingKeepsText(events: seq<StreamEvent>, thinking: bool)
    ensures DraftText(Drafts(events), thinking) == TextOf(events, thinking)
  {
    if events != [] {
      var before, last := events[..|events| - 1], events[|events| - 1];
      MergingKeepsText(before, thinking);
      match last
      case TextDelta(text) => AppendDeltaKeepsText(Drafts(before), false, text);
      case ThinkingDelta(text) => AppendDeltaKeepsText(Drafts(before), true, text);
      case ToolCallStart(id, _, _) => assert (Drafts(before) + [CallMark(id)])[..|Drafts(before)|] == Drafts(before);
      case _ =>
    }
  }

  /** Neighbouring runs are of different kinds, so merging went as far as it could. */
  ghost predicate Merged(drafts: seq<Draft>) {
    forall i :: 0 < i < |drafts| ==>
      !(drafts[i - 1].TextRun? && drafts[i].TextRun?) && !(drafts[i - 1].ThinkingRun? && drafts[i].ThinkingRun?)
  }

  lemma {:induction false} RunsAreMerged(events: seq<StreamEvent>)
    ensures Merged(Drafts(events))
  {
    if events != [] {
      RunsAreMerged(events[..|events| - 1]);
    }
  }

  lemma {:induction false} DistinctCalls(events: seq<StreamEvent>)
    requires Flows(events)
    ensures var starts := Starts(events);
      && (forall k :: 0 <= k < |starts| ==>
          starts[k].ToolCallStart? && starts[k].id != "" && Started(events, starts[k].id))
      && (forall j, k :: 0 <= j < k < |starts| ==> starts[j].id != starts[k].id)
  {
    if events != [] {
      var before, last := events[..|events| - 1], events[|events| - 1];
      assert events == before + [last];
      Snoc(before, last);
      SnocFlows(before, last);
      DistinctCalls(before);
      StartsAreCalls(events);
      forall k | 0 <= k < |Starts(events)|
        ensures Started(events, Starts(events)[k].id)
      {
        SnocDeltas(before, last, Starts(events)[k].id);
      }
    }
  }

  function CallBlocks(content: seq<Block>): seq<Call> {
    if content == [] then []
    else
      var last := content[|content| - 1];
      CallBlocks(content[..|content| - 1]) + if last.CallBlock? then [last.call] else []
  }

  function Marks(drafts: seq<Draft>): seq<string> {
    if drafts == [] then []
    else
      var last := drafts[|drafts| - 1];
      Marks(drafts[..|drafts| - 1]) + if last.CallMark? then [last.id] else []
  }

  lemma MarksStep(drafts: seq<Draft>, event: StreamEvent)
    ensures Marks(DraftStep(drafts, event)) == Marks(drafts) + if event.ToolCallStart? then [event.id] else []
  {
    var next := DraftStep(drafts, event);
    if |next| == |drafts| {
      if next != [] {
        assert next[..|next| - 1] == drafts[..|next| - 1];
      }
    } else {
      assert next[..|drafts|] == drafts;
    }
  }

  lemma {:induction false} MarksAreStarts(events: seq<StreamEvent>)
    ensures |Marks(Drafts(events))| == |Starts(events)|
    ensures forall k :: 0 <= k < |Starts(events)| ==>
      Starts(events)[k].ToolCallStart? && Marks(Drafts(events))[k] == Starts(events)[k].id
  {
    if events != [] {
      MarksAreStarts(events[..|events| - 1]);
      MarksStep(Drafts(events[..|events| - 1]), events[|events| - 1]);
    }
  }

  lemma {:induction false} FinishedMarks(drafts: seq<Draft>, calls: seq<Call>)
    ensures |CallBlocks(Finish(drafts, calls))| == |Marks(drafts)|
    ensures forall k :: 0 <= k < |Marks(drafts)| ==>
        CallBlocks(Finish(drafts, calls))[k] == FindCall(calls, Marks(drafts)[k])
  {
    if drafts != [] {
      var n := |drafts| - 1;
      FinishedMarks(drafts[..n], calls);
      assert Finish(drafts, calls)[..n] == Finish(drafts[..n], calls);
    }
  }

  lemma {:induction false} FindCallAt(calls: seq<Call>, k: nat)
    requires k < |calls| && forall i, j :: 0 <= i < j < |calls| ==> calls[i].id != calls[j].id
    ensures FindCall(calls, calls[k].id) == calls[k]
  {
    if k > 0 {
      FindCallAt(calls[1..], k - 1);
    }
  }

  /** The calls in a round's content are its calls, in order and with distinct non-empty ids, each with
      its own fragments joined in order however the fragments of different calls interleave. */
  lemma RoundCalls(events: seq<StreamEvent>, n: nat, round: Round, validJson: string -> bool)
    requires Makes(events, n, round, validJson)
    ensures CallBlocks(round.content) == round.calls
    ensures forall j, k :: 0 <= j < k < |round.calls| ==> round.calls[j].id != round.calls[k].id
    ensures forall k :: 0 <= k < |round.calls| ==>
      var call := round.calls[k];
      && call.id != ""
      && (HasDelta(events[..n], call.id) && OwnDeltas(events[..n], call.id) != "" ==>
            call.arguments == OwnDeltas(events[..n], call.id))
      && validJson(call.arguments)
  {
    var read := events[..n];
    DistinctCalls(read);
    MarksAreStarts(read);
    FinishedMarks(Drafts(read), round.calls);
    forall k | 0 <= k < |round.calls|
      ensures CallBlocks(round.content)[k] == round.calls[k]
    {
      FindCallAt(round.calls, k);
    }
  }

  /** The fragments of one call, in the order they came. */
  function Fragments(events: seq<StreamEvent>, id: string): seq<string> {
    if events == [] then []
    else if events[0].ArgumentsDelta? && events[0].id == id then [events[0].delta] + Fragments(events[1..], id)
    else Fragments(events[1..], id)
  }

  function Join(fragments: seq<string>): string {
    if fragments == [] then "" else fragments[0] + Join(fragments[1..])
  }

  lemma {:induction false} OwnDeltasFromFront(first: StreamEvent, events: seq<StreamEvent>, id: string)
    ensures OwnDeltas([first] + events, id) ==
      (if first.ArgumentsDelta? && first.id == id then first.delta else "") + OwnDeltas(events, id)
  {
    var all := [first] + events;
    if events == [] {
      assert all[..0] == [];
    } else {
      var n := |events| - 1;
      assert all[..n + 1] == [first] + events[..n];
      OwnDeltasFromFront(first, events[..n], id);
    }
  }

  /** A call's arguments depend on its own fragments alone: any two streams with the same fragments of
      the call in the same order, whatever lies between them, give it the same text. */
  lemma {:induction false} OwnFragmentsDecide(events: seq<StreamEvent>, id: string)
    ensures OwnDeltas(events, id) == Join(Fragments(events, id))
  {
    if events != [] {
      assert events == [events[0]] + events[1..];
      OwnDeltasFromFront(events[0], events[1..], id);
      OwnFragmentsDecide(events[1..], id);
    }
  }

  // ------------------------------------------------------------ reading to the stop

  function Stop(events: seq<StreamEvent>, i: nat): (n: nat)
    requires i <= |events|
    ensures i <= n <= |events|
    decreases |events| - i
  {
    if i == |events| || !Acceptable(events[..i], events[i]) then i else Stop(events, i + 1)
  }

  function RoundOf(events: seq<StreamEvent>, validJson: string -> bool): Option<Round> {
    var n := Stop(events, 0);
    if n < |events| && events[n].Completed? && AllValid(Calls(events[..n]), validJson) then
      Some(Round(Content(events[..n]), Calls(events[..n]), events[n].reason))
    else None
  }

  lemma {:induction false} StopStops(events: seq<StreamEvent>, i: nat)
    requires i <= |events| && Flows(events[..i])
    ensures StopsAt(events, Stop(events, i))
    decreases |events| - i
  {
    if i < |events| && Acceptable(events[..i], events[i]) {
      assert events[..i + 1] == events[..i] + [events[i]];
      SnocFlows(events[..i], events[i]);
      StopStops(events, i + 1);
    }
  }

  lemma {:induction false} StopIsAt(events: seq<StreamEvent>, i: nat, n: nat)
    requires i <= n && StopsAt(events, n)
    ensures Stop(events, i) == n
    decreases n - i
  {
    if i < n {
      FlowsBefore(events, i, n);
      StopIsAt(events, i + 1, n);
    }
  }

  /** A stream makes a round exactly when it flows up to a completion with valid arguments. */
  lemma RoundOfIff(events: seq<StreamEvent>, round: Round, validJson: string -> bool)
    ensures RoundOf(events, validJson) == Some(round) <==> exists n: nat :: Makes(events, n, round, validJson)
  {
    assert events[..0] == [];
    StopStops(events, 0);
    if RoundOf(events, validJson) == Some(round) {
      assert Makes(events, Stop(events, 0), round, validJson);
    }
    forall n: nat | Makes(events, n, round, validJson)
      ensures RoundOf(events, validJson) == Some(round)
    {
      StopIsAt(events, 0, n);
    }
  }
}
