/**
 The agent's turn loop (internal/agent/engine.go) without a compactor and without cancellation: read
 a provider round, append the assistant message, run its tool calls, append their results, repeat.
 */
module Engine {
  import opened Prelude
  import opened ToolBatches
  import opened ProviderRound
  import opened ToolResults

  datatype Role = User | Assistant | Tool

  datatype Message = Message(role: Role, content: seq<Block>)

  datatype Provider = CannotStart | Stream(events: seq<StreamEvent>)

  /** What the engine is given. What the provider answers, and whether the context can be built,
      depends on the messages of the request. */
  datatype Options = Options(maxTurns: int, hasProvider: bool, provider: seq<Message> -> Provider,
      builds: seq<Message> -> bool,
                             tools: Tools, validJson: string -> bool)

  datatype Ending = NoProvider | ContextFailed | StreamFailed | Done(reason: string) | MaxTurns

  datatype TurnResult = TurnResult(history: seq<Message>, world: World, ending: Ending, rounds: nat)

  type Executor = (World, seq<Call>) -> (World, seq<ToolResult>)

  function Limit(maxTurns: int): nat {
    if maxTurns <= 0 then 1 else maxTurns
  }

  function ResultBlocks(results: seq<ToolResult>): seq<Block> {
    seq(|results|, k requires 0 <= k < |results| => ResultBlock(results[k]))
  }

  /** What one round leaves: the turn goes on when there is no ending. */
  datatype Step = Step(history: seq<Message>, world: World, ending: Option<Ending>)

  function PlayOne(o: Options, ex: Executor, h: seq<Message>, w: World): Step {
    if !o.builds(h) then Step(h, w, Some(ContextFailed))
    else match o.provider(h)
      case CannotStart => Step(h, w, Some(StreamFailed))
      case Stream(events) =>
        match RoundOf(events, o.validJson)
        case None => Step(h, w, Some(StreamFailed))
        case Some(round) =>
          var said := h + [Message(Assistant, round.content)];
          if round.calls == [] then Step(said, w, Some(Done(round.reason)))
          else
            var (after, results) := ex(w, round.calls);
            Step(said + [Message(Tool, ResultBlocks(results))], after, None)
  }

  /** The rounds from the given one on. */
  function Rounds(o: Options, ex: Executor, h: seq<Message>, w: World, turn: nat, limit: nat): TurnResult
    requires 1 <= turn <= limit
    decreases limit - turn
  {
    var step := PlayOne(o, ex, h, w);
    match step.ending
    case Some(ending) => TurnResult(step.history, step.world, ending, if ending == ContextFailed then turn - 1
        else turn)
    case None =>
      if turn == limit then TurnResult(step.history, step.world, MaxTurns, turn)
      else Rounds(o, ex, step.history, step.world, turn + 1, limit)
  }

  function Turn(o: Options, ex: Executor, h: seq<Message>, w: World, content: seq<Block>): TurnResult {
    var asked := h + [Message(User, content)];
    if !o.hasProvider then TurnResult(asked, w, NoProvider, 0)
    else Rounds(o, ex, asked, w, 1, Limit(o.maxTurns))
  }

  // ------------------------------------------------------------ the history stays well formed

  predicate HasCalls(m: Message) {
    m.role == Assistant && CallBlocks(m.content) != []
  }

  /** The i-th result answers the i-th call. */
  predicate Answers(answer: Message, m: Message) {
    && answer.role == Tool
    && |answer.content| == |CallBlocks(m.content)|
    && forall k :: 0 <= k < |answer.content| ==>
         answer.content[k].ResultBlock? && answer.content[k].result.callId == CallBlocks(m.content)[k].id
  }

  /** Every assistant message with calls is followed by its answers, and answers stand nowhere else. */
  ghost predicate Paired(h: seq<Message>) {
    && (forall i :: 0 <= i < |h| && HasCalls(h[i]) ==> i + 1 < |h| && Answers(h[i + 1], h[i]))
    && (forall i :: 0 <= i < |h| && h[i].role == Tool ==> i > 0 && HasCalls(h[i - 1]) && Answers(h[i], h[i - 1]))
  }

  lemma AppendPlain(h: seq<Message>, m: Message)
    requires Paired(h) && m.role != Tool && !HasCalls(m)
    ensures Paired(h + [m])
  {
    var next := h + [m];
    forall i | 0 <= i < |next| && HasCalls(next[i])
      ensures i + 1 < |next| && Answers(next[i + 1], next[i])
    {
      assert next[i] == h[i];
    }
    forall i | 0 <= i < |next| && next[i].role == Tool
      ensures i > 0 && HasCalls(next[i - 1]) && Answers(next[i], next[i - 1])
    {
      assert next[i] == h[i];
    }
  }

  lemma AppendPair(h: seq<Message>, m: Message, answer: Message)
    requires Paired(h) && HasCalls(m) && Answers(answer, m)
    ensures Paired(h + [m] + [answer])
  {
    var next := h + [m] + [answer];
    assert next[|h|] == m && next[|h| + 1] == answer;
    forall i | 0 <= i < |next| && HasCalls(next[i])
      ensures i + 1 < |next| && Answers(next[i + 1], next[i])
    {
      if i < |h| {
        assert next[i] == h[i] && next[i + 1] == h[i + 1];
      }
    }
    forall i | 0 <= i < |next| && next[i].role == Tool
      ensures i > 0 && HasCalls(next[i - 1]) && Answers(next[i], next[i - 1])
    {
      if i < |h| {
        assert next[i] == h[i] && next[i - 1] == h[i - 1];
      }
    }
  }

  ghost predicate Matching(results: seq<ToolResult>, calls: seq<Call>) {
    |results| == |calls| && forall k :: 0 <= k < |calls| ==> results[k].callId == calls[k].id
  }

  /** An executor that gives one result per call, carrying that call's id: any schedule of the batches
      is one. */
  ghost predicate Faithful(ex: Executor) {
    forall w, calls :: Matching(ex(w, calls).1, calls)
  }

  lemma RoundShape(o: Options, events: seq<StreamEvent>)
    requires RoundOf(events, o.validJson).Some?
    ensures var round := RoundOf(events, o.validJson).value; CallBlocks(round.content) == round.calls
  {
    var round := RoundOf(events, o.validJson).value;
    RoundOfIff(events, round, o.validJson);
    var n: nat :| Makes(events, n, round, o.validJson);
    RoundCalls(events, n, round, o.validJson);
  }

  lemma OneRound(o: Options, events: seq<StreamEvent>, h: seq<Message>, results: seq<ToolResult>)
    requires Paired(h) && RoundOf(events, o.validJson).Some?
    requires Matching(results, RoundOf(events, o.validJson).value.calls)
    ensures var round := RoundOf(events, o.validJson).value;
      var said := h + [Message(Assistant, round.content)];
      if round.calls == [] then Paired(said) else Paired(said + [Message(Tool, ResultBlocks(results))])
  {
    var round := RoundOf(events, o.validJson).value;
    RoundShape(o, events);
    var m := Message(Assistant, round.content);
    if round.calls == [] {
      AppendPlain(h, m);
    } else {
      AppendPair(h, m, Message(Tool, ResultBlocks(results)));
    }
  }

  lemma StepKeepsPairs(o: Options, ex: Executor, h: seq<Message>, w: World)
    requires Paired(h) && Faithful(ex)
    ensures h <= PlayOne(o, ex, h, w).history && Paired(PlayOne(o, ex, h, w).history)
  {
    if o.builds(h) && o.provider(h).Stream? && RoundOf(o.provider(h).events, o.validJson).Some? {
      var round := RoundOf(o.provider(h).events, o.validJson).value;
      OneRound(o, o.provider(h).events, h, ex(w, round.calls).1);
    }
  }

  /** Extending h, well formed. */
  ghost predicate Keeps(h: seq<Message>, r: TurnResult) {
    h <= r.history && Paired(r.history)
  }

  lemma {:induction false} RoundsKeepPairs(o: Options, ex: Executor, h: seq<Message>, w: World, turn: nat, limit: nat)
    requires 1 <= turn <= limit && Paired(h) && Faithful(ex)
    ensures Keeps(h, Rounds(o, ex, h, w, turn, limit))
    decreases limit - turn
  {
    StepKeepsPairs(o, ex, h, w);
    var step := PlayOne(o, ex, h, w);
    if step.ending.None? && turn < limit {
      RoundsKeepPairs(o, ex, step.history, step.world, turn + 1, limit);
    }
  }

  /** Whatever the provider streams, the tools return and the schedule of batches is, a turn only adds
      to the history and leaves every assistant message with tool calls followed by one tool message
      whose i-th result carries the i-th call's id. */
  lemma TurnKeepsPairs(o: Options, ex: Executor, h: seq<Message>, w: World, content: seq<Block>)
    requires Paired(h) && Faithful(ex)
    ensures Keeps(h, Turn(o, ex, h, w, content))
  {
    AppendPlain(h, Message(User, content));
    if o.hasProvider {
      RoundsKeepPairs(o, ex, h + [Message(User, content)], w, 1, Limit(o.maxTurns));
    }
  }

  predicate EndsWith(h: seq<Message>, role: Role) {
    h != [] && h[|h| - 1].role == role
  }

  /** A turn cut off by the limit used all its rounds and ends with tool results; a completed one ends
      with an assistant message without calls. */
  ghost predicate EndsRight(r: TurnResult, limit: nat) {
    && r.rounds <= limit
    && (r.ending == MaxTurns ==> r.rounds == limit && EndsWith(r.history, Tool))
    && (r.ending.Done? ==> EndsWith(r.history, Assistant) && !HasCalls(r.history[|r.history| - 1]))
  }

  lemma StepEnds(o: Options, ex: Executor, h: seq<Message>, w: World)
    ensures var step := PlayOne(o, ex, h, w);
      && (step.ending.None? ==> EndsWith(step.history, Tool))
      && (step.ending.Some? && step.ending.value.Done? ==>
            EndsWith(step.history, Assistant) && !HasCalls(step.history[|step.history| - 1]))
      && step.ending != Some(MaxTurns)
  {
    if o.builds(h) && o.provider(h).Stream? && RoundOf(o.provider(h).events, o.validJson).Some? {
      RoundShape(o, o.provider(h).events);
    }
  }

  lemma {:induction false} RoundsAreBounded(o: Options, ex: Executor, h: seq<Message>, w: World, turn: nat, limit: nat)
    requires 1 <= turn <= limit
    ensures EndsRight(Rounds(o, ex, h, w, turn, limit), limit)
    decreases limit - turn
  {
    StepEnds(o, ex, h, w);
    var step := PlayOne(o, ex, h, w);
    if step.ending.None? && turn < limit {
      RoundsAreBounded(o, ex, step.history, step.world, turn + 1, limit);
    }
  }

  /** At most max(1, MaxTurns) provider rounds run, and the turn ends as its ending says. */
  lemma TurnIsBounded(o: Options, ex: Executor, h: seq<Message>, w: World, content: seq<Block>)
    ensures EndsRight(Turn(o, ex, h, w, content), if o.maxTurns > 1 then o.maxTurns else 1)
  {
    if o.hasProvider {
      RoundsAreBounded(o, ex, h + [Message(User, content)], w, 1, Limit(o.maxTurns));
    }
  }

  function OneByOne(t: Tools): Executor {
    (w, calls) => Sequential(t, calls, w)
  }

  // ------------------------------------------------------------ what a turn does, by provider and tools

  /** The round that the provider's answer to these messages makes. */
  function RoundAt(o: Options, h: seq<Message>): Option<Round> {
    if o.provider(h).CannotStart? then None else RoundOf(o.provider(h).events, o.validJson)
  }

  /** One round: without a context or a round it leaves everything alone and fails; a round without calls
      adds the assistant message and completes; a round with calls adds the message and the results that
      running the calls with the tools gave, in the slots of their calls. */
  ghost predicate Played(o: Options, h: seq<Message>, w: World, step: Step) {
    var round := RoundAt(o, h);
    if !o.builds(h) then step == Step(h, w, Some(ContextFailed))
    else if round.None? then step == Step(h, w, Some(StreamFailed))
    else
      var said := Message(Assistant, round.value.content);
      if round.value.calls == [] then step == Step(h + [said], w, Some(Done(round.value.reason)))
      else exists results ::
          && FromTools(o.tools, round.value.calls, w, step.world, results)
          && step.ending.None? && step.history == h + [said, Message(Tool, ResultBlocks(results))]
  }

  /** Rounds one after the other, each from what the one before left, until one ends the turn or the limit
      does. */
  ghost predicate RoundsRun(o: Options, h: seq<Message>, w: World, turn: nat, limit: nat, r: TurnResult)
    requires 1 <= turn <= limit
    decreases limit - turn
  {
    exists step :: Played(o, h, w, step) && GoesOn(o, step, turn, limit, r)
  }

  ghost predicate GoesOn(o: Options, step: Step, turn: nat, limit: nat, r: TurnResult)
    requires 1 <= turn <= limit
    decreases limit - turn, 0
  {
    if step.ending.Some? then
      r == TurnResult(step.history, step.world, step.ending.value,
                      if step.ending.value == ContextFailed then turn - 1 else turn)
    else if turn == limit then r == TurnResult(step.history, step.world, MaxTurns, turn)
    else RoundsRun(o, step.history, step.world, turn + 1, limit, r)
  }

  /** One round, and the rest of the turn. */
  lemma StepRuns(o: Options, h: seq<Message>, w: World, step: Step, turn: nat, limit: nat)
    requires 1 <= turn <= limit && Played(o, h, w, step)
    ensures forall r :: GoesOn(o, step, turn, limit, r) ==> RoundsRun(o, h, w, turn, limit, r)
  {
    hide Played, GoesOn;
  }

  /** An executor whose results come from the tools. */
  ghost predicate Genuine(t: Tools, ex: Executor) {
    forall w, calls :: FromTools(t, calls, w, ex(w, calls).0, ex(w, calls).1)
  }

  lemma PlayOneIsPlayed(o: Options, ex: Executor, h: seq<Message>, w: World)
    requires Genuine(o.tools, ex)
    ensures Played(o, h, w, PlayOne(o, ex, h, w))
  {
    hide FromTools;
    var round := RoundAt(o, h);
    if o.builds(h) && round.Some? && round.value.calls != [] {
      var results := ex(w, round.value.calls).1;
      assert FromTools(o.tools, round.value.calls, w, ex(w, round.value.calls).0, results);
      assert h + [Message(Assistant, round.value.content)] + [Message(Tool, ResultBlocks(results))] ==
             h + [Message(Assistant, round.value.content), Message(Tool, ResultBlocks(results))];
    }
  }

  /** The rounds of a turn are rounds played one after the other. */
  lemma {:induction false} RoundsAreRun(o: Options, ex: Executor, h: seq<Message>, w: World, turn: nat, limit: nat)
    requires Genuine(o.tools, ex) && 1 <= turn <= limit
    ensures RoundsRun(o, h, w, turn, limit, Rounds(o, ex, h, w, turn, limit))
    decreases limit - turn
  {
    hide Played, PlayOne, Genuine;
    var step := PlayOne(o, ex, h, w);
    PlayOneIsPlayed(o, ex, h, w);
    if step.ending.None? && turn < limit {
      RoundsAreRun(o, ex, step.history, step.world, turn + 1, limit);
    }
    assert GoesOn(o, step, turn, limit, Rounds(o, ex, h, w, turn, limit));
  }

  /** The tool message holds what the tools gave for the calls of the message before it. */
  ghost predicate AnsweredByTools(t: Tools, answer: Message, m: Message) {
    exists w, after, results ::
      FromTools(t, CallBlocks(m.content), w, after, results) && answer == Message(Tool, ResultBlocks(results))
  }

  /** From the given place on, every assistant message with calls is followed by what the tools gave. */
  ghost predicate AnsweredFrom(t: Tools, h: seq<Message>, from: nat) {
    forall i :: from <= i < |h| && HasCalls(h[i]) ==> i + 1 < |h| && AnsweredByTools(t, h[i + 1], h[i])
  }

  lemma PlayedAnswers(o: Options, h: seq<Message>, w: World, step: Step)
    requires Played(o, h, w, step)
    ensures h <= step.history && AnsweredFrom(o.tools, step.history, |h|)
  {
    hide FromTools;
    var round := RoundAt(o, h);
    if o.builds(h) && round.Some? {
      RoundShape(o, o.provider(h).events);
      var said := Message(Assistant, round.value.content);
      if round.value.calls == [] {
        assert step.history[|h|] == said;
      } else {
        var results :| FromTools(o.tools, round.value.calls, w, step.world, results) &&
          step.history == h + [said, Message(Tool, ResultBlocks(results))];
        assert step.history[|h|] == said && step.history[|h| + 1] == Message(Tool, ResultBlocks(results));
      }
    }
  }

  lemma AnsweredOn(t: Tools, a: seq<Message>, b: seq<Message>, c: seq<Message>)
    requires a <= b <= c && AnsweredFrom(t, b, |a|) && AnsweredFrom(t, c, |b|)
    ensures AnsweredFrom(t, c, |a|)
  {
    hide AnsweredByTools, HasCalls;
    forall i | |a| <= i < |c| && HasCalls(c[i])
      ensures i + 1 < |c| && AnsweredByTools(t, c[i + 1], c[i])
    {
      if i < |b| {
        assert c[i] == b[i] && AnsweredByTools(t, b[i + 1], b[i]) && c[i + 1] == b[i + 1];
      }
    }
  }

  /** In every turn, whatever the tools do and however their calls are scheduled: each assistant message
      with calls is followed by the message of the results its tools gave, content and error flags. */
  lemma {:induction false} TurnAnswersFromTools(o: Options, h: seq<Message>, w: World, turn: nat, limit: nat,
      r: TurnResult)
    requires 1 <= turn <= limit && RoundsRun(o, h, w, turn, limit, r)
    ensures h <= r.history && AnsweredFrom(o.tools, r.history, |h|)
    decreases limit - turn
  {
    hide Played, AnsweredFrom;
    var step :| Played(o, h, w, step) && GoesOn(o, step, turn, limit, r);
    PlayedAnswers(o, h, w, step);
    if step.ending.None? && turn < limit {
      TurnAnswersFromTools(o, step.history, step.world, turn + 1, limit, r);
      AnsweredOn(o.tools, h, step.history, r.history);
    }
  }

  // ------------------------------------------------------------ reading a stream

  /** One tool call while its stream is read; the message content refers to the same object. */
  class ToolCallState {
    const id: string
    const name: string
    const initial: string
    var arguments: string
    var hasArgument: bool
    var decided: string

    constructor (id: string, name: string, initial: string)
      ensures this.id == id && this.name == name && this.initial == initial && arguments == "" && !hasArgument
    {
      this.id, this.name, this.initial := id, name, initial;
      arguments, hasArgument, decided := "", false, "";
    }
  }

  datatype Piece = TextPiece(text: string) | ThinkingPiece(text: string) | CallPiece(state: ToolCallState)

  function DraftOf(piece: Piece): Draft {
    match piece
    case TextPiece(text) => TextRun(text)
    case ThinkingPiece(text) => ThinkingRun(text)
    case CallPiece(state) => CallMark(state.id)
  }

  ghost predicate Represents(pieces: seq<Piece>, drafts: seq<Draft>) {
    |pieces| == |drafts| && forall i :: 0 <= i < |pieces| ==> DraftOf(pieces[i]) == drafts[i]
  }

  ghost predicate Tracks(state: ToolCallState, read: seq<StreamEvent>)
    reads state
  {
    state.arguments == OwnDeltas(read, state.id) && state.hasArgument == HasDelta(read, state.id)
  }

  ghost predicate Collected(calls: seq<ToolCallState>, byId: map<string, ToolCallState>, pieces: seq<Piece>,
      read: seq<StreamEvent>)
    reads calls
  {
    && |calls| == |Starts(read)|
    && (forall k :: 0 <= k < |calls| ==> Starts(read)[k] == ToolCallStart(calls[k].id, calls[k].name, calls[k].initial))
    && (forall k :: 0 <= k < |calls| ==> calls[k].id in byId && byId[calls[k].id] == calls[k])
    && (forall id :: id in byId ==> byId[id] in calls && byId[id].id == id)
    && (forall k :: 0 <= k < |calls| ==> Tracks(calls[k], read))
    && (forall i :: 0 <= i < |pieces| && pieces[i].CallPiece? ==> pieces[i].state in calls)
    && Represents(pieces, Drafts(read))
  }

  lemma {:induction false} StartedIff(read: seq<StreamEvent>, id: string)
    ensures Started(read, id) <==>
        exists k :: 0 <= k < |Starts(read)| && Starts(read)[k].ToolCallStart? && Starts(read)[k].id == id
  {
    if read != [] {
      var before, last := read[..|read| - 1], read[|read| - 1];
      assert read == before + [last];
      Snoc(before, last);
      SnocDeltas(before, last, id);
      StartedIff(before, id);
      if last.ToolCallStart? {
        assert Starts(read)[|Starts(before)|] == last;
      }
      if Started(before, id) {
        var k :| 0 <= k < |Starts(before)| && Starts(before)[k].ToolCallStart? && Starts(before)[k].id == id;
        assert Starts(read)[k] == Starts(before)[k];
      }
    }
  }

  lemma KnownIff(calls: seq<ToolCallState>, byId: map<string, ToolCallState>, pieces: seq<Piece>,
      read: seq<StreamEvent>, id: string)
    requires Collected(calls, byId, pieces, read)
    ensures id in byId <==> Started(read, id)
  {
    StartedIff(read, id);
    if id in byId {
      var k :| 0 <= k < |calls| && calls[k] == byId[id];
      assert Starts(read)[k] == ToolCallStart(calls[k].id, calls[k].name, calls[k].initial);
    }
    if Started(read, id) {
      var k :| 0 <= k < |Starts(read)| && Starts(read)[k].ToolCallStart? && Starts(read)[k].id == id;
      assert calls[k].id == id;
    }
  }

  method AppendPiece(pieces: seq<Piece>, thinking: bool, text: string) returns (next: seq<Piece>)
    ensures forall drafts :: Represents(pieces, drafts) ==> Represents(next, AppendDelta(drafts, thinking, text))
    ensures forall i :: 0 <= i < |next| && next[i].CallPiece? ==> i < |pieces| && next[i] == pieces[i]
  {
    var n := |pieces|;
    if n > 0 && !thinking && pieces[n - 1].TextPiece? {
      next := pieces[n - 1 := TextPiece(pieces[n - 1].text + text)];
    } else if n > 0 && thinking && pieces[n - 1].ThinkingPiece? {
      next := pieces[n - 1 := ThinkingPiece(pieces[n - 1].text + text)];
    } else {
      next := pieces + [if thinking then ThinkingPiece(text) else TextPiece(text)];
    }
  }

  // ------------------------------------------------------------ one event at a time

  lemma StepOther(calls: seq<ToolCallState>, byId: map<string, ToolCallState>, before: seq<Piece>, after: seq<Piece>,
      read: seq<StreamEvent>, event: StreamEvent)
    requires Collected(calls, byId, before, read) && !event.ToolCallStart? && !event.ArgumentsDelta?
    requires Represents(after, DraftStep(Drafts(read), event))
    requires forall i :: 0 <= i < |after| && after[i].CallPiece? ==> i < |before| && after[i] == before[i]
    ensures Collected(calls, byId, after, read + [event])
  {
    Snoc(read, event);
    forall k | 0 <= k < |calls|
      ensures Tracks(calls[k], read + [event])
    {
      SnocDeltas(read, event, calls[k].id);
    }
  }

  lemma {:induction false} NoDeltaYet(read: seq<StreamEvent>, id: string)
    requires Flows(read) && !Started(read, id)
    ensures !HasDelta(read, id) && OwnDeltas(read, id) == ""
  {
    if read != [] {
      var before, last := read[..|read| - 1], read[|read| - 1];
      assert read == before + [last];
      SnocFlows(before, last);
      SnocDeltas(before, last, id);
      NoDeltaYet(before, id);
    }
  }

  method BeginCall(calls: seq<ToolCallState>, byId: map<string, ToolCallState>, pieces: seq<Piece>, event: StreamEvent,
      ghost read: seq<StreamEvent>)
    returns (calls': seq<ToolCallState>, byId': map<string, ToolCallState>, pieces': seq<Piece>, state: ToolCallState)
    requires Collected(calls, byId, pieces, read) && Flows(read)
    requires event.ToolCallStart? && event.id !in byId
    ensures Collected(calls', byId', pieces', read + [event])
    ensures fresh(state) && calls' == calls + [state]
  {
    hide Drafts, Flows;
    state := new ToolCallState(event.id, event.name, event.initial);
    calls', byId', pieces' := calls + [state], byId[event.id := state], pieces + [CallPiece(state)];
    KnownIff(calls, byId, pieces, read, event.id);
    NoDeltaYet(read, event.id);
    Snoc(read, event);
    forall k | 0 <= k < |calls'|
      ensures Tracks(calls'[k], read + [event])
    {
      SnocDeltas(read, event, calls'[k].id);
    }
  }

  method AddArguments(calls: seq<ToolCallState>, byId: map<string, ToolCallState>, pieces: seq<Piece>,
      event: StreamEvent,
      ghost read: seq<StreamEvent>)
    requires Collected(calls, byId, pieces, read)
    requires event.ArgumentsDelta? && event.id in byId
    modifies calls
    ensures Collected(calls, byId, pieces, read + [event])
  {
    var state := byId[event.id];
    state.hasArgument := true;
    state.arguments := state.arguments + event.delta;
    Snoc(read, event);
    forall k | 0 <= k < |calls|
      ensures Tracks(calls[k], read + [event])
    {
      SnocDeltas(read, event, calls[k].id);
      assert calls[k].id == event.id ==> calls[k] == state;
      assert old(Tracks(calls[k], read));
    }
  }

  lemma CallsAreDistinct(calls: seq<ToolCallState>, byId: map<string, ToolCallState>, pieces: seq<Piece>,
      read: seq<StreamEvent>)
    requires Collected(calls, byId, pieces, read) && Flows(read)
    ensures forall j, k :: 0 <= j < k < |calls| ==> calls[j] != calls[k]
  {
    DistinctCalls(read);
    forall j, k | 0 <= j < k < |calls|
      ensures calls[j].id != calls[k].id
    {
      assert Starts(read)[j].id != Starts(read)[k].id;
    }
  }

  /** What the call would be finished with. */
  function Chosen(state: ToolCallState): string
    reads state
  {
    var text := if state.hasArgument then state.arguments else state.initial;
    if text == "" then "{}" else text
  }

  lemma CallAt(calls: seq<ToolCallState>, byId: map<string, ToolCallState>, pieces: seq<Piece>,
      read: seq<StreamEvent>, j: nat)
    requires Collected(calls, byId, pieces, read) && j < |calls|
    ensures |Calls(read)| == |calls| && Calls(read)[j] == Call(calls[j].id, calls[j].name, Chosen(calls[j]))
  {
    hide Drafts, OwnDeltas, Starts, Represents;
    assert Tracks(calls[j], read);
  }

  /** Finishing a call touches nothing that is collected. */
  method FinishCall(calls: seq<ToolCallState>, byId: map<string, ToolCallState>, pieces: seq<Piece>, j: nat,
      text: string,
      ghost read: seq<StreamEvent>)
    requires Collected(calls, byId, pieces, read) && j < |calls|
    modifies calls[j]
    ensures Collected(calls, byId, pieces, read) && calls[j].decided == text
  {
    hide Drafts, OwnDeltas, Starts, HasDelta;
    var state := calls[j];
    state.decided := text;
    forall k | 0 <= k < |calls|
      ensures Tracks(calls[k], read)
    {
      assert old(Tracks(calls[k], read));
    }
  }

  lemma CountCalls(calls: seq<ToolCallState>, byId: map<string, ToolCallState>, pieces: seq<Piece>,
      read: seq<StreamEvent>)
    requires Collected(calls, byId, pieces, read)
    ensures |Calls(read)| == |calls|
  {
  }

  /** Decides every call's arguments; the first invalid ones fail the round. */
  method DecideArguments(calls: seq<ToolCallState>, byId: map<string, ToolCallState>, pieces: seq<Piece>,
      validJson: string -> bool,
      ghost read: seq<StreamEvent>) returns (ok: bool)
    requires Collected(calls, byId, pieces, read) && Flows(read)
    modifies calls
    ensures Collected(calls, byId, pieces, read)
    ensures ok <==> AllValid(Calls(read), validJson)
    ensures |Calls(read)| == |calls|
    ensures ok ==> forall k :: 0 <= k < |calls| ==> Call(calls[k].id, calls[k].name, calls[k].decided) == Calls(read)[k]
  {
    hide Calls, Collected, Flows;
    CallsAreDistinct(calls, byId, pieces, read);
    CountCalls(calls, byId, pieces, read);
    for j := 0 to |calls|
      invariant Collected(calls, byId, pieces, read)
      invariant forall k :: 0 <= k < j ==> Call(calls[k].id, calls[k].name, calls[k].decided) == Calls(read)[k]
      invariant forall k :: 0 <= k < j ==> validJson(Calls(read)[k].arguments)
    {
      CallAt(calls, byId, pieces, read, j);
      var state := calls[j];
      var arguments := state.initial;
      if state.hasArgument {
        arguments := state.arguments;
      }
      if |arguments| == 0 {
        arguments := "{}";
      }
      if !validJson(arguments) {
        return false;
      }
      FinishCall(calls, byId, pieces, j, arguments, read);
    }
    ok := true;
  }

  lemma DistinctFinished(read: seq<StreamEvent>)
    requires Flows(read)
    ensures forall i, j :: 0 <= i < j < |Calls(read)| ==> Calls(read)[i].id != Calls(read)[j].id
  {
    DistinctCalls(read);
    StartsAreCalls(read);
    forall i, j | 0 <= i < j < |Calls(read)|
      ensures Calls(read)[i].id != Calls(read)[j].id
    {
      assert Starts(read)[i].id != Starts(read)[j].id;
    }
  }

  lemma FindById(calls: seq<Call>, k: nat, id: string)
    requires k < |calls| && calls[k].id == id && forall i, j :: 0 <= i < j < |calls| ==> calls[i].id != calls[j].id
    ensures FindCall(calls, id) == calls[k]
  {
    FindCallAt(calls, k);
  }

  /** The block of one piece: a call block shows what its object holds by now. */
  method FinishPiece(calls: seq<ToolCallState>, piece: Piece, ghost finished: seq<Call>) returns (block: Block)
    requires |finished| == |calls| && forall i, j :: 0 <= i < j < |finished| ==> finished[i].id != finished[j].id
    requires forall k :: 0 <= k < |calls| ==> Call(calls[k].id, calls[k].name, calls[k].decided) == finished[k]
    requires piece.CallPiece? ==> piece.state in calls
    ensures block == FinishOne(DraftOf(piece), finished)
  {
    match piece
    case TextPiece(text) => block := Text(text);
    case ThinkingPiece(text) => block := Thinking(text);
    case CallPiece(state) =>
      block := CallBlock(Call(state.id, state.name, state.decided));
      var k: nat :| k < |calls| && calls[k] == state;
      FindById(finished, k, state.id);
  }

  /** The loop over the pieces. */
  method FinishPieces(calls: seq<ToolCallState>, pieces: seq<Piece>, ghost finished: seq<Call>)
    returns (content: seq<Block>)
    requires |finished| == |calls| && forall i, j :: 0 <= i < j < |finished| ==> finished[i].id != finished[j].id
    requires forall k :: 0 <= k < |calls| ==> Call(calls[k].id, calls[k].name, calls[k].decided) == finished[k]
    requires forall i :: 0 <= i < |pieces| && pieces[i].CallPiece? ==> pieces[i].state in calls
    ensures |content| == |pieces|
    ensures forall i :: 0 <= i < |pieces| ==> content[i] == FinishOne(DraftOf(pieces[i]), finished)
  {
    hide FinishOne;
    content := [];
    for i := 0 to |pieces|
      invariant |content| == i
      invariant forall j :: 0 <= j < i ==> content[j] == FinishOne(DraftOf(pieces[j]), finished)
    {
      var block := FinishPiece(calls, pieces[i], finished);
      content := content + [block];
    }
  }

  method FinishContent(calls: seq<ToolCallState>, byId: map<string, ToolCallState>, pieces: seq<Piece>,
      ghost read: seq<StreamEvent>)
    returns (content: seq<Block>)
    requires Collected(calls, byId, pieces, read) && Flows(read) && |Calls(read)| == |calls|
    requires forall k :: 0 <= k < |calls| ==> Call(calls[k].id, calls[k].name, calls[k].decided) == Calls(read)[k]
    ensures content == Content(read)
  {
    hide Calls, Drafts, FinishOne, Flows, Starts, Tracks, DraftOf;
    DistinctFinished(read);
    content := FinishPieces(calls, pieces, Calls(read));
  }

  lemma StepText(calls: seq<ToolCallState>, byId: map<string, ToolCallState>, before: seq<Piece>, after: seq<Piece>,
      read: seq<StreamEvent>, event: StreamEvent)
    requires Collected(calls, byId, before, read) && (event.TextDelta? || event.ThinkingDelta?)
    requires forall drafts :: Represents(before, drafts) ==>
        Represents(after, AppendDelta(drafts, event.ThinkingDelta?, event.text))
    requires forall i :: 0 <= i < |after| && after[i].CallPiece? ==> i < |before| && after[i] == before[i]
    ensures Collected(calls, byId, after, read + [event])
  {
    StepOther(calls, byId, before, after, read, event);
  }

  lemma StepNothing(calls: seq<ToolCallState>, byId: map<string, ToolCallState>, pieces: seq<Piece>,
      read: seq<StreamEvent>,
      event: StreamEvent)
    requires Collected(calls, byId, pieces, read) && event.OtherEvent?
    ensures Collected(calls, byId, pieces, read + [event])
  {
    StepOther(calls, byId, pieces, pieces, read, event);
  }

  /** One event before the stream's end; refused when it is not acceptable where it stands. */
  method TakeEvent(calls: seq<ToolCallState>, byId: map<string, ToolCallState>, pieces: seq<Piece>, event: StreamEvent,
      ghost read: seq<StreamEvent>)
    returns (ok: bool, calls': seq<ToolCallState>, byId': map<string, ToolCallState>, pieces': seq<Piece>)
    requires Collected(calls, byId, pieces, read) && Flows(read) && !event.Completed? && !event.ErrorEvent?
    modifies calls
    ensures ok <==> Acceptable(read, event)
    ensures ok ==> Collected(calls', byId', pieces', read + [event])
    ensures forall k :: 0 <= k < |calls'| ==> (k < |calls| && calls'[k] == calls[k]) || fresh(calls'[k])
  {
    hide Collected, Flows, Drafts, Starts, Started;
    ok, calls', byId', pieces' := true, calls, byId, pieces;
    match event {
      case TextDelta(text) =>
        pieces' := AppendPiece(pieces, false, text);
        StepText(calls, byId, pieces, pieces', read, event);
      case ThinkingDelta(text) =>
        pieces' := AppendPiece(pieces, true, text);
        StepText(calls, byId, pieces, pieces', read, event);
      case ToolCallStart(id, name, _) =>
        KnownIff(calls, byId, pieces, read, id);
        if id == "" || name == "" || id in byId {
          return false, calls, byId, pieces;
        }
        var state;
        calls', byId', pieces', state := BeginCall(calls, byId, pieces, event, read);
      case ArgumentsDelta(id, _) =>
        KnownIff(calls, byId, pieces, read, id);
        if id !in byId {
          return false, calls, byId, pieces;
        }
        AddArguments(calls, byId, pieces, event, read);
      case _ =>
        StepNothing(calls, byId, pieces, read, event);
    }
  }

  lemma NothingCollected()
    ensures Collected([], map[], [], [])
  {
  }

  lemma NothingFlows()
    ensures Flows([])
  {
  }

  lemma EndIsNotAcceptable(events: seq<StreamEvent>, n: nat)
    requires n <= |events|
    ensures n < |events| && (events[n].Completed? || events[n].ErrorEvent?) ==> !Acceptable(events[..n], events[n])
  {
  }

  method FinishedCalls(calls: seq<ToolCallState>, ghost read: seq<StreamEvent>) returns (finished: seq<Call>)
    requires |calls| == |Calls(read)|
    requires forall k :: 0 <= k < |calls| ==> Call(calls[k].id, calls[k].name, calls[k].decided) == Calls(read)[k]
    ensures finished == Calls(read)
  {
    finished := [];
    for k := 0 to |calls|
      invariant finished == Calls(read)[..k]
    {
      finished := finished + [Call(calls[k].id, calls[k].name, calls[k].decided)];
    }
  }

  method ReadRound(events: seq<StreamEvent>, validJson: string -> bool) returns (result: Option<Round>)
    ensures result == RoundOf(events, validJson)
  {
    hide Collected, Drafts, Starts, OwnDeltas, Content, Calls, AllValid, Flows, Acceptable;
    var calls: seq<ToolCallState>, pieces: seq<Piece> := [], [];
    var byId: map<string, ToolCallState> := map[];
    var n := 0;
    NothingCollected();
    NothingFlows();
    assert events[..0] == [];
    while n < |events| && !events[n].Completed? && !events[n].ErrorEvent?
      invariant n <= |events| && Flows(events[..n]) && Stop(events, n) == Stop(events, 0)
      invariant Collected(calls, byId, pieces, events[..n])
      invariant forall k :: 0 <= k < |calls| ==> fresh(calls[k])
      decreases |events| - n
    {
      ghost var read := events[..n];
      assert events[..n + 1] == read + [events[n]];
      SnocFlows(read, events[n]);
      var ok;
      ok, calls, byId, pieces := TakeEvent(calls, byId, pieces, events[n], read);
      if !ok {
        return None;
      }
      n := n + 1;
    }
    EndIsNotAcceptable(events, n);
    if n == |events| || !events[n].Completed? {
      return None;
    }
    var valid := DecideArguments(calls, byId, pieces, validJson, events[..n]);
    if !valid {
      return None;
    }
    var content := FinishContent(calls, byId, pieces, events[..n]);
    var finished := FinishedCalls(calls, events[..n]);
    result := Some(Round(content, finished, events[n].reason));
  }

  // ------------------------------------------------------------ the engine

  /** The history only grew, and stays well formed if it was. */
  ghost predicate Grew(before: seq<Message>, after: seq<Message>) {
    before <= after && (Paired(before) ==> Paired(after))
  }

  lemma GrewOn(a: seq<Message>, b: seq<Message>, c: seq<Message>)
    requires Grew(a, b) && Grew(b, c)
    ensures Grew(a, c)
  {
  }

  class Agent {
    const options: Options
    var history: seq<Message>

    constructor (options: Options, initial: seq<Message>)
      ensures this.options == options && history == initial
    {
      this.options, history := options, initial;
    }

    method AppendHistory(m: Message)
      modifies `history
      ensures history == old(history) + [m]
    {
      history := history + [m];
    }

    /** One pass of the loop in run; the turn goes on when there is no ending. */
    method PlayRound(w: World) returns (after: World, ending: Option<Ending>)
      modifies `history
      ensures Grew(old(history), history)
      ensures ending != Some(MaxTurns) && ending != Some(NoProvider)
      ensures ReadOnly(options.tools) ==>
        Step(history, after, ending) == PlayOne(options, OneByOne(options.tools), old(history), w)
      ensures Played(options, old(history), w, Step(history, after, ending))
    {
      if !options.builds(history) {
        return w, Some(ContextFailed);
      }
      var stream := options.provider(history);
      if stream.CannotStart? {
        return w, Some(StreamFailed);
      }
      var read := ReadRound(stream.events, options.validJson);
      if read.None? {
        return w, Some(StreamFailed);
      }
      var round := read.value;
      AppendHistory(Message(Assistant, round.content));
      if |round.calls| == 0 {
        if Paired(old(history)) {
          OneRound(options, stream.events, old(history), []);
        }
        return w, Some(Done(round.reason));
      }
      ghost var order;
      var results, world;
      results, world, order := ExecuteToolCalls(options.tools, round.calls, w);
      ResultsComeFromTools(options.tools, round.calls, order, w);
      assert old(history) + [Message(Assistant, round.content)] + [Message(Tool, ResultBlocks(results))] ==
             old(history) + [Message(Assistant, round.content), Message(Tool, ResultBlocks(results))];
      AppendHistory(Message(Tool, ResultBlocks(results)));
      if Paired(old(history)) {
        OneRound(options, stream.events, old(history), results);
      }
      return world, None;
    }

    method RunRounds(w: World, maximum: nat) returns (after: World, ending: Ending, rounds: nat)
      requires maximum >= 1
      modifies `history
      ensures Grew(old(history), history) && rounds <= maximum
      ensures ReadOnly(options.tools) ==>
        TurnResult(history, after, ending, rounds) ==
            Rounds(options, OneByOne(options.tools), old(history), w, 1, maximum)
      ensures RoundsRun(options, old(history), w, 1, maximum, TurnResult(history, after, ending, rounds))
    {
      hide Played, RoundsRun, PlayOne;
      ghost var ex, honest := OneByOne(options.tools), ReadOnly(options.tools);
      after := w;
      var turn := 1;
      while true
        invariant 1 <= turn <= maximum && Grew(old(history), history)
        invariant honest ==>
          Rounds(options, ex, old(history), w, 1, maximum) == Rounds(options, ex, history, after, turn, maximum)
        invariant forall r :: RoundsRun(options, history, after, turn, maximum, r) ==>
          RoundsRun(options, old(history), w, 1, maximum, r)
        decreases maximum - turn
      {
        ghost var before, seen := history, after;
        var stop: Option<Ending>;
        after, stop := PlayRound(after);
        GrewOn(old(history), before, history);
        StepRuns(options, before, seen, Step(history, after, stop), turn, maximum);
        if stop.Some? {
          return after, stop.value, if stop.value == ContextFailed then turn - 1 else turn;
        }
        if turn == maximum {
          return after, MaxTurns, turn;
        }
        turn := turn + 1;
      }
    }

    method Run(content: seq<Block>, w: World) returns (after: World, ending: Ending, rounds: nat)
      modifies `history
      ensures Grew(old(history), history)
      ensures rounds <= if options.maxTurns > 1 then options.maxTurns else 1
      ensures ReadOnly(options.tools) ==>
        TurnResult(history, after, ending, rounds) == Turn(options, OneByOne(options.tools), old(history), w, content)
      ensures options.hasProvider ==>
        RoundsRun(options, old(history) + [Message(User, content)], w, 1, Limit(options.maxTurns),
                  TurnResult(history, after, ending, rounds))
      ensures !options.hasProvider ==>
        TurnResult(history, after, ending, rounds) ==
        TurnResult(old(history) + [Message(User, content)], w, NoProvider, 0)
      ensures AnsweredFrom(options.tools, history, |old(history)|)
    {
      hide RoundsRun, AnsweredByTools, Rounds, Paired;
      if Paired(history) {
        AppendPlain(history, Message(User, content));
      }
      AppendHistory(Message(User, content));
      ghost var asked := history;
      if !options.hasProvider {
        return w, NoProvider, 0;
      }
      var maximum := if options.maxTurns <= 0 then 1 else options.maxTurns;
      after, ending, rounds := RunRounds(w, maximum);
      GrewOn(old(history), asked, history);
      TurnAnswersFromTools(options, asked, w, 1, maximum, TurnResult(history, after, ending, rounds));
      AnsweredOn(options.tools, old(history), asked, history);
    }
  }
}
