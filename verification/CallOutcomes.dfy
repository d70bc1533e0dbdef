/**
 What the calls of the JSON-RPC clients end with (internal/lsp/client.go, internal/mcp/stdio.go), told
 by the run alone: which message of the peer's a reply is, which event a recorded failure comes from,
 and that a call that is answered gets its answer.
 */
module CallOutcomes {
  import opened Prelude
  import opened CallTable
  import opened Correlation

  /** In the run so far the peer has sent this as a response to the call; a request of the server's own
      counts for the MCP client as a response without a result. */
  predicate PeerGave(kind: Kind, done: seq<Action>, id: int, body: string) {
    || PeerSends(Response(id, body)) in done
    || (kind.Mcp? && body == "" && PeerSends(ServerMessage(Some(id))) in done)
  }

  /** A reply is the peer's own message to this call, or carries the failure that is recorded. */
  predicate Given(kind: Kind, done: seq<Action>, failure: Option<Failure>, id: int, reply: Reply) {
    match reply
    case Message(to, body) => to == id && PeerGave(kind, done, id, body)
    case Failed(cause) => failure == Some(cause)
  }

  predicate Breaks(a: Action) { a.WriterBreaks? || a.WriteBreaks? }

  /** The peer has sent something that is looked up, or something that is not and should be. */
  predicate SentFor(kind: Kind, a: Action, lookedUp: bool) {
    && a.PeerSends? && (a.message.Response? || (kind.Mcp? && a.message.ServerMessage?))
    && IdOf(kind, a.message).Some? == lookedUp
  }

  /** The event in the run that a failure comes from. */
  predicate Explained(kind: Kind, done: seq<Action>, cause: Failure) {
    match cause
    case Closed => CloseClient in done
    case WriteFailed => exists a :: a in done && Breaks(a)
    case StreamEnded => PeerSends(End) in done
    case BadEnvelope => PeerSends(Garbage) in done
    case InvalidId => exists a :: a in done && SentFor(kind, a, false)
    case NotPending => exists a :: a in done && SentFor(kind, a, true)
  }

  predicate OutcomeGiven(kind: Kind, done: seq<Action>, failure: Option<Failure>, id: int, outcome: Outcome) {
    match outcome
    case GotReply(reply) => Given(kind, done, failure, id, reply)
    case GotFailure(cause) => failure == Some(cause)
    case GaveUp => true
  }

  predicate CallKnown(kind: Kind, done: seq<Action>, s: State, id: int) {
    && (id in s.inflight ==> Given(kind, done, s.table.failure, id, s.inflight[id]))
    && (id in s.slots ==> Given(kind, done, s.table.failure, id, s.slots[id]))
    && (IsId(s, id) && s.calls[id - 1].Finished? ==>
          OutcomeGiven(kind, done, s.table.failure, id, s.calls[id - 1].outcome))
    && (At(s, id, WriteBroken) ==> Explained(kind, done, WriteFailed))
  }

  ghost predicate ClientKnown(kind: Kind, done: seq<Action>, s: State) {
    && (forall i :: 0 <= i < |s.inbox| ==> PeerSends(s.inbox[i]) in done)
    && (s.table.failure.Some? ==> Explained(kind, done, s.table.failure.value))
    && (s.reader.ReaderFailing? ==> Explained(kind, done, s.reader.cause))
    && (s.writer.WriterFailing? ==> Explained(kind, done, WriteFailed))
  }

  ghost predicate Known(kind: Kind, done: seq<Action>, s: State) {
    ClientKnown(kind, done, s) && forall id :: CallKnown(kind, done, s, id)
  }

  lemma ExplainedLater(kind: Kind, done: seq<Action>, a: Action, cause: Failure)
    requires Explained(kind, done, cause)
    ensures Explained(kind, done + [a], cause)
  {
    assert forall b :: b in done ==> b in done + [a];
  }

  lemma GivenLater(kind: Kind, done: seq<Action>, a: Action, failure: Option<Failure>, id: int, reply: Reply)
    requires Given(kind, done, failure, id, reply)
    ensures Given(kind, done + [a], failure, id, reply)
  {
  }

  /** More has happened, and the client stands as it stood. */
  lemma KnownLater(kind: Kind, done: seq<Action>, a: Action, s: State, id: int)
    requires ClientKnown(kind, done, s) && CallKnown(kind, done, s, id)
    ensures ClientKnown(kind, done + [a], s) && CallKnown(kind, done + [a], s, id)
  {
    hide Explained, Given;
    forall cause | Explained(kind, done, cause)
      ensures Explained(kind, done + [a], cause)
    {
      ExplainedLater(kind, done, a, cause);
    }
    forall reply | Given(kind, done, s.table.failure, id, reply)
      ensures Given(kind, done + [a], s.table.failure, id, reply)
    {
      GivenLater(kind, done, a, s.table.failure, id, reply);
    }
  }

  /** Recording a failure reaches the calls that waited. */
  lemma BreakKnown(kind: Kind, done: seq<Action>, s: State, cause: Failure, id: int)
    requires ClientKnown(kind, done, s) && CallKnown(kind, done, s, id) && Explained(kind, done, cause)
    ensures ClientKnown(kind, done, Break(s, cause)) && CallKnown(kind, done, Break(s, cause), id)
  {
    hide Explained, PeerGave;
  }

  lemma LookUpKnown(kind: Kind, done: seq<Action>, s: State, read: int, body: string, id: int)
    requires ClientKnown(kind, done, s) && CallKnown(kind, done, s, id)
    requires PeerGave(kind, done, read, body) && Explained(kind, done, NotPending)
    ensures ClientKnown(kind, done, LookUp(s, read, body)) && CallKnown(kind, done, LookUp(s, read, body), id)
  {
    hide Explained, PeerGave;
  }

  /** The message that is read was sent, and explains what comes of it. */
  lemma ReadingKnown(kind: Kind, done: seq<Action>, s: State, id: int)
    requires ClientKnown(kind, done, s) && CallKnown(kind, done, s, id) && Enabled(kind, s, ReaderReads)
    ensures ClientKnown(kind, done, ReadMessage(kind, s)) && CallKnown(kind, done, ReadMessage(kind, s), id)
  {
    hide LookUp;
    var message, rest := s.inbox[0], s.(inbox := s.inbox[1..]);
    assert PeerSends(message) in done;
    assert CallKnown(kind, done, rest, id);
    if IdOf(kind, message).Some? {
      assert SentFor(kind, PeerSends(message), true);
      LookUpKnown(kind, done, rest, IdOf(kind, message).value, if message.Response? then message.body else "", id);
    } else if message.Response? || (kind.Mcp? && message.ServerMessage?) {
      assert SentFor(kind, PeerSends(message), false);
    }
  }

  predicate Failing(a: Action) {
    a.WriterFails? || a.CallerFails? || a.ReaderFails? || a.CloseClient?
  }

  lemma OthersKeepClient(kind: Kind, done: seq<Action>, s: State, a: Action)
    requires ClientKnown(kind, done + [a], s) && Enabled(kind, s, a) && !a.ReaderReads? && !Failing(a)
    ensures ClientKnown(kind, done + [a], Next(kind, s, a))
  {
    hide ReadMessage, IdOf;
    assert a in done + [a];
  }

  /** The steps that move calls, requests and replies about. */
  lemma OthersKeepCall(kind: Kind, done: seq<Action>, s: State, a: Action, id: int)
    requires CallKnown(kind, done + [a], s, id) && Enabled(kind, s, a) && !a.ReaderReads? && !Failing(a)
    ensures CallKnown(kind, done + [a], Next(kind, s, a), id)
  {
    hide ReadMessage, PeerGave, Given, IdOf;
    assert a in done + [a];
  }

  /** A caller whose write broke records the failure and waits. */
  lemma CallerKnown(kind: Kind, done: seq<Action>, s: State, caller: int, id: int)
    requires ClientKnown(kind, done, s) && CallKnown(kind, done, s, id) && CallKnown(kind, done, s, caller)
    requires Enabled(kind, s, CallerFails(caller))
    ensures var t := Next(kind, s, CallerFails(caller)); ClientKnown(kind, done, t) && CallKnown(kind, done, t, id)
  {
    hide ReadMessage, PeerGave, Explained;
    BreakKnown(kind, done, s, WriteFailed, id);
  }

  lemma CloseIsExplained(kind: Kind, done: seq<Action>)
    requires CloseClient in done
    ensures Explained(kind, done, Closed)
  {
  }

  lemma FailingKnown(kind: Kind, done: seq<Action>, s: State, a: Action, id: int)
    requires ClientKnown(kind, done + [a], s) && CallKnown(kind, done + [a], s, id) && Enabled(kind, s, a) && Failing(a)
    requires a.CallerFails? ==> CallKnown(kind, done + [a], s, a.id)
    ensures ClientKnown(kind, done + [a], Next(kind, s, a)) && CallKnown(kind, done + [a], Next(kind, s, a), id)
  {
    hide ReadMessage, PeerGave, Given, Explained, Break;
    assert a in done + [a];
    match a
    case WriterFails => BreakKnown(kind, done + [a], s.(writer := WriterStopped), WriteFailed, id);
    case CallerFails(caller) => CallerKnown(kind, done + [a], s, caller, id);
    case ReaderFails => BreakKnown(kind, done + [a], s.(reader := ReaderStopped), s.reader.cause, id);
    case CloseClient => CloseIsExplained(kind, done + [a]); BreakKnown(kind, done + [a], s, Closed, id);
  }

  lemma NextKeepsKnown(kind: Kind, done: seq<Action>, s: State, a: Action)
    requires Known(kind, done, s) && Enabled(kind, s, a)
    ensures Known(kind, done + [a], Next(kind, s, a))
  {
    hide ClientKnown, CallKnown, Next, ReadMessage;
    forall id
      ensures ClientKnown(kind, done + [a], Next(kind, s, a)) && CallKnown(kind, done + [a], Next(kind, s, a), id)
    {
      KnownLater(kind, done, a, s, id);
      if a.ReaderReads? {
        ReadingKnown(kind, done + [a], s, id);
        NextReads(kind, s);
      } else if Failing(a) {
        if a.CallerFails? {
          KnownLater(kind, done, a, s, a.id);
        }
        FailingKnown(kind, done, s, a, id);
      } else {
        OthersKeepClient(kind, done, s, a);
        OthersKeepCall(kind, done, s, a, id);
      }
    }
    assert CallKnown(kind, done + [a], Next(kind, s, a), 0);
  }

  lemma {:induction false} ExecuteKeepsKnown(kind: Kind, done: seq<Action>, s: State, actions: seq<Action>)
    requires Known(kind, done, s) && Runnable(kind, s, actions)
    ensures Known(kind, done + actions, Execute(kind, s, actions))
    decreases |actions|
  {
    hide Known, Next;
    if actions == [] {
      assert done + actions == done;
    } else {
      NextKeepsKnown(kind, done, s, actions[0]);
      ExecuteKeepsKnown(kind, done + [actions[0]], Next(kind, s, actions[0]), actions[1..]);
      assert done + [actions[0]] + actions[1..] == done + actions;
    }
  }

  lemma NothingKnown(kind: Kind)
    ensures Known(kind, [], INITIAL)
  {
  }

  /** After every interleaving, a call that ended with a response ended with one that the peer sent to
      that very call in this run, body and all (for the MCP client perhaps with a request of the
      server's own, which has no result); a call that ended with a failure ended with the one recorded;
      and a recorded failure has its event in the run. */
  lemma OutcomesComeFromTheRun(kind: Kind, actions: seq<Action>, id: int)
    requires Runnable(kind, INITIAL, actions)
    ensures var s := Execute(kind, INITIAL, actions);
      && (forall to, body :: At(s, id, Finished(GotReply(Message(to, body)))) ==>
            to == id && (PeerSends(Response(id, body)) in actions ||
                         (kind.Mcp? && body == "" && PeerSends(ServerMessage(Some(id))) in actions)))
      && (forall cause :: At(s, id, Finished(GotReply(Failed(cause)))) || At(s, id, Finished(GotFailure(cause))) ==>
            s.table.failure == Some(cause))
      && (s.table.failure.Some? ==> Explained(kind, actions, s.table.failure.value))
  {
    hide Runnable, Execute, Explained;
    NothingKnown(kind);
    ExecuteKeepsKnown(kind, [], INITIAL, actions);
    assert [] + actions == actions;
    assert CallKnown(kind, actions, Execute(kind, INITIAL, actions), id);
  }

  // ------------------------------------------------------------ that answers arrive

  /** A response at the head of the stream to a call that waits: the call ends with that very response,
      and no other call is touched. */
  lemma AnsweredCallFinishes(kind: Kind, actions: seq<Action>, id: int, body: string)
    requires Runnable(kind, INITIAL, actions)
    requires var s := Execute(kind, INITIAL, actions);
      && s.table.failure.None? && At(s, id, Waiting) && id in s.table.pending
      && Enabled(kind, s, ReaderReads) && s.inbox[0] == Response(id, body)
    ensures var s, steps := Execute(kind, INITIAL, actions), [ReaderReads, ReaderDelivers, Receive(id)];
      && Runnable(kind, s, steps)
      && var t := Execute(kind, s, steps);
         && t.calls == s.calls[id - 1 := Finished(GotReply(Message(id, body)))]
         && t.table == s.table.(pending := s.table.pending - {id}) && t.inbox == s.inbox[1..] && t.reader.ReaderIdle?
  {
    hide Runnable, Execute;
    ExecuteFromInitialKeepsInv(kind, actions);
    var s := Execute(kind, INITIAL, actions);
    assert CallInv(s, id);
    var read := Next(kind, s, ReaderReads);
    assert read.reader == Delivering(id) && read.inflight == s.inflight[id := Message(id, body)];
    var delivered := Next(kind, read, ReaderDelivers);
    assert delivered.slots == s.slots[id := Message(id, body)];
    assert Enabled(kind, delivered, Receive(id));
    Three(kind, s, ReaderReads, ReaderDelivers, Receive(id));
  }

  /** A call that gives up while it waits: its id is taken for abandoned, and the response that comes
      later is dropped without touching anything else. */
  lemma AbandonedResponseIsDropped(kind: Kind, s: State, id: int, body: string)
    requires Inv(s) && s.table.failure.None? && At(s, id, Waiting) && id in s.table.pending
    requires s.reader.ReaderIdle? && s.inbox != [] && s.inbox[0] == Response(id, body) && id > 0
    ensures var steps := [Cancel(id), Withdraw(id), ReaderReads];
      && Runnable(kind, s, steps)
      && Execute(kind, s, steps) == s.(calls := s.calls[id - 1 := Finished(GaveUp)], inbox := s.inbox[1..],
           table := s.table.(pending := s.table.pending - {id}), resolved := s.resolved + {id})
  {
    hide Runnable, Execute, TableInv;
    assert CallInv(s, id);
    var cancelled := Next(kind, s, Cancel(id));
    var withdrawn := Next(kind, cancelled, Withdraw(id));
    assert Enabled(kind, withdrawn, ReaderReads);
    assert s.table.abandoned + {id} - {id} == s.table.abandoned;
    assert s.table.pending - {id} - {id} == s.table.pending - {id};
    Three(kind, s, Cancel(id), Withdraw(id), ReaderReads);
  }

  /** Once the client has failed, a call that waits ends in one step: with the reply that has arrived,
      or else with the recorded failure. */
  lemma FailureReleasesCalls(kind: Kind, s: State, id: int)
    requires At(s, id, Waiting) && s.table.failure.Some?
    ensures if id in s.slots then
        && Enabled(kind, s, Receive(id))
        && Next(kind, s, Receive(id)).calls == s.calls[id - 1 := Finished(GotReply(s.slots[id]))]
      else
        && Enabled(kind, s, SeeClosed(id, false))
        && Next(kind, s, SeeClosed(id, false)).calls ==
           s.calls[id - 1 := Finished(GotFailure(s.table.failure.value))]
  {
  }

  /** A run goes on with one more step at its head. */
  lemma OneStep(kind: Kind, s: State, a: Action, rest: seq<Action>)
    requires Enabled(kind, s, a) && Runnable(kind, Next(kind, s, a), rest)
    ensures Runnable(kind, s, [a] + rest)
    ensures Execute(kind, s, [a] + rest) == Execute(kind, Next(kind, s, a), rest)
  {
    assert ([a] + rest)[1..] == rest;
  }

  lemma Arrived(kind: Kind, s: State)
    ensures Runnable(kind, s, []) && Execute(kind, s, []) == s
  {
  }

  lemma {:induction false} ExecuteConcat(kind: Kind, s: State, first: seq<Action>, second: seq<Action>)
    requires Runnable(kind, s, first) && Runnable(kind, Execute(kind, s, first), second)
    ensures Runnable(kind, s, first + second)
    ensures Execute(kind, s, first + second) == Execute(kind, Execute(kind, s, first), second)
    decreases |first|
  {
    hide Next, Enabled;
    if first == [] {
      assert first + second == second;
    } else {
      assert (first + second)[1..] == first[1..] + second;
      ExecuteConcat(kind, Next(kind, s, first[0]), first[1..], second);
    }
  }

  lemma Two(kind: Kind, s: State, a: Action, b: Action)
    requires Enabled(kind, s, a) && Enabled(kind, Next(kind, s, a), b)
    ensures Runnable(kind, s, [a, b]) && Execute(kind, s, [a, b]) == Next(kind, Next(kind, s, a), b)
  {
    hide Next;
    var t := Next(kind, s, a);
    assert [a, b][1..] == [b] && [b][1..] == [];
    assert Runnable(kind, Next(kind, t, b), []) && Runnable(kind, t, [b]);
    assert Execute(kind, t, [b]) == Next(kind, t, b);
  }

  const SENDING := INITIAL.(calls := [Sending], table := Table({1}, {}, None))

  /** The call's request has left, and the caller may wait. */
  function Sent(kind: Kind): State {
    match kind
    case Lsp => SENDING.(written := {1}, reported := map[1 := true])
    case Mcp => SENDING.(calls := [Waiting], written := {1})
  }

  lemma Begins(kind: Kind)
    ensures var third := if kind.Lsp? then Enqueue(1) else BeginWrite(1);
      && Runnable(kind, INITIAL, [Issue, RegisterStep(1), third])
      && Execute(kind, INITIAL, [Issue, RegisterStep(1), third]) ==
         if kind.Lsp? then SENDING.(queue := [Request(1)]) else SENDING.(writer := Writing(Request(1)))
  {
    hide Runnable, Execute, ReadMessage, Break;
    var issued := INITIAL.(calls := [Issued]);
    assert Next(kind, INITIAL, Issue) == issued;
    var registered := issued.(calls := [Registered], table := Table({1}, {}, None));
    assert Next(kind, issued, RegisterStep(1)) == registered;
    Three(kind, INITIAL, Issue, RegisterStep(1), if kind.Lsp? then Enqueue(1) else BeginWrite(1));
  }

  lemma LspWrites(body: string)
    ensures var s := SENDING.(queue := [Request(1)]);
      && Runnable(Lsp, s, [WriterTake, PeerGets(1), WriterDone])
      && Execute(Lsp, s, [WriterTake, PeerGets(1), WriterDone]) == Sent(Lsp)
  {
    hide Runnable, Execute, ReadMessage, Break;
    var s := SENDING.(queue := [Request(1)]);
    var taken := SENDING.(writer := Writing(Request(1)));
    assert Next(Lsp, s, WriterTake) == taken;
    assert Next(Lsp, taken, PeerGets(1)) == taken.(written := {1});
    Three(Lsp, s, WriterTake, PeerGets(1), WriterDone);
  }

  /** The call waits and its response is in the stream. */
  function Answered(body: string, kind: Kind): State {
    Sent(kind).(calls := [Waiting], answered := {1}, inbox := [Response(1, body)])
  }

  lemma LspWaits(body: string)
    ensures Runnable(Lsp, Sent(Lsp), [SendReported(1, false), PeerSends(Response(1, body))])
    ensures Execute(Lsp, Sent(Lsp), [SendReported(1, false), PeerSends(Response(1, body))]) == Answered(body, Lsp)
  {
    hide Runnable, Execute, ReadMessage, Break;
    assert Next(Lsp, Sent(Lsp), SendReported(1, false)) == Sent(Lsp).(calls := [Waiting]);
    Two(Lsp, Sent(Lsp), SendReported(1, false), PeerSends(Response(1, body)));
  }

  lemma McpWrites(body: string)
    ensures var s := SENDING.(writer := Writing(Request(1)));
      && Runnable(Mcp, s, [PeerGets(1), WriteDone(1), PeerSends(Response(1, body))])
      && Execute(Mcp, s, [PeerGets(1), WriteDone(1), PeerSends(Response(1, body))]) == Answered(body, Mcp)
  {
    hide Runnable, Execute, ReadMessage, Break;
    var s := SENDING.(writer := Writing(Request(1)));
    assert Next(Mcp, s, PeerGets(1)) == s.(written := {1});
    assert Next(Mcp, s.(written := {1}), WriteDone(1)) == Sent(Mcp);
    Three(Mcp, s, PeerGets(1), WriteDone(1), PeerSends(Response(1, body)));
  }

  /** The response has been looked up for the call. */
  function Looked(kind: Kind, body: string): State {
    Answered(body, kind).(table := INITIAL.table, inbox := [], resolved := {1}, reader := Delivering(1),
                          inflight := map[1 := Message(1, body)])
  }

  lemma Reads(kind: Kind, body: string)
    ensures Enabled(kind, Answered(body, kind), ReaderReads)
    ensures Next(kind, Answered(body, kind), ReaderReads) == Looked(kind, body)
  {
    hide Break;
  }

  function Delivered(kind: Kind, body: string): State {
    Looked(kind, body).(reader := ReaderIdle, inflight := map[], slots := map[1 := Message(1, body)], sentTo := {1})
  }

  lemma Delivers(kind: Kind, body: string)
    ensures Enabled(kind, Looked(kind, body), ReaderDelivers)
    ensures Next(kind, Looked(kind, body), ReaderDelivers) == Delivered(kind, body)
  {
    hide ReadMessage, Break;
  }

  lemma Receives(kind: Kind, body: string)
    ensures Enabled(kind, Delivered(kind, body), Receive(1))
    ensures Next(kind, Delivered(kind, body), Receive(1)) ==
            Delivered(kind, body).(slots := map[], calls := [Finished(GotReply(Message(1, body)))])
  {
    hide ReadMessage, Break;
    var s := Delivered(kind, body);
    assert s.slots - {1} == map[] && s.calls[0 := Finished(GotReply(Message(1, body)))] ==
      [Finished(GotReply(Message(1, body)))];
  }

  lemma Returns(kind: Kind, body: string)
    ensures Runnable(kind, Answered(body, kind), [ReaderReads, ReaderDelivers, Receive(1)])
    ensures Execute(kind, Answered(body, kind), [ReaderReads, ReaderDelivers, Receive(1)]) ==
            Answered(body, kind).(calls := [Finished(GotReply(Message(1, body)))], table := INITIAL.table,
                                  inbox := [], resolved := {1}, sentTo := {1})
  {
    hide Runnable, Execute, Next, Enabled;
    Reads(kind, body);
    Delivers(kind, body);
    Receives(kind, body);
    Three(kind, Answered(body, kind), ReaderReads, ReaderDelivers, Receive(1));
  }

  /** A first call, the peer's response to it, and the way back to the caller. */
  function Calling(kind: Kind, body: string): seq<Action> {
    match kind
    case Lsp =>
      [Issue, RegisterStep(1), Enqueue(1)] + ([WriterTake, PeerGets(1), WriterDone] +
        ([SendReported(1, false), PeerSends(Response(1, body))] + [ReaderReads, ReaderDelivers, Receive(1)]))
    case Mcp =>
      [Issue, RegisterStep(1), BeginWrite(1)] + ([PeerGets(1), WriteDone(1), PeerSends(Response(1, body))] +
        [ReaderReads, ReaderDelivers, Receive(1)])
  }

  /** A call can succeed: the run of one call ends with the peer's response, and the client stands as it
      began but for its history. */
  lemma CallSucceeds(kind: Kind, body: string)
    ensures Runnable(kind, INITIAL, Calling(kind, body))
    ensures var t := Execute(kind, INITIAL, Calling(kind, body));
      && t.calls == [Finished(GotReply(Message(1, body)))] && t.table == INITIAL.table
      && t.inbox == [] && t.queue == [] && t.reader.ReaderIdle? && t.writer.WriterIdle?
  {
    hide Runnable, Execute;
    var back := [ReaderReads, ReaderDelivers, Receive(1)];
    Begins(kind);
    Returns(kind, body);
    if kind.Lsp? {
      var waits := [SendReported(1, false), PeerSends(Response(1, body))];
      LspWrites(body);
      LspWaits(body);
      ExecuteConcat(Lsp, Sent(Lsp), waits, back);
      ExecuteConcat(Lsp, SENDING.(queue := [Request(1)]), [WriterTake, PeerGets(1), WriterDone], waits + back);
      ExecuteConcat(Lsp, INITIAL, [Issue, RegisterStep(1), Enqueue(1)],
                    [WriterTake, PeerGets(1), WriterDone] + (waits + back));
    } else {
      var writes := [PeerGets(1), WriteDone(1), PeerSends(Response(1, body))];
      McpWrites(body);
      ExecuteConcat(Mcp, SENDING.(writer := Writing(Request(1))), writes, back);
      ExecuteConcat(Mcp, INITIAL, [Issue, RegisterStep(1), BeginWrite(1)], writes + back);
    }
  }
}
