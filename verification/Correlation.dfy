/**
 The concurrent correlation protocol of the JSON-RPC clients, as a transition system whose steps
 are the atomic actions of callers, writer, reader, failure path and peer. `Lsp` hands requests
 to a writer goroutine over a bounded queue (internal/lsp/client.go); in `Mcp` the caller writes
 while it holds the write mutex (internal/mcp/stdio.go). The LSP reader tells the server's own
 notifications and requests from responses; the MCP reader does not, and takes each for a response.
 */
module Correlation {
  import opened Prelude
  import opened CallTable

  datatype Kind = Lsp | Mcp

  const QUEUE_CAPACITY := 128

  /** What arrives on a call's one-slot channel. */
  datatype Reply = Message(id: int, body: string) | Failed(cause: Failure)

  datatype Outcome = GotReply(reply: Reply) | GotFailure(cause: Failure) | GaveUp

  /** Where one call's goroutine stands. */
  datatype Call =
    | Issued
    | Registered
    | Sending              // on the queue or at the writer (Lsp), or holding the write mutex (Mcp)
    | WriteBroken          // the write failed; the failure is not recorded yet (Mcp)
    | Waiting
    | Withdrawing(abandon: bool)
    | Finished(outcome: Outcome)

  datatype Outbound = Request(id: int) | Notice

  /** A message of the server's own is a request when it has an id, a notification otherwise; `Garbage` is
      what does not decode, which to the MCP client includes an id that is no integer. */
  datatype Inbound = Response(number: int, body: string) | ServerMessage(id: Option<int>) | Garbage | End

  datatype Writer = WriterIdle | Writing(item: Outbound) | WriterFailing | WriterStopped

  datatype Reader = ReaderIdle | Delivering(id: int) | ReaderFailing(cause: Failure) | ReaderStopped

  datatype State = State(
    calls: seq<Call>,               // the call with id i is calls[i - 1]
    table: Table,
    inflight: map<int, Reply>,      // taken out of the table, not yet sent on the channel
    slots: map<int, Reply>,         // sent on the channel, not yet received
    sentTo: set<int>,               // channels that have been sent to
    queue: seq<Outbound>,
    writer: Writer,
    written: set<int>,              // requests the peer can see in full
    reported: map<int, bool>,       // the writer's verdict on each request
    inbox: seq<Inbound>,
    reader: Reader,
    answered: set<int>,             // ids the peer has sent to be looked up
    resolved: set<int>)             // ids the reader has looked up

  const INITIAL := State([], Table({}, {}, None), map[], map[], {}, [], WriterIdle, {}, map[], [], ReaderIdle, {}, {})

  datatype Action =
    | Issue
    | RegisterStep(id: int)
    | SendRefused(id: int, cancelled: bool)      // cancelled, not encodable, too large, or closed, before any write
    | Enqueue(id: int)
    | Notify
    | WriterTake
    | PeerGets(id: int)                          // the last byte is with the peer, the write still under way
    | WriterDone
    | WriterBreaks
    | WriterFails
    | WriterStops
    | SendReported(id: int, cancelled: bool)
    | BeginWrite(id: int)
    | WriteDone(id: int)
    | WriteBreaks(id: int)
    | CallerFails(id: int)
    | Cancel(id: int)
    | SeeClosed(id: int, cancelled: bool)
    | Withdraw(id: int)
    | Receive(id: int)
    | PeerSends(message: Inbound)
    | ReaderReads
    | ReaderDelivers
    | ReaderFails
    | NotifyFailure(id: int)
    | CloseClient

  predicate IsId(s: State, id: int) { 1 <= id <= |s.calls| }

  predicate At(s: State, id: int, c: Call) { IsId(s, id) && s.calls[id - 1] == c }

  predicate Enabled(kind: Kind, s: State, a: Action) {
    match a
    case Issue => true
    case RegisterStep(id) => At(s, id, Issued)
    case SendRefused(id, cancelled) => At(s, id, Registered) && (kind.Mcp? ==> !cancelled)
    case Enqueue(id) => kind.Lsp? && At(s, id, Registered) && |s.queue| < QUEUE_CAPACITY
    case Notify => kind.Lsp? && |s.queue| < QUEUE_CAPACITY
    case WriterTake => kind.Lsp? && s.writer.WriterIdle? && s.queue != []
    case PeerGets(id) => s.writer == Writing(Request(id)) && id !in s.written
    case WriterDone => kind.Lsp? && s.writer.Writing? && (s.writer.item.Request? ==> s.writer.item.id in s.written)
    case WriterBreaks => kind.Lsp? && s.writer.Writing? && (s.writer.item.Request? ==> s.writer.item.id !in s.written)
    case WriterFails => kind.Lsp? && s.writer.WriterFailing?
    case WriterStops => kind.Lsp? && s.writer.WriterIdle? && s.table.failure.Some?
    case SendReported(id, _) => kind.Lsp? && At(s, id, Sending) && id in s.reported
    case BeginWrite(id) => kind.Mcp? && At(s, id, Registered) && s.writer.WriterIdle?
    case WriteDone(id) => kind.Mcp? && At(s, id, Sending) && s.writer == Writing(Request(id)) && id in s.written
    case WriteBreaks(id) => kind.Mcp? && At(s, id, Sending) && s.writer == Writing(Request(id)) && id !in s.written
    case CallerFails(id) => At(s, id, WriteBroken)
    case Cancel(id) => (kind.Lsp? && At(s, id, Sending)) || At(s, id, Waiting)
    case SeeClosed(id, _) => s.table.failure.Some? &&
        ((kind.Lsp? && At(s, id, Sending)) || (At(s, id, Waiting) && (kind.Mcp? ==> id !in s.slots)))
    case Withdraw(id) => IsId(s, id) && s.calls[id - 1].Withdrawing?
    case Receive(id) => At(s, id, Waiting) && id in s.slots
    case PeerSends(_) => true
    case ReaderReads => s.reader.ReaderIdle? && s.inbox != []
    case ReaderDelivers => s.reader.Delivering? && s.reader.id in s.inflight
    case ReaderFails => s.reader.ReaderFailing?
    case NotifyFailure(id) => id in s.inflight && s.reader != Delivering(id)
    case CloseClient => true
  }

  function SetCall(s: State, id: int, c: Call): State
    requires IsId(s, id)
  {
    s.(calls := s.calls[id - 1 := c])
  }

  function Put(s: State, id: int): State
    requires id in s.inflight
  {
    s.(inflight := s.inflight - {id}, slots := s.slots[id := s.inflight[id]], sentTo := s.sentTo + {id})
  }

  function Break(s: State, cause: Failure): State {
    var (table, waiting) := Fail(s.table, cause);
    s.(table := table, inflight := s.inflight + map id | id in waiting :: Failed(cause))
  }

  function LookUp(s: State, id: int, body: string): State {
    var (table, verdict) := Resolve(s.table, id);
    var looked := s.(table := table, resolved := s.resolved + {id});
    match verdict
    case Drop => looked
    case Unexpected => looked.(reader := ReaderFailing(NotPending))
    case HandOver => looked.(reader := Delivering(id), inflight := s.inflight[id := Message(id, body)])
  }

  /** The id under which the client looks a message up, if it does. */
  function IdOf(kind: Kind, message: Inbound): Option<int> {
    match message
    case Response(id, _) => if id > 0 then Some(id) else None
    case ServerMessage(Some(id)) => if kind.Mcp? && id > 0 then Some(id) else None
    case _ => None
  }

  /** What is taken for a response is looked up, unless its id is missing or not positive. A request of
      the server's own has no result. */
  function TakeResponse(kind: Kind, s: State, message: Inbound): State {
    match IdOf(kind, message)
    case None => s.(reader := ReaderFailing(InvalidId))
    case Some(id) => LookUp(s, id, if message.Response? then message.body else "")
  }

  /** The reader takes the next message from the stream. */
  function ReadMessage(kind: Kind, s: State): State
    requires s.inbox != []
  {
    var rest, message := s.(inbox := s.inbox[1..]), s.inbox[0];
    match message
    case Garbage => rest.(reader := ReaderFailing(BadEnvelope))
    case End => rest.(reader := ReaderFailing(StreamEnded))
    case ServerMessage(_) => if kind.Lsp? then rest else TakeResponse(kind, rest, message)
    case Response(_, _) => TakeResponse(kind, rest, message)
  }

  function Next(kind: Kind, s: State, a: Action): State
    requires Enabled(kind, s, a)
  {
    match a
    case Issue => s.(calls := s.calls + [Issued])
    case RegisterStep(id) =>
      SetCall(s.(table := Register(s.table, id)), id,
              if s.table.failure.Some? then Finished(GotFailure(s.table.failure.value)) else Registered)
    case SendRefused(id, cancelled) => SetCall(s, id, Withdrawing(cancelled))
    case Enqueue(id) => SetCall(s.(queue := s.queue + [Request(id)]), id, Sending)
    case Notify => s.(queue := s.queue + [Notice])
    case WriterTake => s.(queue := s.queue[1..], writer := Writing(s.queue[0]))
    case PeerGets(id) => s.(written := s.written + {id})
    case WriterDone =>
      var idle := s.(writer := WriterIdle);
      if s.writer.item.Notice? then idle
      else idle.(reported := s.reported[s.writer.item.id := true])
    case WriterBreaks =>
      var failing := s.(writer := WriterFailing);
      if s.writer.item.Notice? then failing else failing.(reported := s.reported[s.writer.item.id := false])
    case WriterFails => Break(s.(writer := WriterStopped), WriteFailed)
    case WriterStops => s.(writer := WriterStopped)
    case SendReported(id, cancelled) => SetCall(s, id, if s.reported[id] then Waiting else Withdrawing(cancelled))
    case BeginWrite(id) => SetCall(s.(writer := Writing(Request(id))), id, Sending)
    case WriteDone(id) => SetCall(s.(writer := WriterIdle), id, Waiting)
    case WriteBreaks(id) => SetCall(s.(writer := WriterIdle), id, WriteBroken)
    case CallerFails(id) => SetCall(Break(s, WriteFailed), id, Waiting)
    case Cancel(id) => SetCall(s, id, Withdrawing(true))
    case SeeClosed(id, cancelled) =>
      SetCall(s, id, if s.calls[id - 1].Sending? then Withdrawing(cancelled)
          else Finished(GotFailure(s.table.failure.value)))
    case Withdraw(id) => SetCall(s.(table := Remove(s.table, id, s.calls[id - 1].abandon)), id, Finished(GaveUp))
    case Receive(id) => SetCall(s.(slots := s.slots - {id}), id, Finished(GotReply(s.slots[id])))
    case PeerSends(message) =>
      var sent := IdOf(kind, message);
      s.(inbox := s.inbox + [message], answered := if sent.Some? then s.answered + {sent.value} else s.answered)
    case ReaderReads => ReadMessage(kind, s)
    case ReaderDelivers => Put(s, s.reader.id).(reader := ReaderIdle)
    case ReaderFails => Break(s.(reader := ReaderStopped), s.reader.cause)
    case NotifyFailure(id) => Put(s, id)
    case CloseClient => Break(s, Closed)
  }

  // ------------------------------------------------------------ safety of every interleaving

  predicate Queued(s: State, id: int) { Request(id) in s.queue }

  /** The request is on its way to the peer or has reached it. */
  predicate OnWire(s: State, id: int) {
    Queued(s, id) || s.writer == Writing(Request(id)) || id in s.written
  }

  predicate Own(id: int, reply: Reply) {
    reply.Message? ==> reply.id == id
  }

  /** An open call's channel has exactly one future: still pending, in flight, or already sent to. */
  predicate Open(c: Call) {
    !c.Issued? && !c.Finished?
  }

  /** Where a call's answer is: in the table, in flight to its channel, or sent; never in two places. */
  ghost predicate PlaceInv(s: State, id: int)
    requires IsId(s, id)
  {
    var c := s.calls[id - 1];
    && (id in s.table.pending ==> id !in s.table.abandoned && id !in s.inflight && id !in s.sentTo && Open(c))
    && (id in s.table.abandoned ==> id !in s.inflight && id !in s.sentTo && c.Finished?)
    && (id in s.inflight ==> id !in s.sentTo && Own(id, s.inflight[id]))
    && (id in s.slots ==> id in s.sentTo && Own(id, s.slots[id]))
    && (id in s.inflight || id in s.sentTo ==> !c.Issued? && (s.table.failure.Some? || id in s.resolved))
    && (Open(c) ==> id in s.table.pending || id in s.inflight || id in s.slots)
    && (c.Finished? && c.outcome.GotReply? ==> Own(id, c.outcome.reply))
  }

  /** What is known of a call's request on the way to the peer. */
  ghost predicate WireInv(s: State, id: int)
    requires IsId(s, id)
  {
    var c := s.calls[id - 1];
    && (c.Issued? || c.Registered? ==> !OnWire(s, id) && id !in s.reported)
    && (c.WriteBroken? ==> !OnWire(s, id))
    && (id in s.reported && !s.reported[id] ==> !OnWire(s, id))
    && (Queued(s, id) ==> id !in s.reported && id !in s.written && s.writer != Writing(Request(id)))
    && (s.writer == Writing(Request(id)) ==> id !in s.reported)
    && (c == Withdrawing(false) ==> s.table.failure.Some? || !OnWire(s, id))
  }

  predicate DistinctRequests(queue: seq<Outbound>) {
    forall i, j :: 0 <= i < j < |queue| && queue[i].Request? ==> queue[i] != queue[j]
  }

  /** An id that was never issued appears nowhere. */
  predicate Unused(s: State, id: int) {
    && id !in s.table.pending && id !in s.table.abandoned && id !in s.inflight && id !in s.sentTo
    && id !in s.slots && id !in s.reported && !OnWire(s, id)
  }

  ghost predicate CallInv(s: State, id: int) {
    if IsId(s, id) then PlaceInv(s, id) && WireInv(s, id) else Unused(s, id)
  }

  ghost predicate TableInv(s: State) {
    && (s.table.failure.Some? ==> s.table.pending == {} && s.table.abandoned == {})
    && DistinctRequests(s.queue)
    && (s.reader.Delivering? ==> s.reader.id in s.inflight)
    && |s.queue| <= QUEUE_CAPACITY
  }

  ghost predicate Inv(s: State) {
    TableInv(s) && forall id :: CallInv(s, id)
  }

  /** Requests get on the wire only when they are enqueued or their write begins. */
  lemma WireGrows(kind: Kind, s: State, a: Action)
    requires Enabled(kind, s, a)
    ensures forall id :: OnWire(Next(kind, s, a), id) ==> OnWire(s, id) || a == Enqueue(id) || a == BeginWrite(id)
  {
  }

  lemma BreakKeepsCall(s: State, cause: Failure, id: int)
    requires TableInv(s) && CallInv(s, id)
    ensures CallInv(Break(s, cause), id) && TableInv(Break(s, cause))
  {
  }

  predicate CallerAction(a: Action) {
    a.Issue? || a.RegisterStep? || a.SendRefused?
  }

  predicate SendingAction(a: Action) {
    a.SendReported? || a.Cancel? || a.SeeClosed? || a.Withdraw? || a.Receive?
  }

  /** The writer goroutine, or the failing of its writes. */
  predicate WriterAction(a: Action) {
    a.WriterTake? || a.PeerGets? || a.WriterDone? || a.WriterBreaks? || a.WriterStops?
  }

  /** A request or a notice on its way to the writer or, without one, to the peer. */
  predicate OutgoingAction(a: Action) {
    a.Enqueue? || a.Notify? || a.BeginWrite? || a.WriteDone? || a.WriteBreaks?
  }

  lemma CallerKeepsCall(kind: Kind, s: State, a: Action, id: int)
    requires TableInv(s) && CallInv(s, id) && Enabled(kind, s, a) && CallerAction(a)
    ensures CallInv(Next(kind, s, a), id)
  {
  }

  lemma SendingKeepsCall(kind: Kind, s: State, a: Action, id: int)
    requires TableInv(s) && CallInv(s, id) && Enabled(kind, s, a) && SendingAction(a)
    ensures CallInv(Next(kind, s, a), id)
  {
  }

  lemma WriterKeepsCall(kind: Kind, s: State, a: Action, id: int)
    requires TableInv(s) && CallInv(s, id) && Enabled(kind, s, a) && WriterAction(a)
    ensures CallInv(Next(kind, s, a), id)
  {
    WireGrows(kind, s, a);
  }

  lemma OutgoingKeepsCall(kind: Kind, s: State, a: Action, id: int)
    requires TableInv(s) && CallInv(s, id) && Enabled(kind, s, a) && OutgoingAction(a)
    ensures CallInv(Next(kind, s, a), id)
  {
    WireGrows(kind, s, a);
  }

  lemma DeliveryKeepsCall(kind: Kind, s: State, a: Action, id: int)
    requires TableInv(s) && CallInv(s, id) && Enabled(kind, s, a)
    requires a.PeerSends? || a.ReaderDelivers? || a.NotifyFailure?
    ensures CallInv(Next(kind, s, a), id)
  {
  }

  lemma LookUpKeepsCall(s: State, answered: int, body: string, id: int)
    requires TableInv(s) && CallInv(s, id)
    ensures CallInv(LookUp(s, answered, body), id)
  {
    assert OnWire(LookUp(s, answered, body), id) == OnWire(s, id);
  }

  /** The inbox and the reader's state are of no matter to a call. */
  lemma SameCall(s: State, t: State, id: int)
    requires t == s.(inbox := t.inbox, reader := t.reader)
    ensures CallInv(s, id) <==> CallInv(t, id)
  {
  }

  /** Reading a message looks it up or changes no more than the inbox and the reader. */
  lemma ReadingLooksUp(kind: Kind, s: State)
    requires Enabled(kind, s, ReaderReads)
    ensures var t, rest, read := ReadMessage(kind, s), s.(inbox := s.inbox[1..]), IdOf(kind, s.inbox[0]);
      if read.Some? then t == LookUp(rest, read.value, if s.inbox[0].Response? then s.inbox[0].body else "")
      else t == rest.(reader := t.reader) && !t.reader.Delivering? && t.reader != ReaderFailing(NotPending)
  {
    hide LookUp;
  }

  lemma ReadingKeepsCall(kind: Kind, s: State, id: int)
    requires TableInv(s) && CallInv(s, id) && s.inbox != [] && s.reader.ReaderIdle?
    ensures CallInv(ReadMessage(kind, s), id)
  {
    hide LookUp, CallInv, ReadMessage, IdOf;
    var message, rest := s.inbox[0], s.(inbox := s.inbox[1..]);
    ReadingLooksUp(kind, s);
    SameCall(s, rest, id);
    if IdOf(kind, message).Some? {
      LookUpKeepsCall(rest, IdOf(kind, message).value, if message.Response? then message.body else "", id);
    } else {
      SameCall(s, ReadMessage(kind, s), id);
    }
  }

  lemma FailingKeepsCall(kind: Kind, s: State, a: Action, id: int)
    requires TableInv(s) && CallInv(s, id) && Enabled(kind, s, a)
    requires a.WriterFails? || a.CallerFails? || a.ReaderFails? || a.CloseClient?
    ensures CallInv(Next(kind, s, a), id)
  {
    match a {
      case WriterFails => BreakKeepsCall(s.(writer := WriterStopped), WriteFailed, id);
      case CallerFails(_) => BreakKeepsCall(s, WriteFailed, id);
      case ReaderFails => BreakKeepsCall(s.(reader := ReaderStopped), s.reader.cause, id);
      case CloseClient => BreakKeepsCall(s, Closed, id);
    }
  }

  lemma NextKeepsCall(kind: Kind, s: State, a: Action, id: int)
    requires TableInv(s) && CallInv(s, id) && Enabled(kind, s, a)
    ensures CallInv(Next(kind, s, a), id)
  {
    hide CallInv;
    if CallerAction(a) {
      CallerKeepsCall(kind, s, a, id);
    } else if SendingAction(a) {
      SendingKeepsCall(kind, s, a, id);
    } else if WriterAction(a) {
      WriterKeepsCall(kind, s, a, id);
    } else if OutgoingAction(a) {
      OutgoingKeepsCall(kind, s, a, id);
    } else if a.WriterFails? || a.CallerFails? || a.ReaderFails? || a.CloseClient? {
      FailingKeepsCall(kind, s, a, id);
    } else if a.ReaderReads? {
      ReadingKeepsCall(kind, s, id);
    } else {
      DeliveryKeepsCall(kind, s, a, id);
    }
  }

  lemma EnqueueKeepsTable(s: State, id: int)
    requires Inv(s) && Enabled(Lsp, s, Enqueue(id))
    ensures TableInv(Next(Lsp, s, Enqueue(id)))
  {
    hide PlaceInv, Unused;
    assert CallInv(s, id);
  }

  lemma QueueKeepsTable(kind: Kind, s: State, a: Action)
    requires TableInv(s) && Enabled(kind, s, a) && (WriterAction(a) || a.Notify? || a.RegisterStep?)
    ensures TableInv(Next(kind, s, a))
  {
  }

  lemma ReadingKeepsTable(kind: Kind, s: State)
    requires TableInv(s) && Enabled(kind, s, ReaderReads)
    ensures TableInv(ReadMessage(kind, s))
  {
    hide ReadMessage, IdOf, DistinctRequests;
    ReadingLooksUp(kind, s);
  }

  lemma OthersKeepTable(kind: Kind, s: State, a: Action)
    requires TableInv(s) && Enabled(kind, s, a) && !WriterAction(a) && !a.Enqueue? && !a.Notify? && !a.RegisterStep?
    requires !a.ReaderReads?
    ensures TableInv(Next(kind, s, a))
  {
    hide DistinctRequests, ReadMessage, IdOf;
  }

  lemma NextReads(kind: Kind, s: State)
    requires Enabled(kind, s, ReaderReads)
    ensures Next(kind, s, ReaderReads) == ReadMessage(kind, s)
  {
  }

  lemma NextKeepsTable(kind: Kind, s: State, a: Action)
    requires Inv(s) && Enabled(kind, s, a)
    ensures TableInv(Next(kind, s, a))
  {
    hide TableInv, CallInv, Next;
    if a.Enqueue? {
      EnqueueKeepsTable(s, a.id);
    } else if WriterAction(a) || a.Notify? || a.RegisterStep? {
      QueueKeepsTable(kind, s, a);
    } else if a.ReaderReads? {
      ReadingKeepsTable(kind, s);
      NextReads(kind, s);
    } else {
      OthersKeepTable(kind, s, a);
    }
  }

  lemma NextKeepsInv(kind: Kind, s: State, a: Action)
    requires Inv(s) && Enabled(kind, s, a)
    ensures Inv(Next(kind, s, a))
  {
    hide CallInv, TableInv, Next;
    forall id
      ensures CallInv(Next(kind, s, a), id)
    {
      NextKeepsCall(kind, s, a, id);
    }
    NextKeepsTable(kind, s, a);
  }

  /** The actions are enabled one after the other: one interleaving of the goroutines. */
  predicate Runnable(kind: Kind, s: State, actions: seq<Action>)
    decreases |actions|
  {
    actions == [] || (Enabled(kind, s, actions[0]) && Runnable(kind, Next(kind, s, actions[0]), actions[1..]))
  }

  function Execute(kind: Kind, s: State, actions: seq<Action>): State
    requires Runnable(kind, s, actions)
    decreases |actions|
  {
    if actions == [] then s else Execute(kind, Next(kind, s, actions[0]), actions[1..])
  }

  lemma {:induction false} ExecuteKeepsInv(kind: Kind, s: State, actions: seq<Action>)
    requires Inv(s) && Runnable(kind, s, actions)
    ensures Inv(Execute(kind, s, actions))
    decreases |actions|
  {
    if actions != [] {
      NextKeepsInv(kind, s, actions[0]);
      ExecuteKeepsInv(kind, Next(kind, s, actions[0]), actions[1..]);
    }
  }

  /** After every interleaving: pending and abandoned ids are disjoint issued ids and are gone once
      the client has failed; a channel about to be sent to was never sent to, so the send cannot
      block; an open call can always still be answered; and a call that got a response got its own. */
  lemma EveryInterleavingIsSafe(kind: Kind, actions: seq<Action>)
    requires Runnable(kind, INITIAL, actions)
    ensures var s := Execute(kind, INITIAL, actions);
      && s.table.pending !! s.table.abandoned
      && (forall id :: id in s.table.pending + s.table.abandoned ==> IsId(s, id))
      && (s.table.failure.Some? ==> s.table.pending == {} && s.table.abandoned == {})
      && (forall id :: id in s.inflight ==> id !in s.sentTo && id !in s.slots)
      && (forall id :: IsId(s, id) && Open(s.calls[id - 1]) ==>
          id in s.table.pending || id in s.inflight || id in s.slots)
      && (forall id :: IsId(s, id) && s.calls[id - 1].Finished? && s.calls[id - 1].outcome.GotReply? ==>
            Own(id, s.calls[id - 1].outcome.reply))
  {
    ExecuteKeepsInv(kind, INITIAL, actions);
    var s := Execute(kind, INITIAL, actions);
    forall id
      ensures id in s.table.pending ==> IsId(s, id)
      ensures id in s.table.abandoned ==> IsId(s, id)
      ensures id in s.inflight ==> id !in s.sentTo && id !in s.slots
      ensures IsId(s, id) ==> PlaceInv(s, id)
    {
      assert CallInv(s, id);
    }
    forall id | id in s.table.pending
      ensures id !in s.table.abandoned
    {
      assert CallInv(s, id);
    }
  }

  // ------------------------------------------------------------ a peer that keeps to what it was sent

  /** The client fails with "response ID is not pending". */
  predicate FailsNotPending(kind: Kind, s: State)
    requires Enabled(kind, s, ReaderReads)
  {
    var t := ReadMessage(kind, s);
    t.reader == ReaderFailing(NotPending) && Next(kind, t, ReaderFails).table.failure == Some(NotPending)
  }

  /** An honest peer sends only ids of requests it has received in full. */
  predicate Honest(kind: Kind, s: State, a: Action) {
    a.PeerSends? && IdOf(kind, a.message).Some? ==> IdOf(kind, a.message).value in s.written
  }

  /** A polite peer also sends none of them twice. */
  predicate Polite(kind: Kind, s: State, a: Action) {
    Honest(kind, s, a) && (a.PeerSends? && IdOf(kind, a.message).Some? ==> IdOf(kind, a.message).value !in s.answered)
  }

  predicate HonestRun(kind: Kind, s: State, actions: seq<Action>)
    requires Runnable(kind, s, actions)
    decreases |actions|
  {
    actions == [] || (Honest(kind, s, actions[0]) && HonestRun(kind, Next(kind, s, actions[0]), actions[1..]))
  }

  predicate PoliteRun(kind: Kind, s: State, actions: seq<Action>)
    requires Runnable(kind, s, actions)
    decreases |actions|
  {
    actions == [] || (Polite(kind, s, actions[0]) && PoliteRun(kind, Next(kind, s, actions[0]), actions[1..]))
  }

  predicate Arriving(kind: Kind, s: State, i: int, id: int) {
    0 <= i < |s.inbox| && IdOf(kind, s.inbox[i]) == Some(id)
  }

  /** Everything still to be read goes back to a request that reached the peer. */
  ghost predicate HonestInbox(kind: Kind, s: State) {
    s.resolved <= s.written && forall i, id :: Arriving(kind, s, i, id) ==> id in s.written
  }

  /** And to one that nothing else goes back to. */
  ghost predicate PoliteInbox(kind: Kind, s: State) {
    && s.resolved <= s.answered <= s.written
    && (forall i, id :: Arriving(kind, s, i, id) ==> id in s.answered && id !in s.resolved)
    && (forall i, j, id :: Arriving(kind, s, i, id) && Arriving(kind, s, j, id) ==> i == j)
  }

  /** While the client has not failed, a request that was not looked up has its place in the table. */
  predicate Placed(s: State, id: int) {
    s.table.failure.None? && OnWire(s, id) && id !in s.resolved ==> id in s.table.pending || id in s.table.abandoned
  }

  /** While the reader reads, what it has looked up is not in the table and will not be. */
  predicate Consumed(s: State, id: int) {
    (s.reader.ReaderIdle? || s.reader.Delivering?) && id in s.resolved ==>
      IsId(s, id) && !s.calls[id - 1].Issued? && id !in s.table.pending && id !in s.table.abandoned
  }

  ghost predicate TableKnows(s: State) {
    forall id :: Placed(s, id) && Consumed(s, id)
  }

  ghost predicate NeverUnexpected(s: State) {
    (s.reader == ReaderFailing(NotPending) ==> s.table.failure.Some?) && s.table.failure != Some(NotPending)
  }

  lemma ReadingStaysHonest(kind: Kind, s: State)
    requires HonestInbox(kind, s) && Enabled(kind, s, ReaderReads)
    ensures HonestInbox(kind, ReadMessage(kind, s))
  {
    hide ReadMessage, IdOf;
    ReadingLooksUp(kind, s);
    var t := ReadMessage(kind, s);
    assert IdOf(kind, s.inbox[0]).Some? ==> Arriving(kind, s, 0, IdOf(kind, s.inbox[0]).value);
    forall i, id | Arriving(kind, t, i, id)
      ensures Arriving(kind, s, i + 1, id)
    {
    }
  }

  lemma ReadingIsPolite(kind: Kind, s: State)
    requires PoliteInbox(kind, s) && Enabled(kind, s, ReaderReads)
    ensures PoliteInbox(kind, ReadMessage(kind, s))
  {
    hide ReadMessage, IdOf;
    ReadingLooksUp(kind, s);
    var t := ReadMessage(kind, s);
    assert IdOf(kind, s.inbox[0]).Some? ==> Arriving(kind, s, 0, IdOf(kind, s.inbox[0]).value);
    forall i, id | Arriving(kind, t, i, id)
      ensures Arriving(kind, s, i + 1, id)
    {
    }
  }

  /** What arrives after a message was sent arrived before, or is that message. */
  lemma SendingArrives(kind: Kind, s: State, t: State, message: Inbound)
    requires t.inbox == s.inbox + [message]
    ensures forall i, id :: Arriving(kind, t, i, id) ==>
              Arriving(kind, s, i, id) || (i == |s.inbox| && IdOf(kind, message) == Some(id))
  {
  }

  /** Everything but reading and the peer leaves the inbox as it is. */
  lemma OthersLeaveTheInbox(kind: Kind, s: State, a: Action)
    requires Enabled(kind, s, a) && !a.ReaderReads? && !a.PeerSends?
    ensures var t := Next(kind, s, a);
      t.inbox == s.inbox && t.resolved == s.resolved && t.answered == s.answered && s.written <= t.written
  {
  }

  lemma InboxStays(kind: Kind, s: State, t: State)
    requires t.inbox == s.inbox && t.resolved == s.resolved && t.answered == s.answered && s.written <= t.written
    ensures HonestInbox(kind, s) ==> HonestInbox(kind, t)
    ensures PoliteInbox(kind, s) ==> PoliteInbox(kind, t)
  {
    assert forall i, id :: Arriving(kind, t, i, id) <==> Arriving(kind, s, i, id);
  }

  lemma NextKeepsHonestInbox(kind: Kind, s: State, a: Action)
    requires HonestInbox(kind, s) && Enabled(kind, s, a) && Honest(kind, s, a)
    ensures HonestInbox(kind, Next(kind, s, a))
  {
    if a.ReaderReads? {
      ReadingStaysHonest(kind, s);
    } else if a.PeerSends? {
      SendingArrives(kind, s, Next(kind, s, a), a.message);
    } else {
      hide Next, HonestInbox;
      OthersLeaveTheInbox(kind, s, a);
      InboxStays(kind, s, Next(kind, s, a));
    }
  }

  lemma NextKeepsPoliteInbox(kind: Kind, s: State, a: Action)
    requires PoliteInbox(kind, s) && Enabled(kind, s, a) && Polite(kind, s, a)
    ensures PoliteInbox(kind, Next(kind, s, a))
  {
    if a.ReaderReads? {
      ReadingIsPolite(kind, s);
    } else if a.PeerSends? {
      SendingArrives(kind, s, Next(kind, s, a), a.message);
    } else {
      hide Next, PoliteInbox;
      OthersLeaveTheInbox(kind, s, a);
      InboxStays(kind, s, Next(kind, s, a));
    }
  }

  lemma ReadingPlaces(kind: Kind, s: State, id: int)
    requires Placed(s, id) && Enabled(kind, s, ReaderReads)
    ensures Placed(ReadMessage(kind, s), id)
  {
    hide ReadMessage, IdOf;
    ReadingLooksUp(kind, s);
  }

  lemma OthersKeepPlaced(kind: Kind, s: State, a: Action, id: int)
    requires TableInv(s) && CallInv(s, id) && Placed(s, id) && Enabled(kind, s, a) && !a.ReaderReads?
    requires s.resolved <= s.written
    ensures Placed(Next(kind, s, a), id)
  {
    hide ReadMessage, IdOf, DistinctRequests;
    WireGrows(kind, s, a);
  }

  lemma NextKeepsPlaced(kind: Kind, s: State, a: Action, id: int)
    requires TableInv(s) && CallInv(s, id) && Placed(s, id) && Enabled(kind, s, a)
    requires s.resolved <= s.written
    ensures Placed(Next(kind, s, a), id)
  {
    hide TableInv, CallInv, Placed, ReadMessage;
    if a.ReaderReads? {
      ReadingPlaces(kind, s, id);
    } else {
      OthersKeepPlaced(kind, s, a, id);
    }
  }

  lemma LookUpConsumes(s: State, read: int, body: string, id: int)
    requires CallInv(s, id) && Consumed(s, id) && s.reader.ReaderIdle?
    ensures Consumed(LookUp(s, read, body), id)
  {
    hide WireInv, OnWire;
  }

  lemma ReadingConsumes(kind: Kind, s: State, id: int)
    requires CallInv(s, id) && Consumed(s, id) && Enabled(kind, s, ReaderReads)
    ensures Consumed(ReadMessage(kind, s), id)
  {
    hide CallInv, LookUp, ReadMessage, IdOf;
    var message, rest := s.inbox[0], s.(inbox := s.inbox[1..]);
    ReadingLooksUp(kind, s);
    SameCall(s, rest, id);
    if IdOf(kind, message).Some? {
      LookUpConsumes(rest, IdOf(kind, message).value, if message.Response? then message.body else "", id);
    }
  }

  /** An id leaves the table for good: only its own call, just issued, may enter it. */
  lemma TableKeepsConsumed(kind: Kind, s: State, a: Action, id: int)
    requires Consumed(s, id) && Enabled(kind, s, a) && !a.ReaderReads?
    ensures Consumed(Next(kind, s, a), id)
  {
    hide ReadMessage, IdOf;
  }

  lemma NextKeepsConsumed(kind: Kind, s: State, a: Action, id: int)
    requires CallInv(s, id) && Consumed(s, id) && Enabled(kind, s, a)
    ensures Consumed(Next(kind, s, a), id)
  {
    hide CallInv, Consumed;
    if a.ReaderReads? {
      ReadingConsumes(kind, s, id);
    } else {
      TableKeepsConsumed(kind, s, a, id);
    }
  }

  /** The table knows every request on the wire that was not looked up, and none that was. */
  lemma NextKeepsTableKnows(kind: Kind, s: State, a: Action)
    requires Inv(s) && HonestInbox(kind, s) && TableKnows(s) && Enabled(kind, s, a)
    ensures TableKnows(Next(kind, s, a))
  {
    hide Next, CallInv, Placed, Consumed, TableInv;
    forall id
      ensures Placed(Next(kind, s, a), id) && Consumed(Next(kind, s, a), id)
    {
      assert CallInv(s, id) && Placed(s, id) && Consumed(s, id);
      NextKeepsPlaced(kind, s, a, id);
      NextKeepsConsumed(kind, s, a, id);
    }
  }

  /** With an honest peer a message is unexpected exactly when its id was looked up before. */
  lemma UnexpectedIff(kind: Kind, s: State, id: int)
    requires Inv(s) && HonestInbox(kind, s) && TableKnows(s) && s.table.failure.None?
    requires Enabled(kind, s, ReaderReads) && IdOf(kind, s.inbox[0]) == Some(id)
    ensures FailsNotPending(kind, s) <==> id in s.resolved
  {
    hide Inv, ReadMessage, IdOf;
    ReadingLooksUp(kind, s);
    assert Arriving(kind, s, 0, id) && OnWire(s, id);
    assert Placed(s, id) && Consumed(s, id);
  }

  lemma ReadingStaysExpected(kind: Kind, s: State)
    requires Inv(s) && HonestInbox(kind, s) && PoliteInbox(kind, s) && TableKnows(s) && NeverUnexpected(s)
    requires Enabled(kind, s, ReaderReads)
    ensures NeverUnexpected(ReadMessage(kind, s))
  {
    hide Inv, HonestInbox, TableKnows, IdOf, ReadMessage;
    var first := IdOf(kind, s.inbox[0]);
    ReadingLooksUp(kind, s);
    if first.Some? && s.table.failure.None? {
      assert Arriving(kind, s, 0, first.value);
      UnexpectedIff(kind, s, first.value);
    }
  }

  lemma NextStaysExpected(kind: Kind, s: State, a: Action)
    requires NeverUnexpected(s) && Enabled(kind, s, a) && !a.ReaderReads?
    ensures NeverUnexpected(Next(kind, s, a))
  {
    hide ReadMessage, IdOf;
  }

  lemma PoliteIsHonest(kind: Kind, s: State)
    requires PoliteInbox(kind, s)
    ensures HonestInbox(kind, s)
  {
  }

  lemma {:induction false} ExecuteKeepsHonestInv(kind: Kind, s: State, actions: seq<Action>)
    requires Inv(s) && HonestInbox(kind, s) && TableKnows(s) && Runnable(kind, s, actions)
    requires HonestRun(kind, s, actions)
    ensures var t := Execute(kind, s, actions); Inv(t) && HonestInbox(kind, t) && TableKnows(t)
    decreases |actions|
  {
    hide Inv, HonestInbox, TableKnows, Next, Honest;
    if actions != [] {
      NextKeepsInv(kind, s, actions[0]);
      NextKeepsHonestInbox(kind, s, actions[0]);
      NextKeepsTableKnows(kind, s, actions[0]);
      ExecuteKeepsHonestInv(kind, Next(kind, s, actions[0]), actions[1..]);
    }
  }

  lemma {:induction false} ExecuteKeepsPoliteInv(kind: Kind, s: State, actions: seq<Action>)
    requires Inv(s) && PoliteInbox(kind, s) && TableKnows(s) && NeverUnexpected(s) && Runnable(kind, s, actions)
    requires PoliteRun(kind, s, actions)
    ensures var t := Execute(kind, s, actions); TableKnows(t) && NeverUnexpected(t)
    decreases |actions|
  {
    hide Inv, HonestInbox, PoliteInbox, TableKnows, NeverUnexpected, Next, Polite;
    if actions != [] {
      PoliteIsHonest(kind, s);
      NextKeepsInv(kind, s, actions[0]);
      NextKeepsPoliteInbox(kind, s, actions[0]);
      NextKeepsTableKnows(kind, s, actions[0]);
      if actions[0].ReaderReads? {
        ReadingStaysExpected(kind, s);
        NextReads(kind, s);
      } else {
        NextStaysExpected(kind, s, actions[0]);
      }
      ExecuteKeepsPoliteInv(kind, Next(kind, s, actions[0]), actions[1..]);
    }
  }

  lemma InitialInv(kind: Kind)
    ensures Inv(INITIAL) && HonestInbox(kind, INITIAL) && PoliteInbox(kind, INITIAL) && TableKnows(INITIAL) &&
            NeverUnexpected(INITIAL)
  {
  }

  /** Whatever calls are cancelled before, during or after their write: while every id that the client
      looks up was sent to the peer first, reading a message ends the client with "response ID is not
      pending" exactly when a message with that id was read before. */
  lemma HonestPeerFailsOnlyByRepeating(kind: Kind, actions: seq<Action>, id: int)
    requires Runnable(kind, INITIAL, actions) && HonestRun(kind, INITIAL, actions)
    requires var s := Execute(kind, INITIAL, actions);
      Enabled(kind, s, ReaderReads) && s.table.failure.None? && IdOf(kind, s.inbox[0]) == Some(id)
    ensures var s := Execute(kind, INITIAL, actions);
      FailsNotPending(kind, s) <==> id in s.resolved
  {
    hide Runnable, HonestRun, FailsNotPending;
    InitialInv(kind);
    ExecuteKeepsHonestInv(kind, INITIAL, actions);
    UnexpectedIff(kind, Execute(kind, INITIAL, actions), id);
  }

  /** A polite peer never makes the client fail with "response ID is not pending". For the LSP client
      only its responses count; the MCP client looks up its requests as well. And while the client has
      not failed, every request whose id was not yet read has its place in the table. */
  lemma PolitePeerNeverBreaksTheClient(kind: Kind, actions: seq<Action>)
    requires Runnable(kind, INITIAL, actions) && PoliteRun(kind, INITIAL, actions)
    ensures var s := Execute(kind, INITIAL, actions);
      && s.table.failure != Some(NotPending)
      && (s.reader == ReaderFailing(NotPending) ==> s.table.failure.Some?)
      && (s.table.failure.None? ==> forall id :: id in s.written && id !in s.resolved ==>
          id in s.table.pending + s.table.abandoned)
  {
    hide Runnable, PoliteRun;
    InitialInv(kind);
    ExecuteKeepsPoliteInv(kind, INITIAL, actions);
    var s := Execute(kind, INITIAL, actions);
    forall id | id in s.written
      ensures OnWire(s, id) && Placed(s, id)
    {
    }
  }

  // ------------------------------------------------------------ the server's own messages

  lemma ExecuteFromInitialKeepsInv(kind: Kind, actions: seq<Action>)
    requires Runnable(kind, INITIAL, actions)
    ensures Inv(Execute(kind, INITIAL, actions))
  {
    hide Runnable;
    InitialInv(kind);
    ExecuteKeepsInv(kind, INITIAL, actions);
  }

  lemma DisjointTable(s: State, id: int)
    requires CallInv(s, id)
    ensures id in s.table.pending ==> id !in s.table.abandoned
  {
  }

  /** What one message of the server's own does to a client that has not failed. The LSP client only
      takes it from the stream. The MCP client fails when it is a notification or has an id that is
      not positive; a request with another id makes it fail with "response ID is not pending" exactly
      when no call of that id is pending or abandoned, so always when the id was never issued; and when
      one is pending, that call gets the request, which has no result, for its response. */
  lemma ServerMessageOutcome(kind: Kind, actions: seq<Action>, n: Option<int>)
    requires Runnable(kind, INITIAL, actions)
    requires var s := Execute(kind, INITIAL, actions);
      Enabled(kind, s, ReaderReads) && s.table.failure.None? && s.inbox[0] == ServerMessage(n)
    ensures var s := Execute(kind, INITIAL, actions);
      var t := Next(kind, s, ReaderReads);
      && (kind.Lsp? ==> t == s.(inbox := s.inbox[1..]))
      && (kind.Mcp? && (n.None? || n.value <= 0) ==> t.reader == ReaderFailing(InvalidId))
      && (kind.Mcp? && n.Some? && n.value > 0 ==>
            && (FailsNotPending(kind, s) <==> n.value !in s.table.pending && n.value !in s.table.abandoned)
            && (!IsId(s, n.value) ==> FailsNotPending(kind, s))
            && (n.value in s.table.pending ==>
                  t.reader == Delivering(n.value) && t.inflight[n.value] == Message(n.value, "")))
  {
    hide Runnable, Execute, TableInv, PlaceInv, WireInv;
    ExecuteFromInitialKeepsInv(kind, actions);
    var s := Execute(kind, INITIAL, actions);
    if n.Some? {
      assert CallInv(s, n.value);
      DisjointTable(s, n.value);
    }
  }

  lemma Three(kind: Kind, s: State, a: Action, b: Action, c: Action)
    requires Enabled(kind, s, a) && Enabled(kind, Next(kind, s, a), b)
    requires Enabled(kind, Next(kind, Next(kind, s, a), b), c)
    ensures Runnable(kind, s, [a, b, c])
    ensures Execute(kind, s, [a, b, c]) == Next(kind, Next(kind, Next(kind, s, a), b), c)
  {
    hide Next;
    var t := Next(kind, s, a);
    var u := Next(kind, t, b);
    assert [a, b, c][1..] == [b, c] && [b, c][1..] == [c] && [c][1..] == [];
    assert Runnable(kind, Next(kind, u, c), []) && Runnable(kind, u, [c]) && Runnable(kind, t, [b, c]);
    assert Execute(kind, u, [c]) == Next(kind, u, c);
    assert Execute(kind, t, [b, c]) == Execute(kind, u, [c]);
  }

  /** With no call open at all, one request of the server's own ends the MCP client. */
  lemma ServerRequestEndsMcp(n: int)
    requires n > 0
    ensures var actions := [PeerSends(ServerMessage(Some(n))), ReaderReads, ReaderFails];
      Runnable(Mcp, INITIAL, actions) && Execute(Mcp, INITIAL, actions).table.failure == Some(NotPending)
  {
    Three(Mcp, INITIAL, PeerSends(ServerMessage(Some(n))), ReaderReads, ReaderFails);
  }
}
