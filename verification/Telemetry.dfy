/**
 The telemetry queue (internal/observability/otel.go) with an exporter set, as a transition system
 whose steps are the atomic actions of observers, flushers, the shutdown and the export worker.
 Observers and flushers hold the read lock while they use the queue; closing it takes the write
 lock. The content of a batch does not matter here.
 */
module Telemetry {
  datatype Envelope = Data(observer: nat) | Barrier(flusher: nat)

  /** One call of Observe or Flush. */
  datatype Client =
    | Counted                              // the batch is counted as accepted; no lock yet
    | Enqueueing                           // holds the read lock and found the queue open
    | Observed
    | FlushCalled(mark: nat)               // mark: how many envelopes had been sent at the call
    | FlushLocked(mark: nat)               // holds the read lock and found the queue open
    | FlushWaiting(mark: nat, pos: nat)    // holds the read lock; pos: where its barrier went
    | Flushed(mark: nat, pos: nat)         // returned because its barrier was reached
    | FlushFoundClosed
    | FlushCancelled

  datatype Worker = Idle | Exporting(pos: nat) | Stopped

  datatype Shutdown = NotCalled | Flushing(client: nat) | QueueClosed | Returned

  datatype State = State(
    sent: seq<Envelope>,            // everything ever sent on the queue
    taken: nat,                     // how much of it the worker has received
    outcomes: map<nat, bool>,       // how the export of the batch at a position ended
    closed: bool,
    worker: Worker,
    clients: seq<Client>,
    shutdown: Shutdown,
    accepted: nat, exported: nat, failures: nat, dropped: nat)

  const INITIAL := State([], 0, map[], false, Idle, [], NotCalled, 0, 0, 0, 0)

  datatype Action =
    | Accept
    | ObserverLocks(i: nat)
    | ObserverSends(i: nat)
    | CallFlush
    | FlusherLocks(i: nat)
    | FlusherSends(i: nat)
    | FlusherCancels(i: nat)
    | FlusherReturns(i: nat)
    | WorkerTakes
    | WorkerExports(ok: bool)
    | WorkerStops
    | CallShutdown
    | CloseQueue
    | ShutdownReturns

  predicate IsClient(s: State, i: nat) { i < |s.clients| }

  predicate HoldsReadLock(c: Client) {
    c.Enqueueing? || c.FlushLocked? || c.FlushWaiting?
  }

  predicate NobodyReads(s: State) {
    forall i :: 0 <= i < |s.clients| ==> !HoldsReadLock(s.clients[i])
  }

  predicate FlushOver(c: Client) {
    c.Flushed? || c.FlushFoundClosed? || c.FlushCancelled?
  }

  /** How many envelopes are in the channel's buffer. */
  function Buffered(s: State): int { |s.sent| - s.taken }

  predicate Enabled(capacity: nat, s: State, a: Action) {
    match a
    case Accept => true
    case ObserverLocks(i) => IsClient(s, i) && s.clients[i].Counted?
    case ObserverSends(i) => IsClient(s, i) && s.clients[i].Enqueueing?
    case CallFlush => true
    case FlusherLocks(i) => IsClient(s, i) && s.clients[i].FlushCalled?
    case FlusherSends(i) => IsClient(s, i) && s.clients[i].FlushLocked? && Buffered(s) < capacity
    case FlusherCancels(i) => IsClient(s, i) && (s.clients[i].FlushLocked? || s.clients[i].FlushWaiting?)
    case FlusherReturns(i) => IsClient(s, i) && s.clients[i].FlushWaiting? && s.clients[i].pos < s.taken
    case WorkerTakes => s.worker.Idle? && s.taken < |s.sent|
    case WorkerExports(_) => s.worker.Exporting?
    case WorkerStops => s.worker.Idle? && s.taken == |s.sent| && s.closed
    case CallShutdown => s.shutdown.NotCalled?
    case CloseQueue => s.shutdown.Flushing? && IsClient(s, s.shutdown.client) &&
        FlushOver(s.clients[s.shutdown.client]) && NobodyReads(s)
    case ShutdownReturns => s.shutdown.QueueClosed? && s.worker.Stopped?
  }

  function SetClient(s: State, i: nat, c: Client): State
    requires IsClient(s, i)
  {
    s.(clients := s.clients[i := c])
  }

  /** Observe after it got the read lock: a closed queue drops the batch. */
  function ObserverLocked(s: State, i: nat): State
    requires IsClient(s, i)
  {
    if s.closed then SetClient(s, i, Observed).(dropped := s.dropped + 1) else SetClient(s, i, Enqueueing)
  }

  /** The non-blocking send of Observe: a full queue drops the batch. */
  function ObserverSent(capacity: nat, s: State, i: nat): State
    requires IsClient(s, i)
  {
    if Buffered(s) < capacity then SetClient(s, i, Observed).(sent := s.sent + [Data(i)])
    else SetClient(s, i, Observed).(dropped := s.dropped + 1)
  }

  function WorkerTook(s: State): State
    requires s.taken < |s.sent|
  {
    if s.sent[s.taken].Barrier? then s.(taken := s.taken + 1)
    else s.(taken := s.taken + 1, worker := Exporting(s.taken))
  }

  function WorkerExported(s: State, ok: bool): State
    requires s.worker.Exporting?
  {
    var t := s.(worker := Idle, outcomes := s.outcomes[s.worker.pos := ok]);
    if ok then t.(exported := s.exported + 1) else t.(failures := s.failures + 1)
  }

  function Next(capacity: nat, s: State, a: Action): State
    requires Enabled(capacity, s, a)
  {
    match a
    case Accept => s.(clients := s.clients + [Counted], accepted := s.accepted + 1)
    case ObserverLocks(i) => ObserverLocked(s, i)
    case ObserverSends(i) => ObserverSent(capacity, s, i)
    case CallFlush => s.(clients := s.clients + [FlushCalled(|s.sent|)])
    case FlusherLocks(i) =>
      SetClient(s, i, if s.closed then FlushFoundClosed else FlushLocked(s.clients[i].mark))
    case FlusherSends(i) =>
      SetClient(s, i, FlushWaiting(s.clients[i].mark, |s.sent|)).(sent := s.sent + [Barrier(i)])
    case FlusherCancels(i) => SetClient(s, i, FlushCancelled)
    case FlusherReturns(i) => SetClient(s, i, Flushed(s.clients[i].mark, s.clients[i].pos))
    case WorkerTakes => WorkerTook(s)
    case WorkerExports(ok) => WorkerExported(s, ok)
    case WorkerStops => s.(worker := Stopped)
    case CallShutdown => s.(clients := s.clients + [FlushCalled(|s.sent|)], shutdown := Flushing(|s.clients|))
    case CloseQueue => s.(closed := true, shutdown := QueueClosed)
    case ShutdownReturns => s.(shutdown := Returned)
  }

  /** A run: actions that are not enabled in their turn do not happen. */
  function Execute(capacity: nat, s: State, actions: seq<Action>): State
    decreases |actions|
  {
    if actions == [] then s
    else Execute(capacity, if Enabled(capacity, s, actions[0]) then Next(capacity, s, actions[0]) else s, actions[1..])
  }

  // ------------------------------------------------------------ counting

  function CountData(envelopes: seq<Envelope>): nat {
    if envelopes == [] then 0
    else CountData(envelopes[..|envelopes| - 1]) + if envelopes[|envelopes| - 1].Data? then 1 else 0
  }

  predicate MidEnqueue(c: Client) {
    c.Counted? || c.Enqueueing?
  }

  function CountMid(clients: seq<Client>): nat {
    if clients == [] then 0
    else CountMid(clients[..|clients| - 1]) + if MidEnqueue(clients[|clients| - 1]) then 1 else 0
  }

  function One(b: bool): nat { if b then 1 else 0 }

  lemma MidAppend(clients: seq<Client>, c: Client)
    ensures CountMid(clients + [c]) == CountMid(clients) + One(MidEnqueue(c))
  {
    assert (clients + [c])[..|clients|] == clients;
  }

  lemma {:induction false} MidUpdate(clients: seq<Client>, i: nat, c: Client)
    requires i < |clients|
    ensures CountMid(clients[i := c]) + One(MidEnqueue(clients[i])) == CountMid(clients) + One(MidEnqueue(c))
  {
    var last := |clients| - 1;
    if i == last {
      assert clients[i := c][..last] == clients[..last];
    } else {
      assert clients[i := c][..last] == clients[..last][i := c];
      MidUpdate(clients[..last], i, c);
    }
  }

  lemma {:induction false} DataTail(sent: seq<Envelope>, taken: nat, e: Envelope)
    requires taken <= |sent|
    ensures CountData((sent + [e])[taken..]) == CountData(sent[taken..]) + One(e.Data?)
  {
    assert (sent + [e])[taken..] == sent[taken..] + [e];
    assert (sent[taken..] + [e])[..|sent| - taken] == sent[taken..];
  }

  lemma {:induction false} DataHead(envelopes: seq<Envelope>)
    requires envelopes != []
    ensures CountData(envelopes) == One(envelopes[0].Data?) + CountData(envelopes[1..])
  {
    var last := |envelopes| - 1;
    if last > 0 {
      assert envelopes[..last][1..] == envelopes[1..][..last - 1];
      DataHead(envelopes[..last]);
    }
  }

  // ------------------------------------------------------------ invariants

  /** Every accepted batch is somewhere, and nowhere twice. */
  ghost predicate Conserved(s: State) {
    && s.taken <= |s.sent|
    && s.accepted ==
       s.exported + s.failures + s.dropped +
       CountData(s.sent[s.taken..]) + One(s.worker.Exporting?) + CountMid(s.clients)
    && s.exported + s.failures == |s.outcomes|
  }

  /** A closed queue has no sender, and a stopped worker left nothing behind. */
  ghost predicate ClosedIsQuiet(s: State) {
    && (s.closed ==> NobodyReads(s))
    && (s.worker.Stopped? ==> s.closed && s.taken == |s.sent|)
    && (s.shutdown.Returned? ==> s.worker.Stopped?)
    && (s.shutdown.QueueClosed? ==> s.closed)
  }

  /** Every batch received so far is exported or failed, but for the one being exported. */
  ghost predicate Settled(s: State) {
    && s.taken <= |s.sent|
    && (forall p :: p in s.outcomes ==> p < s.taken && s.sent[p].Data?)
    && (forall p :: 0 <= p < s.taken && s.sent[p].Data? && p !in s.outcomes ==> s.worker == Exporting(p))
    && (s.worker.Exporting? ==>
        s.worker.pos + 1 == s.taken && s.worker.pos !in s.outcomes && s.sent[s.worker.pos].Data?)
  }

  ghost predicate AllSettled(s: State, pos: nat)
    requires pos <= |s.sent|
  {
    forall p :: 0 <= p < pos && s.sent[p].Data? ==> p in s.outcomes
  }

  /** A flusher's barrier went in after everything sent when Flush was called; once Flush returned on
      it, everything sent before the barrier is settled. */
  ghost predicate ClientFine(s: State, c: Client) {
    match c
    case FlushCalled(mark) => mark <= |s.sent|
    case FlushLocked(mark) => mark <= |s.sent|
    case FlushWaiting(mark, pos) => mark <= pos < |s.sent| && s.sent[pos].Barrier?
    case Flushed(mark, pos) => mark <= pos < s.taken && s.taken <= |s.sent| && s.sent[pos].Barrier? &&
        AllSettled(s, pos)
    case _ => true
  }

  ghost predicate FlushesHold(s: State) {
    forall i :: 0 <= i < |s.clients| ==> ClientFine(s, s.clients[i])
  }

  ghost predicate Inv(s: State) {
    Conserved(s) && ClosedIsQuiet(s) && Settled(s) && FlushesHold(s)
  }

  lemma SendConserves(capacity: nat, s: State, a: Action)
    requires Inv(s) && Enabled(capacity, s, a) && (a.ObserverSends? || a.FlusherSends?)
    ensures Conserved(Next(capacity, s, a))
  {
    var t := Next(capacity, s, a);
    MidUpdate(s.clients, a.i, t.clients[a.i]);
    DataTail(s.sent, s.taken, if a.ObserverSends? then Data(a.i) else Barrier(a.i));
  }

  lemma WorkerConserves(capacity: nat, s: State, a: Action)
    requires Inv(s) && Enabled(capacity, s, a) && (a.WorkerTakes? || a.WorkerExports? || a.WorkerStops?)
    ensures Conserved(Next(capacity, s, a))
  {
    if a.WorkerTakes? {
      DataHead(s.sent[s.taken..]);
      assert s.sent[s.taken..][1..] == s.sent[s.taken + 1..];
    } else if a.WorkerExports? {
      assert s.outcomes[s.worker.pos := a.ok].Keys == s.outcomes.Keys + {s.worker.pos};
      assert |s.outcomes[s.worker.pos := a.ok]| == |s.outcomes[s.worker.pos := a.ok].Keys| &&
          |s.outcomes| == |s.outcomes.Keys|;
    }
  }

  lemma LockConserves(capacity: nat, s: State, a: Action)
    requires Inv(s) && Enabled(capacity, s, a)
    requires a.ObserverLocks? || a.FlusherLocks? || a.FlusherCancels? || a.FlusherReturns?
    ensures Conserved(Next(capacity, s, a))
  {
    MidUpdate(s.clients, a.i, Next(capacity, s, a).clients[a.i]);
  }

  lemma CallConserves(capacity: nat, s: State, a: Action)
    requires Inv(s) && Enabled(capacity, s, a)
    requires a.Accept? || a.CallFlush? || a.CallShutdown? || a.CloseQueue? || a.ShutdownReturns?
    ensures Conserved(Next(capacity, s, a))
  {
    MidAppend(s.clients, Counted);
    MidAppend(s.clients, FlushCalled(|s.sent|));
  }

  lemma NextConserves(capacity: nat, s: State, a: Action)
    requires Inv(s) && Enabled(capacity, s, a)
    ensures Conserved(Next(capacity, s, a))
  {
    if a.ObserverSends? || a.FlusherSends? {
      SendConserves(capacity, s, a);
    } else if a.WorkerTakes? || a.WorkerExports? || a.WorkerStops? {
      WorkerConserves(capacity, s, a);
    } else if a.ObserverLocks? || a.FlusherLocks? || a.FlusherCancels? || a.FlusherReturns? {
      LockConserves(capacity, s, a);
    } else {
      CallConserves(capacity, s, a);
    }
  }

  lemma NextStaysQuiet(capacity: nat, s: State, a: Action)
    requires Inv(s) && Enabled(capacity, s, a)
    ensures ClosedIsQuiet(Next(capacity, s, a))
  {
  }

  lemma NextSettles(capacity: nat, s: State, a: Action)
    requires Inv(s) && Enabled(capacity, s, a)
    ensures Settled(Next(capacity, s, a))
  {
    hide CountData, CountMid, Conserved, FlushesHold, ClosedIsQuiet;
  }

  /** Sending, receiving and finishing exports keep what was promised to a flusher. */
  lemma FineStays(s: State, t: State, c: Client)
    requires ClientFine(s, c) && s.sent <= t.sent && s.taken <= t.taken <= |t.sent|
    requires s.outcomes.Keys <= t.outcomes.Keys
    ensures ClientFine(t, c)
  {
  }

  lemma NextGrows(capacity: nat, s: State, a: Action)
    requires Inv(s) && Enabled(capacity, s, a)
    ensures var t := Next(capacity, s, a);
      s.sent <= t.sent && s.taken <= t.taken <= |t.sent| && s.outcomes.Keys <= t.outcomes.Keys
  {
  }

  lemma ChangedClientIsFine(capacity: nat, s: State, a: Action, i: nat)
    requires Inv(s) && Enabled(capacity, s, a) && i < |Next(capacity, s, a).clients|
    requires i < |s.clients| ==> Next(capacity, s, a).clients[i] != s.clients[i]
    ensures ClientFine(Next(capacity, s, a), Next(capacity, s, a).clients[i])
  {
    if i < |s.clients| {
      assert ClientFine(s, s.clients[i]);
    }
  }

  lemma NextKeepsFlushes(capacity: nat, s: State, a: Action)
    requires Inv(s) && Enabled(capacity, s, a)
    ensures FlushesHold(Next(capacity, s, a))
  {
    var t := Next(capacity, s, a);
    NextGrows(capacity, s, a);
    forall i | 0 <= i < |t.clients|
      ensures ClientFine(t, t.clients[i])
    {
      if i < |s.clients| && t.clients[i] == s.clients[i] {
        FineStays(s, t, s.clients[i]);
      } else {
        ChangedClientIsFine(capacity, s, a, i);
      }
    }
  }

  lemma NextKeepsInv(capacity: nat, s: State, a: Action)
    requires Inv(s) && Enabled(capacity, s, a)
    ensures Inv(Next(capacity, s, a))
  {
    NextConserves(capacity, s, a);
    NextStaysQuiet(capacity, s, a);
    NextSettles(capacity, s, a);
    NextKeepsFlushes(capacity, s, a);
  }

  lemma {:induction false} ExecuteKeepsInv(capacity: nat, s: State, actions: seq<Action>)
    requires Inv(s)
    ensures Inv(Execute(capacity, s, actions))
    decreases |actions|
  {
    if actions != [] {
      if Enabled(capacity, s, actions[0]) {
        NextKeepsInv(capacity, s, actions[0]);
        ExecuteKeepsInv(capacity, Next(capacity, s, actions[0]), actions[1..]);
      } else {
        ExecuteKeepsInv(capacity, s, actions[1..]);
      }
    }
  }

  // ------------------------------------------------------------ what every interleaving keeps

  ghost predicate Reachable(capacity: nat, s: State) {
    exists actions :: s == Execute(capacity, INITIAL, actions)
  }

  lemma EmptyInv(s: State)
    requires s.sent == [] && s.clients == [] && s.taken == 0 && s.outcomes.Keys == {} && !s.closed
    requires s.worker.Idle? && s.shutdown.NotCalled? && s.accepted == s.exported == s.failures == s.dropped == 0
    ensures Inv(s)
  {
    assert s.sent[s.taken..] == [];
    assert |s.outcomes| == |s.outcomes.Keys|;
  }

  lemma InitialInv()
    ensures Inv(INITIAL)
  {
    EmptyInv(INITIAL);
  }

  lemma ReachableKeepsInv(capacity: nat, s: State)
    requires Reachable(capacity, s)
    ensures Inv(s)
  {
    var actions :| s == Execute(capacity, INITIAL, actions);
    InitialInv();
    ExecuteKeepsInv(capacity, INITIAL, actions);
  }

  /** After any interleaving: accepted batches are exported, failed, dropped, queued, in flight or mid
      enqueue, each exactly once. */
  lemma NothingIsLost(capacity: nat, s: State)
    requires Reachable(capacity, s)
    ensures s.taken <= |s.sent|
    ensures s.accepted ==
      s.exported + s.failures + s.dropped +
       CountData(s.sent[s.taken..]) + One(s.worker.Exporting?) + CountMid(s.clients)
  {
    ReachableKeepsInv(capacity, s);
  }

  /** Nothing is ever sent on the closed queue: whoever is about to send finds it open. */
  lemma NoSendAfterClose(capacity: nat, s: State, i: nat)
    requires Reachable(capacity, s)
    requires Enabled(capacity, s, ObserverSends(i)) || Enabled(capacity, s, FlusherSends(i))
    ensures !s.closed
  {
    ReachableKeepsInv(capacity, s);
  }

  /** When a Flush has returned on its barrier, every batch that had been enqueued when it was called,
      and every one enqueued before its barrier, was exported or failed. */
  lemma FlushWaitsForEarlierBatches(capacity: nat, s: State, i: nat)
    requires Reachable(capacity, s) && i < |s.clients| && s.clients[i].Flushed?
    ensures s.clients[i].mark <= s.clients[i].pos < |s.sent|
    ensures forall p :: 0 <= p < s.clients[i].pos && s.sent[p].Data? ==> p in s.outcomes
  {
    ReachableKeepsInv(capacity, s);
    assert ClientFine(s, s.clients[i]);
  }

  lemma {:induction false} NoneMid(clients: seq<Client>)
    requires forall i :: 0 <= i < |clients| ==> !MidEnqueue(clients[i])
    ensures CountMid(clients) == 0
  {
    if clients != [] {
      NoneMid(clients[..|clients| - 1]);
    }
  }

  /** After Shutdown returned, once every Observe has, the counters add up. */
  lemma ShutdownSettlesEverything(capacity: nat, s: State)
    requires Reachable(capacity, s) && s.shutdown.Returned?
    requires forall i :: 0 <= i < |s.clients| ==> !MidEnqueue(s.clients[i])
    ensures s.accepted == s.exported + s.failures + s.dropped
    ensures forall p :: 0 <= p < |s.sent| && s.sent[p].Data? ==> p in s.outcomes
  {
    ReachableKeepsInv(capacity, s);
    NoneMid(s.clients);
  }
}
