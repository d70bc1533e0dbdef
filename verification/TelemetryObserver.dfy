/**
 The observer object (internal/observability/otel.go). Its methods are the atomic sections of the
 transition system; the ghost state records the run so far, so every property of reachable states
 holds of the counters and the queue here.
 */
module TelemetryObserver {
  import opened Telemetry

  lemma {:induction false} ExecuteSnoc(capacity: nat, s: State, actions: seq<Action>, a: Action)
    requires Enabled(capacity, Execute(capacity, s, actions), a)
    ensures Execute(capacity, s, actions + [a]) == Next(capacity, Execute(capacity, s, actions), a)
    decreases |actions|
  {
    if actions == [] {
      assert [] + [a] == [a] && [a][1..] == [];
    } else {
      assert (actions + [a])[1..] == actions[1..] + [a];
      ExecuteSnoc(capacity, if Enabled(capacity, s, actions[0]) then Next(capacity, s, actions[0])
          else s, actions[1..], a);
    }
  }

  lemma NextIsReachable(capacity: nat, s: State, a: Action)
    requires Reachable(capacity, s) && Enabled(capacity, s, a)
    ensures Reachable(capacity, Next(capacity, s, a))
  {
    var actions :| s == Execute(capacity, INITIAL, actions);
    ExecuteSnoc(capacity, INITIAL, actions, a);
    assert Next(capacity, s, a) == Execute(capacity, INITIAL, actions + [a]);
  }

  lemma StartIsReachable(capacity: nat)
    ensures Reachable(capacity, INITIAL)
  {
    assert Execute(capacity, INITIAL, []) == INITIAL;
  }

  class Observer {
    const capacity: nat
    var queue: seq<Envelope>
    var closed: bool
    /** Where the calls of Observe and Flush stand; the read lock is what some of them hold. */
    var clients: seq<Client>
    /** How many envelopes were ever sent on the queue. */
    var sent: nat
    var shutdownStarted: bool
    var accepted: nat
    var exported: nat
    var failures: nat
    var dropped: nat
    ghost var s: State

    ghost predicate Valid()
      reads this
    {
      && capacity > 0 && Reachable(capacity, s)
      && s.taken <= |s.sent| && queue == s.sent[s.taken..] && closed == s.closed && clients == s.clients &&
          sent == |s.sent|
      && accepted == s.accepted && exported == s.exported && failures == s.failures && dropped == s.dropped
      && (shutdownStarted <==> !s.shutdown.NotCalled?)
    }

    constructor (capacity: nat)
      requires capacity > 0
      ensures Valid() && s == INITIAL && this.capacity == capacity
    {
      this.capacity, shutdownStarted := capacity, false;
      queue, closed, clients, sent := [], false, [], 0;
      accepted, exported, failures, dropped := 0, 0, 0, 0;
      s := INITIAL;
      StartIsReachable(capacity);
    }

    /** The recorded run takes one more step. */
    ghost method Advance(a: Action)
      requires Reachable(capacity, s) && Enabled(capacity, s, a)
      modifies `s
      ensures s == Next(capacity, old(s), a) && Reachable(capacity, s)
    {
      NextIsReachable(capacity, s, a);
      s := Next(capacity, s, a);
    }

    /** accepted.Add(1) */
    method Count() returns (i: nat)
      requires Valid()
      modifies `accepted, `clients, `s
      ensures Valid() && i == |old(s).clients| && s == Next(capacity, old(s), Accept)
    {
      i := |clients|;
      accepted, clients := accepted + 1, clients + [Counted];
      Advance(Accept);
    }

    /** The send of Observe, under the read lock it holds. */
    method SendBatch(i: nat)
      requires Valid() && i < |s.clients| && s.clients[i].Enqueueing?
      modifies `queue, `sent, `dropped, `clients, `s
      ensures Valid() && s == Next(capacity, old(s), ObserverSends(i))
    {
      if |queue| < capacity {
        queue, sent := queue + [Data(i)], sent + 1;
      } else {
        dropped := dropped + 1;
      }
      clients := clients[i := Observed];
      Advance(ObserverSends(i));
    }

    /** The rest of Observe, from taking the read lock on. */
    method Enqueue(i: nat)
      requires Valid() && i < |s.clients| && s.clients[i].Counted?
      modifies `queue, `sent, `dropped, `clients, `s
      ensures Valid()
      ensures s == var t := Next(capacity, old(s), ObserverLocks(i)); if t.closed then t
          else Next(capacity, t, ObserverSends(i))
    {
      clients := clients[i := if closed then Observed else Enqueueing];
      if closed {
        dropped := dropped + 1;
      }
      Advance(ObserverLocks(i));
      if !closed {
        SendBatch(i);
      }
    }

    /** A batch left with neither span nor metric is not observed at all. */
    method Observe(empty: bool)
      requires Valid()
      modifies `accepted, `clients, `queue, `sent, `dropped, `s
      ensures Valid() && (empty ==> s == old(s))
      ensures !empty ==> accepted == old(accepted) + 1
      ensures !empty && !old(closed) && |old(queue)| < capacity ==>
          queue == old(queue) + [Data(|old(clients)|)] && dropped == old(dropped)
      ensures !empty && (old(closed) || |old(queue)| >= capacity) ==> queue == old(queue) && dropped == old(dropped) + 1
    {
      if empty {
        return;
      }
      var i := Count();
      Enqueue(i);
    }

    /** One turn of the worker: a barrier is passed, a batch is exported, successfully or not. */
    method ProcessNext(ok: bool)
      requires Valid() && s.worker.Idle? && queue != []
      modifies `queue, `exported, `failures, `s
      ensures Valid() && s.worker.Idle? && queue == old(queue)[1..]
      ensures exported == old(exported) + (if old(queue)[0].Data? && ok then 1 else 0)
      ensures failures == old(failures) + (if old(queue)[0].Data? && !ok then 1 else 0)
      ensures s == var t := Next(capacity, old(s), WorkerTakes); if t.worker.Idle? then t
          else Next(capacity, t, WorkerExports(ok))
    {
      hide Reachable, Execute;
      var envelope := queue[0];
      queue := queue[1..];
      Advance(WorkerTakes);
      if envelope.Barrier? {
        return;
      }
      if ok {
        exported := exported + 1;
      } else {
        failures := failures + 1;
      }
      Advance(WorkerExports(ok));
    }

    /** The worker after the queue was closed: it empties the queue and stops. */
    method Run(exports: nat -> bool)
      requires Valid() && s.worker.Idle? && closed
      modifies `queue, `exported, `failures, `s
      ensures Valid() && s.worker.Stopped? && queue == [] && s.sent == old(s).sent
      ensures s.clients == old(s).clients && s.shutdown == old(s).shutdown
    {
      var n := 0;
      while queue != []
        invariant Valid() && s.worker.Idle? && s.closed && s.sent == old(s).sent
        invariant s.clients == old(s).clients && s.shutdown == old(s).shutdown
        decreases |queue|
      {
        ProcessNext(exports(n));
        n := n + 1;
      }
      Advance(WorkerStops);
    }

    /** The end of Shutdown, its flush being over and no reader left: the queue is closed, the worker
        empties it, and with no Observe under way the counters add up. */
    method Close(exports: nat -> bool)
      requires Valid() && s.worker.Idle? && Enabled(capacity, s, CloseQueue)
      modifies `closed, `queue, `exported, `failures, `s
      ensures Valid() && closed && s.shutdown.Returned? && s.clients == old(s).clients
      ensures (forall i :: 0 <= i < |s.clients| ==> !MidEnqueue(s.clients[i])) ==>
          accepted == exported + failures + dropped
    {
      closed := true;
      Advance(CloseQueue);
      Run(exports);
      Advance(ShutdownReturns);
      if forall i :: 0 <= i < |s.clients| ==> !MidEnqueue(s.clients[i]) {
        ShutdownSettlesEverything(capacity, s);
      }
    }

    /** Lets the worker go on until fewer than `room` envelopes wait. */
    method Process(exports: nat -> bool, room: nat)
      requires Valid() && s.worker.Idle? && room > 0
      modifies `queue, `exported, `failures, `s
      ensures Valid() && s.worker.Idle? && |queue| < room
      ensures s.sent == old(s).sent && s.clients == old(s).clients && s.shutdown == old(s).shutdown &&
          s.closed == old(s).closed
    {
      var n := 0;
      while |queue| >= room
        invariant Valid() && s.worker.Idle?
        invariant s.sent == old(s).sent && s.clients == old(s).clients && s.shutdown == old(s).shutdown &&
            s.closed == old(s).closed
        decreases |queue|
      {
        ProcessNext(exports(n));
        n := n + 1;
      }
    }

    /** A flusher with the read lock waits for room and sends its barrier. */
    method SendBarrier(i: nat, exports: nat -> bool)
      requires Valid() && s.worker.Idle? && i < |s.clients| && s.clients[i].FlushLocked?
      modifies `queue, `sent, `exported, `failures, `clients, `s
      ensures Valid() && s.worker.Idle? && s.closed == old(s).closed && s.shutdown == old(s).shutdown
      ensures s.clients == old(s).clients[i := FlushWaiting(old(s).clients[i].mark, |old(s).sent|)]
      ensures s.sent == old(s).sent + [Barrier(i)]
    {
      Process(exports, capacity);
      clients := clients[i := FlushWaiting(clients[i].mark, sent)];
      queue, sent := queue + [Barrier(i)], sent + 1;
      Advance(FlusherSends(i));
    }

    /** A waiting flusher's barrier has been sent. */
    lemma BarrierIsSent(i: nat)
      requires Valid() && i < |s.clients| && s.clients[i].FlushWaiting?
      ensures s.clients[i].pos < |s.sent|
    {
      ReachableKeepsInv(capacity, s);
      assert ClientFine(s, s.clients[i]);
    }

    /** Flush with the read lock held, for a caller that is not cancelled: wait for room, send the
        barrier, wait until the worker reaches it. */
    method FlushLockedBody(i: nat, exports: nat -> bool)
      requires Valid() && s.worker.Idle? && i < |s.clients| && (s.clients[i].FlushLocked? || s.clients[i].FlushWaiting?)
      modifies `queue, `sent, `exported, `failures, `clients, `s
      ensures Valid() && s.worker.Idle? && s.closed == old(s).closed && s.shutdown == old(s).shutdown
      ensures i < |s.clients| && s.clients == old(s).clients[i := s.clients[i]] && old(s).sent <= s.sent
      ensures s.clients[i].Flushed? && s.clients[i].mark == old(s).clients[i].mark
    {
      if clients[i].FlushLocked? {
        SendBarrier(i, exports);
      }
      Process(exports, 1);
      BarrierIsSent(i);
      clients := clients[i := Flushed(clients[i].mark, clients[i].pos)];
      Advance(FlusherReturns(i));
    }

    method FlushBody(i: nat, exports: nat -> bool)
      requires Valid() && s.worker.Idle? && i < |s.clients| && s.clients[i].FlushCalled?
      modifies `queue, `sent, `exported, `failures, `clients, `s
      ensures Valid() && s.worker.Idle? && s.closed == old(s).closed && s.shutdown == old(s).shutdown
      ensures i < |s.clients| && s.clients == old(s).clients[i := s.clients[i]] && old(s).sent <= s.sent
      ensures FlushOver(s.clients[i])
      ensures !old(closed) ==> s.clients[i].Flushed? && s.clients[i].mark == old(s).clients[i].mark
    {
      clients := clients[i := if closed then FlushFoundClosed else FlushLocked(clients[i].mark)];
      Advance(FlusherLocks(i));
      if !closed {
        FlushLockedBody(i, exports);
      }
    }

    method Flush(exports: nat -> bool)
      requires Valid() && s.worker.Idle?
      modifies `queue, `sent, `exported, `failures, `clients, `s
      ensures Valid() && s.worker.Idle?
      ensures !closed ==> forall p :: 0 <= p < |old(s).sent| && old(s).sent[p].Data? ==> p in s.outcomes
    {
      var i := |clients|;
      clients := clients + [FlushCalled(sent)];
      Advance(CallFlush);
      FlushBody(i, exports);
      if !closed {
        FlushWaitsForEarlierBatches(capacity, s, i);
        assert s.clients[i].mark == |old(s).sent|;
      }
    }

    /** The wait for the write lock: every call that holds the read lock goes on until it gives it up. */
    method AwaitReaders(exports: nat -> bool)
      requires Valid() && s.worker.Idle?
      modifies `queue, `sent, `exported, `failures, `dropped, `clients, `s
      ensures Valid() && s.worker.Idle? && s.closed == old(s).closed && s.shutdown == old(s).shutdown
      ensures NobodyReads(s) && |s.clients| == |old(s).clients|
      ensures forall i :: 0 <= i < |s.clients| && !HoldsReadLock(old(s).clients[i]) ==>
          s.clients[i] == old(s).clients[i]
    {
      hide Reachable, Execute;
      for i := 0 to |clients|
        invariant Valid() && s.worker.Idle? && s.closed == old(s).closed && s.shutdown == old(s).shutdown
        invariant |s.clients| == |old(s).clients| && forall k :: 0 <= k < i ==> !HoldsReadLock(s.clients[k])
        invariant forall k :: 0 <= k < |s.clients| && !HoldsReadLock(old(s).clients[k]) ==>
            s.clients[k] == old(s).clients[k]
        invariant forall k :: i <= k < |s.clients| ==> s.clients[k] == old(s).clients[k]
      {
        if clients[i].Enqueueing? {
          SendBatch(i);
        } else if clients[i].FlushLocked? || clients[i].FlushWaiting? {
          FlushLockedBody(i, exports);
        }
      }
    }

    /** The first Shutdown flushes, waits for every reader, closes the queue and settles the counters;
        later ones find it done. */
    method Shutdown(exports: nat -> bool)
      requires Valid() && s.worker.Idle?
      modifies this
      ensures Valid() && (old(shutdownStarted) ==> s == old(s))
      ensures !old(shutdownStarted) ==> closed && s.shutdown.Returned?
      ensures !old(shutdownStarted) && (forall i :: 0 <= i < |s.clients| ==> !MidEnqueue(s.clients[i])) ==>
        accepted == exported + failures + dropped
    {
      hide Reachable, Execute;
      if shutdownStarted {
        return;
      }
      shutdownStarted := true;
      var i := |clients|;
      clients := clients + [FlushCalled(sent)];
      Advance(CallShutdown);
      FlushBody(i, exports);
      AwaitReaders(exports);
      Close(exports);
    }
  }
}
