/**
 What the counters of the telemetry queue count (internal/observability/otel.go), told by the steps of
 the run alone.
 */
module TelemetryCounts {
  import opened Telemetry

  /** The steps that count: a batch accepted, an export that succeeded, one that failed. */
  datatype Event = Took | Delivered | LostInExport

  predicate Is(a: Action, event: Event) {
    match event
    case Took => a.Accept?
    case Delivered => a == WorkerExports(true)
    case LostInExport => a == WorkerExports(false)
  }

  /** How often such a step happened in the run. */
  function Count(capacity: nat, s: State, actions: seq<Action>, event: Event): nat
    decreases |actions|
  {
    if actions == [] then 0
    else if !Enabled(capacity, s, actions[0]) then Count(capacity, s, actions[1..], event)
    else
      (if Is(actions[0], event) then 1 else 0) +
      Count(capacity, Next(capacity, s, actions[0]), actions[1..], event)
  }

  /** How many batches a step drops: one that finds the queue closed, or full. */
  function DropsBy(capacity: nat, s: State, a: Action): nat {
    if (a.ObserverLocks? && s.closed) || (a.ObserverSends? && Buffered(s) >= capacity) then 1 else 0
  }

  function Drops(capacity: nat, s: State, actions: seq<Action>): nat
    decreases |actions|
  {
    if actions == [] then 0
    else if !Enabled(capacity, s, actions[0]) then Drops(capacity, s, actions[1..])
    else DropsBy(capacity, s, actions[0]) + Drops(capacity, Next(capacity, s, actions[0]), actions[1..])
  }

  lemma StepCounts(capacity: nat, s: State, a: Action)
    requires Enabled(capacity, s, a)
    ensures var t := Next(capacity, s, a);
      && t.accepted == s.accepted + (if Is(a, Took) then 1 else 0)
      && t.exported == s.exported + (if Is(a, Delivered) then 1 else 0)
      && t.failures == s.failures + (if Is(a, LostInExport) then 1 else 0)
      && t.dropped == s.dropped + DropsBy(capacity, s, a)
  {
  }

  /** In every run the counters are the numbers of batches accepted, of exports that succeeded, of exports
      that failed, and of batches that found the queue closed or full. */
  lemma {:induction false} CountersCount(capacity: nat, s: State, actions: seq<Action>)
    ensures var t := Execute(capacity, s, actions);
      && t.accepted == s.accepted + Count(capacity, s, actions, Took)
      && t.exported == s.exported + Count(capacity, s, actions, Delivered)
      && t.failures == s.failures + Count(capacity, s, actions, LostInExport)
      && t.dropped == s.dropped + Drops(capacity, s, actions)
    decreases |actions|
  {
    hide Next, Enabled, Is, DropsBy;
    if actions != [] {
      if Enabled(capacity, s, actions[0]) {
        StepCounts(capacity, s, actions[0]);
        CountersCount(capacity, Next(capacity, s, actions[0]), actions[1..]);
      } else {
        CountersCount(capacity, s, actions[1..]);
      }
    }
  }

  /** Exports happen one after the other in the order the batches were queued, and the outcome kept for a
      batch is that of its own export. */
  lemma ExportInOrder(capacity: nat, s: State, ok: bool)
    requires s.worker.Idle? && s.taken < |s.sent| && s.sent[s.taken].Data?
    ensures Enabled(capacity, s, WorkerTakes) && Enabled(capacity, Next(capacity, s, WorkerTakes), WorkerExports(ok))
    ensures var t := Next(capacity, Next(capacity, s, WorkerTakes), WorkerExports(ok));
      && t.worker.Idle? && t.taken == s.taken + 1 && t.sent == s.sent
      && t.outcomes == s.outcomes[s.taken := ok]
  {
  }
}
