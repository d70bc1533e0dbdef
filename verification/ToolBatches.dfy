/**
 Running the tool calls of one assistant message (internal/agent/engine.go): consecutive calls of
 read-only concurrency-safe tools run at the same time, any other call runs alone, and results go to
 the slot of their call. The order in which the calls of a batch get to run is arbitrary.
 */
module ToolBatches {
  /** Whatever tools can observe and change. */
  type World = string

  datatype Call = Call(id: string, name: string, arguments: string)

  datatype ToolResult = ToolResult(callId: string, content: string, isError: bool)

  datatype Outcome = Failed(message: string) | Returned(content: string, isError: bool)

  /** The tool registry and runner. */
  datatype Tools = Tools(hasRunner: bool, run: (World, string, string) -> (World, Outcome), concurrent: string -> bool)

  const NO_RESULT := ToolResult("", "", false)

  function Execute(t: Tools, w: World, call: Call): (World, ToolResult) {
    if !t.hasRunner then (w, ToolResult(call.id, "tool runner is unavailable", true))
    else
      var (after, outcome) := t.run(w, call.name, call.arguments);
      match outcome
      case Failed(message) => (after, ToolResult(call.id, message, true))
      case Returned(content, isError) => (after, ToolResult(call.id, content, isError))
  }

  /** The calls run in the given order, each result put into its call's slot. */
  function RunInOrder(t: Tools, calls: seq<Call>, order: seq<nat>, w: World, slots: seq<ToolResult>): (World,
      seq<ToolResult>)
    requires |slots| == |calls| && forall p :: 0 <= p < |order| ==> order[p] < |calls|
    decreases |order|
  {
    if order == [] then (w, slots)
    else
      var (after, result) := Execute(t, w, calls[order[0]]);
      RunInOrder(t, calls, order[1..], after, slots[order[0] := result])
  }

  function Empty(n: nat): (slots: seq<ToolResult>)
    ensures |slots| == n
  {
    seq(n, _ => NO_RESULT)
  }

  ghost predicate AllConcurrent(t: Tools, calls: seq<Call>, lo: nat, hi: nat) {
    forall k :: lo <= k <= hi && k < |calls| ==> t.concurrent(calls[k].name)
  }

  ghost predicate Orderly(t: Tools, calls: seq<Call>, order: seq<nat>) {
    && (forall p, q :: 0 <= p < q < |order| ==> order[p] != order[q])
    && (forall p, q :: 0 <= p < q < |order| && order[p] > order[q] ==> AllConcurrent(t, calls, order[q], order[p]))
  }

  /** Every call runs once; two calls may swap only inside one stretch of concurrent calls. */
  ghost predicate Schedule(t: Tools, calls: seq<Call>, order: seq<nat>) {
    && (forall p :: 0 <= p < |order| ==> order[p] < |calls|)
    && (forall k: nat :: k < |calls| ==> k in order)
    && Orderly(t, calls, order)
  }

  // ------------------------------------------------------------ results belong to their calls

  lemma {:induction false} SlotsKeepIds(t: Tools, calls: seq<Call>, order: seq<nat>, w: World, slots: seq<ToolResult>)
    requires |slots| == |calls| && forall p :: 0 <= p < |order| ==> order[p] < |calls|
    ensures var done := RunInOrder(t, calls, order, w, slots).1;
      && |done| == |calls|
      && (forall k :: 0 <= k < |calls| && (k in order || slots[k].callId == calls[k].id) ==>
          done[k].callId == calls[k].id)
    decreases |order|
  {
    if order != [] {
      var (after, result) := Execute(t, w, calls[order[0]]);
      SlotsKeepIds(t, calls, order[1..], after, slots[order[0] := result]);
      assert order == [order[0]] + order[1..];
    }
  }

  /** Whatever the schedule and whatever the tools do, the i-th result carries the i-th call's id. */
  lemma ResultsMatchCalls(t: Tools, calls: seq<Call>, order: seq<nat>, w: World)
    requires Schedule(t, calls, order)
    ensures var results := RunInOrder(t, calls, order, w, Empty(|calls|)).1;
      |results| == |calls| && forall k :: 0 <= k < |calls| ==> results[k].callId == calls[k].id
  {
    SlotsKeepIds(t, calls, order, w, Empty(|calls|));
  }

  // ------------------------------------------------------------ batching is invisible

  /** The world after the first n calls have run one after the other. */
  function WorldAt(t: Tools, calls: seq<Call>, w: World, n: nat): World
    requires n <= |calls|
  {
    if n == 0 then w else Execute(t, WorldAt(t, calls, w, n - 1), calls[n - 1]).0
  }

  /** Running the calls strictly one after the other. */
  function Sequential(t: Tools, calls: seq<Call>, w: World): (World, seq<ToolResult>) {
    (WorldAt(t, calls, w, |calls|),
     seq(|calls|, k requires 0 <= k < |calls| => Execute(t, WorldAt(t, calls, w, k), calls[k]).1))
  }

  /** Read-only tools leave the world alone. */
  ghost predicate ReadOnly(t: Tools) {
    forall w, name, arguments :: t.concurrent(name) ==> t.run(w, name, arguments).0 == w
  }

  lemma {:induction false} ConcurrentStretch(t: Tools, calls: seq<Call>, w: World, lo: nat, hi: nat)
    requires ReadOnly(t) && lo <= hi <= |calls|
    requires forall k :: lo <= k < hi ==> t.concurrent(calls[k].name)
    ensures WorldAt(t, calls, w, lo) == WorldAt(t, calls, w, hi)
    decreases hi
  {
    if hi > lo {
      ConcurrentStretch(t, calls, w, lo, hi - 1);
    }
  }

  /** Before the p-th scheduled call runs, the world is what that call would see in turn. */
  ghost function Seen(t: Tools, calls: seq<Call>, order: seq<nat>, w: World, p: nat): World
    requires Schedule(t, calls, order) && p <= |order|
  {
    WorldAt(t, calls, w, if p < |order| then order[p] else |calls|)
  }

  lemma FirstSeesTheStart(t: Tools, calls: seq<Call>, order: seq<nat>, w: World)
    requires ReadOnly(t) && Schedule(t, calls, order)
    ensures Seen(t, calls, order, w, 0) == w
  {
    if order == [] {
      assert |calls| > 0 ==> 0 in order;
    } else {
      forall k: nat | k < order[0]
        ensures t.concurrent(calls[k].name)
      {
        assert k in order;
        var q :| 0 <= q < |order| && order[q] == k;
        assert AllConcurrent(t, calls, order[q], order[0]);
      }
      ConcurrentStretch(t, calls, w, 0, order[0]);
    }
  }

  /** A call standing between two consecutively scheduled ones is concurrent: it has been overtaken. */
  lemma BetweenIsConcurrent(t: Tools, calls: seq<Call>, order: seq<nat>, p: nat, k: nat)
    requires Schedule(t, calls, order) && p < |order| && order[p] < k < |calls|
    requires p + 1 < |order| ==> k < order[p + 1]
    ensures t.concurrent(calls[k].name)
  {
    assert k in order;
    var q :| 0 <= q < |order| && order[q] == k;
    if q < p {
      assert AllConcurrent(t, calls, order[p], order[q]);
    } else {
      assert q > p + 1;
      assert AllConcurrent(t, calls, order[q], order[p + 1]);
    }
  }

  lemma NextSeesTheEffect(t: Tools, calls: seq<Call>, order: seq<nat>, w: World, p: nat)
    requires ReadOnly(t) && Schedule(t, calls, order) && p < |order|
    ensures Seen(t, calls, order, w, p + 1) == WorldAt(t, calls, w, order[p] + 1)
  {
    if p + 1 < |order| && order[p] > order[p + 1] {
      assert AllConcurrent(t, calls, order[p + 1], order[p]);
      ConcurrentStretch(t, calls, w, order[p + 1], order[p] + 1);
    } else {
      var next := if p + 1 < |order| then order[p + 1] else |calls|;
      forall k | order[p] < k < next
        ensures t.concurrent(calls[k].name)
      {
        BetweenIsConcurrent(t, calls, order, p, k);
      }
      ConcurrentStretch(t, calls, w, order[p] + 1, next);
    }
  }

  lemma {:induction false} RestOfTheSchedule(t: Tools, calls: seq<Call>, order: seq<nat>, w: World, p: nat,
      slots: seq<ToolResult>)
    requires ReadOnly(t) && Schedule(t, calls, order) && p <= |order| && |slots| == |calls|
    requires forall q :: 0 <= q < p ==> slots[order[q]] == Sequential(t, calls, w).1[order[q]]
    ensures RunInOrder(t, calls, order[p..], Seen(t, calls, order, w, p), slots) == Sequential(t, calls, w)
    decreases |order| - p
  {
    hide Execute;
    if p == |order| {
      forall k: nat | k < |calls|
        ensures slots[k] == Sequential(t, calls, w).1[k]
      {
        assert k in order;
      }
      assert slots == Sequential(t, calls, w).1;
    } else {
      var (after, result) := Execute(t, Seen(t, calls, order, w, p), calls[order[p]]);
      var filled := slots[order[p] := result];
      NextSeesTheEffect(t, calls, order, w, p);
      assert after == Seen(t, calls, order, w, p + 1);
      assert result == Sequential(t, calls, w).1[order[p]];
      RestOfTheSchedule(t, calls, order, w, p + 1, filled);
      assert order[p..][1..] == order[p + 1..];
    }
  }

  /** When read-only tools leave the world alone, running calls in concurrent batches gives, under
      every schedule, exactly the results and the world of running them one after the other. */
  lemma BatchingIsInvisible(t: Tools, calls: seq<Call>, order: seq<nat>, w: World)
    requires ReadOnly(t) && Schedule(t, calls, order)
    ensures RunInOrder(t, calls, order, w, Empty(|calls|)) == Sequential(t, calls, w)
  {
    FirstSeesTheStart(t, calls, order, w);
    RestOfTheSchedule(t, calls, order, w, 0, Empty(|calls|));
    assert order[0..] == order;
  }

  // ------------------------------------------------------------ the loop

  lemma {:induction false} RunSnoc(t: Tools, calls: seq<Call>, order: seq<nat>, k: nat, w: World,
      slots: seq<ToolResult>)
    requires |slots| == |calls| && (forall p :: 0 <= p < |order| ==> order[p] < |calls|) && k < |calls|
    ensures var (before, done) := RunInOrder(t, calls, order, w, slots);
      && |done| == |calls|
      && RunInOrder(t, calls, order + [k], w, slots) ==
         (Execute(t, before, calls[k]).0, done[k := Execute(t, before, calls[k]).1])
    decreases |order|
  {
    if order == [] {
      assert [] + [k] == [k] && [k][1..] == [];
    } else {
      var (after, result) := Execute(t, w, calls[order[0]]);
      assert (order + [k])[1..] == order[1..] + [k];
      RunSnoc(t, calls, order[1..], k, after, slots[order[0] := result]);
    }
  }

  lemma OrderlySnoc(t: Tools, calls: seq<Call>, order: seq<nat>, k: nat, start: nat)
    requires Orderly(t, calls, order) && k !in order && start <= k
    requires forall p :: 0 <= p < |order| && order[p] > k ==> AllConcurrent(t, calls, k, order[p])
    ensures Orderly(t, calls, order + [k])
  {
    var all := order + [k];
    forall p, q | 0 <= p < q < |all|
      ensures all[p] != all[q]
      ensures all[p] > all[q] ==> AllConcurrent(t, calls, all[q], all[p])
    {
      assert all[p] == order[p];
      if q < |order| {
        assert all[q] == order[q];
      }
    }
  }

  function Indices(lo: nat, hi: nat): (indices: set<nat>)
    requires lo <= hi
    ensures forall k: nat :: k in indices <==> lo <= k < hi
    decreases hi - lo
  {
    if lo == hi then {} else {lo} + Indices(lo + 1, hi)
  }

  /** What has run when everything before `start` and, of the batch, all but `waiting` has. */
  ghost predicate Progress(t: Tools, calls: seq<Call>, order: seq<nat>, start: nat, end: nat, waiting: set<nat>) {
    && start <= end <= |calls|
    && (forall p :: 0 <= p < |order| ==> order[p] < end && order[p] !in waiting)
    && (forall k: nat :: k < end && k !in waiting ==> k in order)
    && (forall k :: k in waiting ==> start <= k < end)
    && (forall k :: start <= k < end ==> t.concurrent(calls[k].name))
    && Orderly(t, calls, order)
  }

  method RunBatch(t: Tools, calls: seq<Call>, start: nat, end: nat, w: World, slots: array<ToolResult>, ghost w0: World,
      ghost before: seq<nat>) returns (after: World, ghost order: seq<nat>)
    requires slots.Length == |calls| && start <= end <= |calls| && Progress(t, calls, before, start, start, {})
    requires forall p :: 0 <= p < |before| ==> before[p] < |calls|
    requires forall k :: start <= k < end ==> t.concurrent(calls[k].name)
    requires (w, slots[..]) == RunInOrder(t, calls, before, w0, Empty(|calls|))
    modifies slots
    ensures Progress(t, calls, order, end, end, {})
    ensures (after, slots[..]) == RunInOrder(t, calls, order, w0, Empty(|calls|))
  {
    after, order := w, before;
    var waiting := Indices(start, end);
    while waiting != {}
      invariant Progress(t, calls, order, start, end, waiting)
      invariant (after, slots[..]) == RunInOrder(t, calls, order, w0, Empty(|calls|))
      decreases |waiting|
    {
      var index :| index in waiting;
      OrderlySnoc(t, calls, order, index, start);
      RunSnoc(t, calls, order, index, w0, Empty(|calls|));
      var ran := Execute(t, after, calls[index]);
      after := ran.0;
      slots[index] := ran.1;
      waiting := waiting - {index};
      order := order + [index];
    }
  }

  method RunAlone(t: Tools, calls: seq<Call>, start: nat, w: World, slots: array<ToolResult>, ghost w0: World,
      ghost before: seq<nat>) returns (after: World, ghost order: seq<nat>)
    requires slots.Length == |calls| && start < |calls| && Progress(t, calls, before, start, start, {})
    requires (w, slots[..]) == RunInOrder(t, calls, before, w0, Empty(|calls|))
    modifies slots
    ensures Progress(t, calls, order, start + 1, start + 1, {})
    ensures (after, slots[..]) == RunInOrder(t, calls, order, w0, Empty(|calls|))
  {
    OrderlySnoc(t, calls, before, start, start);
    RunSnoc(t, calls, before, start, w0, Empty(|calls|));
    var ran := Execute(t, w, calls[start]);
    after := ran.0;
    slots[start] := ran.1;
    order := before + [start];
  }

  method ExecuteToolCalls(t: Tools, calls: seq<Call>, w: World)
    returns (results: seq<ToolResult>, after: World, ghost order: seq<nat>)
    ensures Schedule(t, calls, order)
    ensures (after, results) == RunInOrder(t, calls, order, w, Empty(|calls|))
    ensures |results| == |calls| && forall k :: 0 <= k < |calls| ==> results[k].callId == calls[k].id
    ensures ReadOnly(t) ==> (after, results) == Sequential(t, calls, w)
  {
    var slots := new ToolResult[|calls|](_ => NO_RESULT);
    assert slots[..] == Empty(|calls|);
    after, order := w, [];
    var start := 0;
    while start < |calls|
      invariant Progress(t, calls, order, start, start, {})
      invariant (after, slots[..]) == RunInOrder(t, calls, order, w, Empty(|calls|))
      decreases |calls| - start
    {
      var end := start;
      while end < |calls| && t.concurrent(calls[end].name)
        invariant start <= end <= |calls|
        invariant forall k :: start <= k < end ==> t.concurrent(calls[k].name)
      {
        end := end + 1;
      }
      if end > start {
        after, order := RunBatch(t, calls, start, end, after, slots, w, order);
        start := end;
      } else {
        after, order := RunAlone(t, calls, start, after, slots, w, order);
        start := start + 1;
      }
    }
    results := slots[..];
    ResultsMatchCalls(t, calls, order, w);
    if ReadOnly(t) {
      BatchingIsInvisible(t, calls, order, w);
    }
  }
}
