/**
 What the results of tool calls hold (internal/agent/engine.go), told by what the tools return alone.
 */
module ToolResults {
  import opened ToolBatches

  /** The call ran in this world and left that one, and the result is what its tool gave: the content and
      the error flag it returned, or its failure as an error; without a runner, an error and no effect. */
  predicate Ran(t: Tools, w: World, call: Call, result: ToolResult, after: World) {
    && result.callId == call.id
    && (!t.hasRunner ==> after == w && result.isError && result.content == "tool runner is unavailable")
    && (t.hasRunner ==>
          var (left, outcome) := t.run(w, call.name, call.arguments);
          && after == left
          && (outcome.Failed? ==> result.isError && result.content == outcome.message)
          && (outcome.Returned? ==> result.isError == outcome.isError && result.content == outcome.content))
  }

  lemma ExecuteRuns(t: Tools, w: World, call: Call)
    ensures Ran(t, w, call, Execute(t, w, call).1, Execute(t, w, call).0)
  {
  }

  /** The calls ran in this order, each in the world the one before had left. */
  ghost predicate RanInTurn(t: Tools, calls: seq<Call>, order: seq<nat>, worlds: seq<World>, results: seq<ToolResult>) {
    && |results| == |calls| && |worlds| == |order| + 1
    && forall p :: 0 <= p < |order| ==>
         order[p] < |calls| && Ran(t, worlds[p], calls[order[p]], results[order[p]], worlds[p + 1])
  }

  /** The results come from running every call once, in an order that the batches allow. */
  ghost predicate FromTools(t: Tools, calls: seq<Call>, w: World, after: World, results: seq<ToolResult>) {
    exists order, worlds ::
      && Schedule(t, calls, order) && RanInTurn(t, calls, order, worlds, results)
      && worlds[0] == w && worlds[|worlds| - 1] == after
  }

  function Worlds(t: Tools, calls: seq<Call>, order: seq<nat>, w: World): (worlds: seq<World>)
    requires forall p :: 0 <= p < |order| ==> order[p] < |calls|
    ensures |worlds| == |order| + 1 && worlds[0] == w
    decreases |order|
  {
    if order == [] then [w]
    else [w] + Worlds(t, calls, order[1..], Execute(t, w, calls[order[0]]).0)
  }

  lemma {:induction false} SlotStays(t: Tools, calls: seq<Call>, order: seq<nat>, w: World, slots: seq<ToolResult>,
      k: nat)
    requires |slots| == |calls| && (forall p :: 0 <= p < |order| ==> order[p] < |calls|) && k < |calls| && k !in order
    ensures |RunInOrder(t, calls, order, w, slots).1| == |calls|
    ensures RunInOrder(t, calls, order, w, slots).1[k] == slots[k]
    decreases |order|
  {
    hide Execute;
    if order != [] {
      var (after, result) := Execute(t, w, calls[order[0]]);
      assert order == [order[0]] + order[1..];
      SlotStays(t, calls, order[1..], after, slots[order[0] := result], k);
    }
  }

  lemma {:induction false} OrderRuns(t: Tools, calls: seq<Call>, order: seq<nat>, w: World, slots: seq<ToolResult>)
    requires |slots| == |calls| && (forall p :: 0 <= p < |order| ==> order[p] < |calls|)
    requires forall p, q :: 0 <= p < q < |order| ==> order[p] != order[q]
    ensures var (after, done) := RunInOrder(t, calls, order, w, slots);
      && RanInTurn(t, calls, order, Worlds(t, calls, order, w), done)
      && Worlds(t, calls, order, w)[|order|] == after
    decreases |order|
  {
    hide Execute, Ran;
    if order != [] {
      var k, rest := order[0], order[1..];
      var (after, result) := Execute(t, w, calls[k]);
      ExecuteRuns(t, w, calls[k]);
      OrderRuns(t, calls, rest, after, slots[k := result]);
      SlotStays(t, calls, rest, after, slots[k := result], k);
      var worlds, done := Worlds(t, calls, order, w), RunInOrder(t, calls, order, w, slots).1;
      assert worlds == [w] + Worlds(t, calls, rest, after);
      forall p | 0 <= p < |order|
        ensures Ran(t, worlds[p], calls[order[p]], done[order[p]], worlds[p + 1])
      {
        if p > 0 {
          assert order[p] == rest[p - 1] && worlds[p] == Worlds(t, calls, rest, after)[p - 1];
          assert Ran(t, Worlds(t, calls, rest, after)[p - 1], calls[rest[p - 1]], done[rest[p - 1]],
                     Worlds(t, calls, rest, after)[p]);
        }
      }
    }
  }

  lemma WorldsEnd(t: Tools, calls: seq<Call>, order: seq<nat>, w: World)
    requires forall p :: 0 <= p < |order| ==> order[p] < |calls|
    ensures |Worlds(t, calls, order, w)| == |order| + 1 && Worlds(t, calls, order, w)[0] == w
  {
  }

  /** Under every schedule, whatever the tools do to the world, each result holds what its tool gave for
      the world its call saw, and that world is what the calls scheduled before had left. */
  lemma ResultsComeFromTools(t: Tools, calls: seq<Call>, order: seq<nat>, w: World)
    requires Schedule(t, calls, order)
    ensures var (after, results) := RunInOrder(t, calls, order, w, Empty(|calls|));
      FromTools(t, calls, w, after, results)
  {
    hide RunInOrder, RanInTurn;
    OrderRuns(t, calls, order, w, Empty(|calls|));
    WorldsEnd(t, calls, order, w);
  }

  /** One after the other: the k-th result is what the k-th tool gave for the world the first k calls had
      left. With read-only tools that is what every schedule gives. */
  lemma SequentialRuns(t: Tools, calls: seq<Call>, w: World, k: nat)
    requires k < |calls|
    ensures WorldAt(t, calls, w, 0) == w && WorldAt(t, calls, w, |calls|) == Sequential(t, calls, w).0
    ensures Ran(t, WorldAt(t, calls, w, k), calls[k], Sequential(t, calls, w).1[k], WorldAt(t, calls, w, k + 1))
  {
    hide Execute, Ran;
    ExecuteRuns(t, WorldAt(t, calls, w, k), calls[k]);
  }
}
