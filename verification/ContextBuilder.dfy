/**
 Building a provider request from context sources (internal/contextbuilder/builder.go): validating
 the sources, ordering them, spending the budget, and reporting what was left out.
 */
module ContextBuilder {
  import opened Prelude
  import opened Ordering
  import opened ContextBudget

  // ------------------------------------------------------------ validation

  function Trim(s: Source): Source {
    s.(id := TrimSpace(s.id), content := TrimSpace(s.content))
  }

  function TrimAll(sources: seq<Source>): seq<Source> {
    seq(|sources|, i requires 0 <= i < |sources| => Trim(sources[i]))
  }

  predicate Complete(s: Source) {
    s.id != "" && s.kind != "" && s.content != "" && s.id != IDENTITY_ID
  }

  /** Already trimmed sources the builder takes. */
  predicate Acceptable(sources: seq<Source>) {
    && (forall i :: 0 <= i < |sources| ==> Complete(sources[i]))
    && (forall i, j :: 0 <= i < j < |sources| ==> sources[i].id != sources[j].id)
  }

  lemma {:induction false} DistinctByIndex(sources: seq<Source>)
    ensures Distinct(sources) <==> forall i, j :: 0 <= i < j < |sources| ==> sources[i].id != sources[j].id
  {
    if sources != [] {
      var rest := sources[1..];
      DistinctByIndex(rest);
      if sources[0].id in Ids(rest) {
        var i := IdsComeFrom(rest, sources[0].id);
        assert sources[0].id == sources[i + 1].id;
      } else if Distinct(rest) {
        forall i, j | 0 <= i < j < |sources|
          ensures sources[i].id != sources[j].id
        {
          assert sources[j] == rest[j - 1];
          IdsHold(rest, j - 1);
          assert i > 0 ==> sources[i] == rest[i - 1];
        }
      } else {
        var i, j :| 0 <= i < j < |rest| && rest[i].id == rest[j].id;
        assert sources[i + 1].id == sources[j + 1].id;
      }
    }
  }

  // ------------------------------------------------------------ the plan

  function Identity(prompt: string): Source {
    Source(IDENTITY_ID, IDENTITY_KIND, IDENTITY_PRIORITY, true, true, prompt)
  }

  /** The sources of one request, in the order they are presented. */
  function Presented(sources: seq<Source>, prompt: string): seq<Source> {
    Sort(TrimAll(sources) + [Identity(prompt)], InOrder)
  }

  function Entry(s: Source, a: Allocation): Included {
    Included(s, a.rendered, a.tokens, a.truncated)
  }

  function IncludedOf(sources: seq<Source>, m: map<string, Allocation>): seq<Included> {
    if sources == [] then []
    else if sources[0].id in m then [Entry(sources[0], m[sources[0].id])] + IncludedOf(sources[1..], m)
    else IncludedOf(sources[1..], m)
  }

  function NotesOf(sources: seq<Source>, m: map<string, Allocation>): seq<Note> {
    if sources == [] then []
    else if sources[0].id !in m then [Excluded(sources[0])] + NotesOf(sources[1..], m)
    else if m[sources[0].id].truncated then [Truncated(sources[0])] + NotesOf(sources[1..], m)
    else NotesOf(sources[1..], m)
  }

  function Fixed(sv: Services, structured: Option<string>): int {
    match structured
    case None => 0
    case Some(text) => sv.estimate(text)
  }

  /** window, reserved output, and the fixed part (None when it cannot be encoded). */
  datatype Request = Request(window: int, reserved: int, structured: Option<string>, allowOver: bool, prompt: string)

  predicate Limited(q: Request) {
    q.window > 0 && !q.allowOver
  }

  function Remaining(sv: Services, q: Request): int {
    if Limited(q) then q.window - q.reserved - Fixed(sv, q.structured) else -1
  }

  function Build(sv: Services, q: Request, sources: seq<Source>): Result<Plan, BuildError> {
    if !Acceptable(TrimAll(sources)) then Err(InvalidSource)
    else if Limited(q) && Remaining(sv, q) < 0 then Err(BudgetExceeded)
    else
      var presented := Presented(sources, q.prompt);
      match Allocate(sv, presented, Remaining(sv, q))
      case Err(e) => Err(e)
      case Ok((m, _)) =>
        Ok(Plan(IncludedOf(presented, m), NotesOf(presented, m), Fixed(sv, q.structured) + Cost(presented, m)))
  }

  // ------------------------------------------------------------ order

  lemma InOrderRanks()
    ensures Ranks(InOrder)
  {
    forall a, b | InOrder(a, b)
      ensures !InOrder(b, a)
    {
      LessIsTotal(a.id, b.id);
    }
    forall a, b, c | !InOrder(b, a) && !InOrder(c, b)
      ensures !InOrder(c, a)
    {
      if a.priority == b.priority == c.priority {
        LessIsTransitive(a.id, b.id, c.id);
      }
    }
  }

  ghost predicate StrictlyOrdered(sources: seq<Source>) {
    forall i, j :: 0 <= i < j < |sources| ==> InOrder(sources[i], sources[j])
  }

  /** The identity source joins the accepted sources without clashing with any. */
  lemma EverythingIsDistinct(sources: seq<Source>, prompt: string)
    requires Acceptable(TrimAll(sources))
    ensures var all := TrimAll(sources) + [Identity(prompt)];
      forall i, j :: 0 <= i < j < |all| ==> all[i].id != all[j].id
  {
    var trimmed := TrimAll(sources);
    var all := trimmed + [Identity(prompt)];
    forall i, j | 0 <= i < j < |all|
      ensures all[i].id != all[j].id
    {
      assert all[i] == trimmed[i] && Complete(trimmed[i]);
    }
  }

  lemma PermutedIdsStayDistinct(a: seq<Source>, b: seq<Source>)
    requires multiset(a) == multiset(b)
    requires forall i, j :: 0 <= i < j < |a| ==> a[i].id != a[j].id
    ensures forall i, j :: 0 <= i < j < |b| ==> b[i].id != b[j].id
  {
    forall i, j | 0 <= i < j < |b|
      ensures b[i].id != b[j].id
    {
      assert b[i] in multiset(a) && b[j] in multiset(a);
      var k :| 0 <= k < |a| && a[k] == b[i];
      var l :| 0 <= l < |a| && a[l] == b[j];
      if k == l {
        DistinctCountsOnce(a, a[k]);
        RepeatedCountsTwice(b, i, j);
      }
    }
  }

  lemma PresentedIsOrdered(sources: seq<Source>, prompt: string)
    requires Acceptable(TrimAll(sources))
    ensures multiset(Presented(sources, prompt)) == multiset(TrimAll(sources) + [Identity(prompt)])
    ensures Distinct(Presented(sources, prompt))
    ensures StrictlyOrdered(Presented(sources, prompt))
  {
    var all := TrimAll(sources) + [Identity(prompt)];
    var sorted := Presented(sources, prompt);
    EverythingIsDistinct(sources, prompt);
    SortPermutes(all, InOrder);
    PermutedIdsStayDistinct(all, sorted);
    DistinctByIndex(sorted);
    InOrderRanks();
    SortSorts(all, InOrder);
    forall i, j | 0 <= i < j < |sorted|
      ensures InOrder(sorted[i], sorted[j])
    {
      LessIsTotal(sorted[i].id, sorted[j].id);
    }
  }

  // ------------------------------------------------------------ guarantees

  function SourcesOf(included: seq<Included>): seq<Source> {
    if included == [] then [] else [included[0].source] + SourcesOf(included[1..])
  }

  function ExcludedOf(notes: seq<Note>): seq<Source> {
    if notes == [] then []
    else if notes[0].Excluded? then [notes[0].source] + ExcludedOf(notes[1..])
    else ExcludedOf(notes[1..])
  }

  function TruncatedOf(notes: seq<Note>): seq<Source> {
    if notes == [] then []
    else if notes[0].Truncated? then [notes[0].source] + TruncatedOf(notes[1..])
    else TruncatedOf(notes[1..])
  }

  function SumTokens(included: seq<Included>): int {
    if included == [] then 0 else included[0].tokens + SumTokens(included[1..])
  }

  function CutOf(included: seq<Included>): seq<Source> {
    if included == [] then []
    else if included[0].truncated then [included[0].source] + CutOf(included[1..])
    else CutOf(included[1..])
  }

  lemma {:induction false} TokensAreCost(sources: seq<Source>, m: map<string, Allocation>)
    ensures SumTokens(IncludedOf(sources, m)) == Cost(sources, m)
  {
    if sources != [] {
      var rest := IncludedOf(sources[1..], m);
      TokensAreCost(sources[1..], m);
      if sources[0].id in m {
        assert IncludedOf(sources, m)[1..] == rest;
      }
    }
  }

  lemma UnfoldIncluded(x: Included, included: seq<Included>)
    ensures SourcesOf([x] + included) == [x.source] + SourcesOf(included)
    ensures CutOf([x] + included) == if x.truncated then [x.source] + CutOf(included) else CutOf(included)
  {
    assert ([x] + included)[1..] == included;
  }

  lemma UnfoldNotes(n: Note, notes: seq<Note>)
    ensures ExcludedOf([n] + notes) == if n.Excluded? then [n.source] + ExcludedOf(notes) else ExcludedOf(notes)
    ensures TruncatedOf([n] + notes) == if n.Truncated? then [n.source] + TruncatedOf(notes) else TruncatedOf(notes)
  {
    assert ([n] + notes)[1..] == notes;
  }

  /** Every source is reported exactly once, as included or as excluded. */
  lemma {:induction false} EachSourceOnce(sources: seq<Source>, m: map<string, Allocation>)
    ensures multiset(SourcesOf(IncludedOf(sources, m))) + multiset(ExcludedOf(NotesOf(sources, m))) == multiset(sources)
  {
    if sources != [] {
      var s, included, notes := sources[0], IncludedOf(sources[1..], m), NotesOf(sources[1..], m);
      EachSourceOnce(sources[1..], m);
      assert sources == [s] + sources[1..];
      if s.id in m {
        UnfoldIncluded(Entry(s, m[s.id]), included);
        UnfoldNotes(Truncated(s), notes);
      } else {
        UnfoldNotes(Excluded(s), notes);
      }
    }
  }

  /** Exactly the truncated sources are noted as truncated. */
  lemma {:induction false} EachCutIsNoted(sources: seq<Source>, m: map<string, Allocation>)
    ensures CutOf(IncludedOf(sources, m)) == TruncatedOf(NotesOf(sources, m))
  {
    if sources != [] {
      var s, included, notes := sources[0], IncludedOf(sources[1..], m), NotesOf(sources[1..], m);
      EachCutIsNoted(sources[1..], m);
      if s.id in m {
        UnfoldIncluded(Entry(s, m[s.id]), included);
        UnfoldNotes(Truncated(s), notes);
      } else {
        UnfoldNotes(Excluded(s), notes);
      }
    }
  }

  /** The i-th included source is a source of the request, with exactly its allocation; and the
      included sources keep the order of the request. */
  lemma {:induction false} IncludedIsAllocated(sources: seq<Source>, m: map<string, Allocation>, i: nat)
      returns (k: nat)
    requires i < |IncludedOf(sources, m)|
    ensures k < |sources| && sources[k].id in m
    ensures IncludedOf(sources, m)[i] ==
      Entry(sources[k], m[sources[k].id])
  {
    if sources[0].id in m {
      if i == 0 {
        k := 0;
      } else {
        k := IncludedIsAllocated(sources[1..], m, i - 1);
        k := k + 1;
      }
    } else {
      k := IncludedIsAllocated(sources[1..], m, i);
      k := k + 1;
    }
  }

  lemma {:induction false} AllocatedIsIncluded(sources: seq<Source>, m: map<string, Allocation>, k: nat)
      returns (i: nat)
    requires k < |sources| && sources[k].id in m
    ensures i < |IncludedOf(sources, m)|
    ensures IncludedOf(sources, m)[i] ==
      Entry(sources[k], m[sources[k].id])
  {
    if k == 0 {
      i := 0;
    } else {
      i := AllocatedIsIncluded(sources[1..], m, k - 1);
      i := if sources[0].id in m then i + 1 else i;
    }
  }

  ghost predicate Ordered(included: seq<Included>) {
    forall i, j :: 0 <= i < j < |included| ==> InOrder(included[i].source, included[j].source)
  }

  lemma {:induction false} IncludedKeepOrder(sources: seq<Source>, m: map<string, Allocation>)
    requires StrictlyOrdered(sources)
    ensures Ordered(IncludedOf(sources, m))
  {
    if sources != [] {
      var rest := sources[1..];
      assert forall k :: 0 <= k < |rest| ==> rest[k] == sources[k + 1];
      IncludedKeepOrder(rest, m);
      var tail := IncludedOf(rest, m);
      if sources[0].id in m {
        var x := Entry(sources[0], m[sources[0].id]);
        forall j | 0 <= j < |tail|
          ensures InOrder(x.source, tail[j].source)
        {
          var k := IncludedIsAllocated(rest, m, j);
          assert InOrder(sources[0], sources[k + 1]);
        }
        assert IncludedOf(sources, m) == [x] + tail;
      }
    }
  }

  /** Within a positive window and over-budget not allowed, the request fits together with its
      reserved output. */
  lemma BuildFitsTheWindow(sv: Services, q: Request, sources: seq<Source>)
    requires Build(sv, q, sources).Ok?
    ensures var plan := Build(sv, q, sources).value;
      && plan.estimatedTokens == Fixed(sv, q.structured) + SumTokens(plan.included)
      && (q.window > 0 && !q.allowOver ==> plan.estimatedTokens + q.reserved <= q.window)
  {
    var presented := Presented(sources, q.prompt);
    PresentedIsOrdered(sources, q.prompt);
    AllocateStaysWithin(sv, presented, Remaining(sv, q));
    TokensAreCost(presented, Allocate(sv, presented, Remaining(sv, q)).value.0);
  }

  /** Every source, the identity among them, is reported exactly once; exactly the truncated ones are
      noted as such; and the included ones come in (priority, id) order. */
  lemma BuildReportsEachSourceOnce(sv: Services, q: Request, sources: seq<Source>)
    requires Build(sv, q, sources).Ok?
    ensures var plan := Build(sv, q, sources).value;
      && multiset(SourcesOf(plan.included)) + multiset(ExcludedOf(plan.notes)) ==
         multiset(TrimAll(sources) + [Identity(q.prompt)])
      && TruncatedOf(plan.notes) == CutOf(plan.included)
      && Ordered(plan.included)
  {
    var presented := Presented(sources, q.prompt);
    PresentedIsOrdered(sources, q.prompt);
    var m := Allocate(sv, presented, Remaining(sv, q)).value.0;
    EachSourceOnce(presented, m);
    EachCutIsNoted(presented, m);
    IncludedKeepOrder(presented, m);
  }

  function WholeOf(sv: Services, s: Source): Included {
    Included(s, Render(sv, s, s.content), Tokens(sv, s, s.content), false)
  }

  /** Required sources are present untruncated; without a limit every source is; and any other
      included source is whole or marked as truncated and cut to a non-empty prefix. */
  lemma BuildKeepsRequired(sv: Services, q: Request, sources: seq<Source>)
    requires Build(sv, q, sources).Ok?
    ensures var plan := Build(sv, q, sources).value;
      && (forall s :: s in TrimAll(sources) + [Identity(q.prompt)] && (s.required || !Limited(q)) ==>
            WholeOf(sv, s) in plan.included)
      && (forall x :: x in plan.included ==> Honest(sv, x.source, Allocation(x.rendered, x.tokens, x.truncated)))
  {
    hide Honest, TrimAll, Acceptable, Presented;
    var plan := Build(sv, q, sources).value;
    var presented := Presented(sources, q.prompt);
    PresentedIsOrdered(sources, q.prompt);
    var m := Allocate(sv, presented, Remaining(sv, q)).value.0;
    forall s | s in TrimAll(sources) + [Identity(q.prompt)] && (s.required || !Limited(q))
      ensures WholeOf(sv, s) in plan.included
    {
      assert s in multiset(presented);
      var k :| 0 <= k < |presented| && presented[k] == s;
      AllocateIsHonest(sv, presented, Remaining(sv, q), k);
      var i := AllocatedIsIncluded(presented, m, k);
      assert plan.included[i] == WholeOf(sv, s);
    }
    forall x | x in plan.included
      ensures Honest(sv, x.source, Allocation(x.rendered, x.tokens, x.truncated))
    {
      var i :| 0 <= i < |plan.included| && plan.included[i] == x;
      var k := IncludedIsAllocated(presented, m, i);
      AllocateIsHonest(sv, presented, Remaining(sv, q), k);
      assert m[presented[k].id] == Allocation(x.rendered, x.tokens, x.truncated);
    }
  }

  // ------------------------------------------------------------ when it succeeds

  /** What the required sources cost in full. */
  function Demand(sv: Services, sources: seq<Source>): int {
    if sources == [] then 0
    else (if sources[0].required then Tokens(sv, sources[0], sources[0].content) else 0) + Demand(sv, sources[1..])
  }

  ghost predicate NonNegative(sv: Services) {
    forall text :: sv.estimate(text) >= 0
  }

  lemma {:induction false} DemandIsNonNegative(sv: Services, sources: seq<Source>)
    requires NonNegative(sv)
    ensures Demand(sv, sources) >= 0
  {
    if sources != [] {
      DemandIsNonNegative(sv, sources[1..]);
    }
  }

  lemma {:induction false} RequiredSucceedsIff(sv: Services, sources: seq<Source>, acc: map<string, Allocation>,
      remaining: int)
    requires NonNegative(sv)
    ensures AllocateRequired(sv, Keep(sources, true), acc, remaining).Ok? <==>
            remaining < 0 || Demand(sv, sources) <= remaining
    decreases |sources|
  {
    if sources != [] {
      var s, rest := sources[0], sources[1..];
      DemandIsNonNegative(sv, rest);
      KeepStep(sources, true);
      if s.required {
        var whole := Whole(sv, s);
        assert ([s] + Keep(rest, true))[1..] == Keep(rest, true);
        RequiredSucceedsIff(sv, rest, acc[s.id := whole], Charge(remaining, whole.tokens));
      } else {
        RequiredSucceedsIff(sv, rest, acc, remaining);
      }
    }
  }

  lemma {:induction false} InsertKeepsDemand(sv: Services, s: Source, sources: seq<Source>)
    ensures Demand(sv, Insert(s, sources, InOrder)) == Demand(sv, [s] + sources)
  {
    assert ([s] + sources)[1..] == sources;
    if sources != [] && InOrder(sources[0], s) {
      InsertKeepsDemand(sv, s, sources[1..]);
      assert ([s] + sources[1..])[1..] == sources[1..];
    }
  }

  lemma {:induction false} SortKeepsDemand(sv: Services, sources: seq<Source>)
    ensures Demand(sv, Sort(sources, InOrder)) == Demand(sv, sources)
  {
    if sources != [] {
      SortKeepsDemand(sv, sources[1..]);
      InsertKeepsDemand(sv, sources[0], Sort(sources[1..], InOrder));
      assert ([sources[0]] + Sort(sources[1..], InOrder))[1..] == Sort(sources[1..], InOrder);
    }
  }

  /** With an estimator that never goes negative, a build succeeds exactly when the sources are
      acceptable and, if limited, the fixed part, the reserve and the required sources fit. */
  lemma BuildSucceedsIff(sv: Services, q: Request, sources: seq<Source>)
    requires NonNegative(sv)
    ensures Build(sv, q, sources).Ok? <==>
            && Acceptable(TrimAll(sources))
            && (Limited(q) ==>
                  Fixed(sv, q.structured) + q.reserved + Demand(sv,
                      TrimAll(sources) + [Identity(q.prompt)]) <= q.window)
  {
    var presented := Presented(sources, q.prompt);
    SortKeepsDemand(sv, TrimAll(sources) + [Identity(q.prompt)]);
    DemandIsNonNegative(sv, presented);
    RequiredSucceedsIff(sv, presented, map[], Remaining(sv, q));
  }

  // ------------------------------------------------------------ the builder

  method TruncateToBudget(sv: Services, s: Source, budget: int) returns (text: Option<string>)
    ensures text == Truncate(sv, s, budget)
  {
    hide Render;
    if budget <= 0 {
      return None;
    }
    ghost var fits := (k: nat) => Fits(sv, s, budget, k);
    var low, high := 0, |s.content|;
    while low < high
      invariant 0 <= low <= high <= |s.content|
      invariant Search(fits, low, high) == Search(fits, 0, |s.content|)
      decreases high - low
    {
      var middle := (low + high + 1) / 2;
      var candidate := s.content[..middle] + TRUNCATION_MARK;
      if sv.estimate(Render(sv, s, candidate)) <= budget {
        assert fits(middle);
        low := middle;
      } else {
        assert !fits(middle);
        high := middle - 1;
      }
    }
    assert low == Longest(sv, s, budget);
    text := if low == 0 then None else Some(s.content[..low] + TRUNCATION_MARK);
  }

  lemma {:induction false} IdsConcat(before: seq<Source>, s: Source)
    ensures Ids(before + [s]) == Ids(before) + {s.id}
  {
    if before == [] {
      assert [] + [s] == [s] && [s][1..] == [];
    } else {
      assert (before + [s])[1..] == before[1..] + [s];
      IdsConcat(before[1..], s);
    }
  }

  lemma AcceptableStep(trimmed: seq<Source>, index: nat)
    requires index < |trimmed|
    ensures Ids(trimmed[..index + 1]) == Ids(trimmed[..index]) + {trimmed[index].id}
    ensures Acceptable(trimmed[..index + 1]) <==>
            Acceptable(trimmed[..index]) && Complete(trimmed[index]) && trimmed[index].id !in Ids(trimmed[..index])
  {
    var before, s := trimmed[..index], trimmed[index];
    assert trimmed[..index + 1] == before + [s];
    IdsConcat(before, s);
    if s.id in Ids(before) {
      var i := IdsComeFrom(before, s.id);
      assert (before + [s])[i].id == (before + [s])[index].id;
    } else {
      forall i | 0 <= i < index
        ensures before[i].id != s.id
      {
        IdsHold(before, i);
      }
    }
    if Acceptable(before + [s]) {
      assert forall i :: 0 <= i < index ==> before[i] == (before + [s])[i];
      assert (before + [s])[index] == s;
    }
  }

  lemma PrefixDecides(trimmed: seq<Source>, index: nat)
    requires index <= |trimmed| && !Acceptable(trimmed[..index])
    ensures !Acceptable(trimmed)
  {
    assert forall i :: 0 <= i < index ==> trimmed[..index][i] == trimmed[i];
  }

  /** Trims the sources in place and says whether they are acceptable. */
  method ValidateSources(sources: array<Source>) returns (ok: bool)
    modifies sources
    ensures ok <==> Acceptable(TrimAll(old(sources[..])))
    ensures ok ==> sources[..] == TrimAll(old(sources[..]))
    ensures forall i :: 0 <= i < sources.Length ==> sources[i] == old(sources[i]) || sources[i] == Trim(old(sources[i]))
  {
    hide TrimSpace, Distinct;
    ghost var trimmed := TrimAll(sources[..]);
    var seen: set<string> := {};
    for index := 0 to sources.Length
      invariant sources[..index] == trimmed[..index]
      invariant forall i :: index <= i < sources.Length ==> sources[i] == old(sources[i])
      invariant seen == Ids(trimmed[..index]) && Acceptable(trimmed[..index])
    {
      var source := Trim(sources[index]);
      assert source == trimmed[index];
      AcceptableStep(trimmed, index);
      sources[index] := source;
      assert sources[..index + 1] == sources[..index] + [source] == trimmed[..index + 1];
      assert forall i :: 0 <= i < index ==> sources[i] == sources[..index][i] == trimmed[..index][i];
      if source.id == "" || source.kind == "" || source.content == "" || source.id == IDENTITY_ID || source.id in seen {
        PrefixDecides(trimmed, index + 1);
        return false;
      }
      seen := seen + {source.id};
    }
    assert sources[..] == sources[..sources.Length] == trimmed[..sources.Length] == trimmed;
    ok := true;
  }

  /** A copy of the sources is validated; the caller's own are left alone. */
  method Validated(all: seq<Source>) returns (result: Option<seq<Source>>)
    ensures result == if Acceptable(TrimAll(all)) then Some(TrimAll(all)) else None
  {
    var copy := new Source[|all|](i requires 0 <= i < |all| => all[i]);
    assert copy[..] == all;
    var ok := ValidateSources(copy);
    result := if ok then Some(copy[..]) else None;
  }

  /** The allocation of the whole list continues from wherever a prefix of it ended. */
  lemma {:induction false} RequiredContinues(sv: Services, sources: seq<Source>, s: Source,
      acc: map<string, Allocation>,
      remaining: int)
    ensures AllocateRequired(sv, sources + [s], acc, remaining) ==
      match AllocateRequired(sv, sources, acc, remaining)
      case Err(e) => Err(e)
      case Ok((m, left)) => AllocateRequired(sv, [s], m, left)
    decreases |sources|
  {
    if sources == [] {
      assert [] + [s] == [s];
    } else {
      var whole := Whole(sv, sources[0]);
      assert (sources + [s])[1..] == sources[1..] + [s];
      RequiredContinues(sv, sources[1..], s, acc[sources[0].id := whole], Charge(remaining, whole.tokens));
    }
  }

  lemma {:induction false} RequiredFails(sv: Services, sources: seq<Source>, rest: seq<Source>,
      acc: map<string, Allocation>,
      remaining: int)
    requires AllocateRequired(sv, sources, acc, remaining).Err?
    ensures AllocateRequired(sv, sources + rest, acc, remaining) == Err(BudgetExceeded)
    decreases |sources|
  {
    var whole := Whole(sv, sources[0]);
    assert (sources + rest)[1..] == sources[1..] + rest;
    if !(remaining >= 0 && whole.tokens > remaining) {
      RequiredFails(sv, sources[1..], rest, acc[sources[0].id := whole], Charge(remaining, whole.tokens));
    }
  }

  lemma {:induction false} KeepConcat(a: seq<Source>, b: seq<Source>, required: bool)
    ensures Keep(a + b, required) == Keep(a, required) + Keep(b, required)
  {
    if a == [] {
      assert a + b == b;
    } else {
      hide Keep;
      assert (a + b)[1..] == a[1..] + b;
      KeepConcat(a[1..], b, required);
      KeepStep(a, required);
      KeepStep(a + b, required);
    }
  }

  lemma KeepNext(sources: seq<Source>, i: nat, required: bool)
    requires i < |sources|
    ensures Keep(sources[..i + 1], required) ==
      if sources[i].required == required then Keep(sources[..i], required) + [sources[i]]
          else Keep(sources[..i], required)
  {
    assert sources[..i + 1] == sources[..i] + [sources[i]];
    KeepConcat(sources[..i], [sources[i]], required);
    KeepStep([sources[i]], required);
  }

  method AllocateFull(sv: Services, sources: seq<Source>, budget: int)
    returns (result: Result<(map<string, Allocation>, int), BuildError>)
    ensures result == AllocateRequired(sv, Keep(sources, true), map[], budget)
  {
    hide Render;
    var allocations: map<string, Allocation> := map[];
    var remaining := budget;
    for i := 0 to |sources|
      invariant AllocateRequired(sv, Keep(sources[..i], true), map[], budget) == Ok((allocations, remaining))
    {
      var source := sources[i];
      KeepNext(sources, i, true);
      if source.required {
        RequiredContinues(sv, Keep(sources[..i], true), source, map[], budget);
        var rendered := Render(sv, source, source.content);
        var tokens := sv.estimate(rendered);
        if remaining >= 0 && tokens > remaining {
          assert sources == sources[..i + 1] + sources[i + 1..];
          KeepConcat(sources[..i + 1], sources[i + 1..], true);
          RequiredFails(sv, Keep(sources[..i + 1], true), Keep(sources[i + 1..], true), map[], budget);
          return Err(BudgetExceeded);
        }
        allocations := allocations[source.id := Allocation(rendered, tokens, false)];
        if remaining >= 0 {
          remaining := remaining - tokens;
        }
      }
    }
    assert sources[..|sources|] == sources;
    result := Ok((allocations, remaining));
  }

  method SelectOptional(sources: seq<Source>) returns (optional: seq<Source>)
    ensures optional == Keep(sources, false)
  {
    optional := [];
    for i := 0 to |sources|
      invariant optional == Keep(sources[..i], false)
    {
      KeepNext(sources, i, false);
      if !sources[i].required {
        optional := optional + [sources[i]];
      }
    }
    assert sources[..|sources|] == sources;
  }

  method AllocateRest(sv: Services, optional: seq<Source>, full: map<string, Allocation>, left: int)
    returns (allocations: map<string, Allocation>)
    ensures allocations == AllocateOptional(sv, optional, full, left).0
  {
    hide Truncate, Render;
    allocations := full;
    var remaining := left;
    for i := 0 to |optional|
      invariant AllocateOptional(sv, optional, full, left) ==
          AllocateOptional(sv, optional[i..], allocations, remaining)
    {
      var source := optional[i];
      assert optional[i..][0] == source && optional[i..][1..] == optional[i + 1..];
      var rendered := Render(sv, source, source.content);
      var tokens := sv.estimate(rendered);
      if remaining < 0 || tokens <= remaining {
        allocations := allocations[source.id := Allocation(rendered, tokens, false)];
        if remaining >= 0 {
          remaining := remaining - tokens;
        }
        continue;
      }
      var content := TruncateToBudget(sv, source, remaining);
      if content.None? {
        continue;
      }
      rendered := Render(sv, source, content.value);
      tokens := sv.estimate(rendered);
      allocations := allocations[source.id := Allocation(rendered, tokens, true)];
      remaining := remaining - tokens;
    }
  }

  method AllocateSources(sv: Services, sources: seq<Source>, budget: int)
    returns (result: Result<map<string, Allocation>, BuildError>)
    ensures match Allocate(sv, sources, budget)
      case Err(e) => result == Err(e)
      case Ok((m, _)) => result == Ok(m)
  {
    var full := AllocateFull(sv, sources, budget);
    if full.Err? {
      return Err(full.error);
    }
    var optional := SelectOptional(sources);
    optional := Sort(optional, Preferred);
    var allocations := AllocateRest(sv, optional, full.value.0, full.value.1);
    result := Ok(allocations);
  }

  lemma ReportStep(sources: seq<Source>, i: nat, m: map<string, Allocation>)
    requires i < |sources|
    ensures var s, rest := sources[i], sources[i + 1..];
      && IncludedOf(sources[i..], m) == (if s.id in m then [Entry(s, m[s.id])] else []) + IncludedOf(rest, m)
      && NotesOf(sources[i..], m) ==
         (if s.id !in m then [Excluded(s)] else if m[s.id].truncated then [Truncated(s)] else []) + NotesOf(rest, m)
      && Cost(sources[i..], m) == (if s.id in m then m[s.id].tokens else 0) + Cost(rest, m)
  {
    assert sources[i..][0] == sources[i] && sources[i..][1..] == sources[i + 1..];
    assert [] + IncludedOf(sources[i + 1..], m) == IncludedOf(sources[i + 1..], m);
    assert [] + NotesOf(sources[i + 1..], m) == NotesOf(sources[i + 1..], m);
  }

  lemma ReportEnds(m: map<string, Allocation>)
    ensures IncludedOf([], m) == [] && NotesOf([], m) == [] && Cost([], m) == 0
  {
  }

  method Report(sources: seq<Source>, allocations: map<string, Allocation>, fixedTokens: int) returns (plan: Plan)
    ensures plan == Plan(IncludedOf(sources, allocations), NotesOf(sources, allocations),
                         fixedTokens + Cost(sources, allocations))
  {
    hide IncludedOf, NotesOf, Cost;
    var included: seq<Included>, notes: seq<Note>, estimated := [], [], fixedTokens;
    assert sources[0..] == sources;
    for i := 0 to |sources|
      invariant included + IncludedOf(sources[i..], allocations) == IncludedOf(sources, allocations)
      invariant notes + NotesOf(sources[i..], allocations) == NotesOf(sources, allocations)
      invariant estimated + Cost(sources[i..], allocations) == fixedTokens + Cost(sources, allocations)
    {
      var source := sources[i];
      ReportStep(sources, i, allocations);
      if source.id !in allocations {
        notes := notes + [Excluded(source)];
        continue;
      }
      var a := allocations[source.id];
      if a.truncated {
        notes := notes + [Truncated(source)];
      }
      included := included + [Included(source, a.rendered, a.tokens, a.truncated)];
      estimated := estimated + a.tokens;
    }
    ReportEnds(allocations);
    assert sources[|sources|..] == [];
    plan := Plan(included, notes, estimated);
  }

  /** The sources and the limits fixed when the builder was made. */
  class Builder {
    const sources: seq<Source>
    const window: int
    const reserved: int
    const services: Services

    constructor (sources: seq<Source>, window: int, reserved: int, services: Services)
      ensures this.sources == sources && this.window == window && this.reserved == reserved && this.services == services
    {
      this.sources, this.window, this.reserved, this.services := sources, window, reserved, services;
    }

    method Assemble(input: seq<Source>, structured: Option<string>, allowOver: bool, prompt: string)
      returns (result: Result<Plan, BuildError>)
      ensures result == Build(services, Request(window, reserved, structured, allowOver, prompt), sources + input)
    {
      hide Acceptable, TrimAll, Allocate, IncludedOf, NotesOf, Cost, Sort;
      ghost var q := Request(window, reserved, structured, allowOver, prompt);
      var all := sources + input;
      var trimmed := Validated(all);
      if trimmed.None? {
        return Err(InvalidSource);
      }
      var presented := Sort(trimmed.value + [Identity(prompt)], InOrder);
      var fixedTokens := if structured.None? then 0 else services.estimate(structured.value);
      var remaining := -1;
      if window > 0 && !allowOver {
        remaining := window - reserved - fixedTokens;
        if remaining < 0 {
          return Err(BudgetExceeded);
        }
      }
      assert remaining == Remaining(services, q);
      var shares := AllocateSources(services, presented, remaining);
      if shares.Err? {
        return Err(shares.error);
      }
      var plan := Report(presented, shares.value, fixedTokens);
      result := Ok(plan);
    }
  }
}
