/**
 The broker object (internal/permissions/broker.go): brokers share their ancestors, so an approval
 remembered by a parent is seen through every child. Also the loops of policy.go and trust.go.
 */
module PermissionBroker {
  import opened Prelude
  import opened Ordering
  import P = Permissions
  import opened Permissions

  method ContainsTool(values: seq<string>, tool: string) returns (found: bool)
    ensures found <==> tool in values
  {
    for i := 0 to |values|
      invariant tool !in values[..i]
    {
      if values[i] == tool {
        return true;
      }
    }
    found := false;
  }

  method ValidatePolicy(mode: string, modeSource: string, rules: seq<Rule>) returns (ok: bool)
    ensures ok <==> PolicyAccepted(mode, modeSource, rules)
  {
    if mode != "" && mode !in MODES {
      return false;
    }
    if mode == "bypass" && modeSource != "cliArg" {
      return false;
    }
    for i := 0 to |rules|
      invariant forall k :: 0 <= k < i ==> RuleAccepted(rules[k])
    {
      if rules[i].id == "" || rules[i].behavior == OtherBehavior ||
         (rules[i].source == "projectSettings" && rules[i].behavior == Allow) {
        return false;
      }
    }
    ok := true;
  }

  lemma LessRanks()
    ensures Ranks(Less)
  {
    forall a, b | Less(a, b)
      ensures !Less(b, a)
    {
      LessIsTotal(a, b);
    }
    forall a, b, c | !Less(b, a) && !Less(c, b)
      ensures !Less(c, a)
    {
      LessIsTransitive(a, b, c);
    }
  }

  method HasForbiddenSpace(name: string) returns (found: bool)
    ensures found <==> exists i :: 0 <= i < |name| && name[i] in {' ', '\t', '\r', '\n'}
  {
    for i := 0 to |name|
      invariant forall k :: 0 <= k < i ==> name[k] !in {' ', '\t', '\r', '\n'}
    {
      if name[i] in {' ', '\t', '\r', '\n'} {
        return true;
      }
    }
    found := false;
  }

  lemma SameElements(list: seq<string>, found: seq<string>)
    requires multiset(list) == multiset(found)
    ensures forall x :: x in list <==> x in found
  {
    forall x
      ensures x in list <==> x in found
    {
      assert x in list <==> x in multiset(list);
      assert x in found <==> x in multiset(found);
    }
  }

  lemma StrictWhenDistinct(found: seq<string>, list: seq<string>)
    requires forall i, j :: 0 <= i < j < |found| ==> found[i] != found[j]
    requires multiset(list) == multiset(found) && Sorted(list, Less)
    ensures forall i, j :: 0 <= i < j < |list| ==> Less(list[i], list[j])
  {
    forall i, j | 0 <= i < j < |list|
      ensures Less(list[i], list[j])
    {
      LessIsTotal(list[i], list[j]);
      DistinctCountsOnce(found, list[i]);
      if list[i] == list[j] {
        RepeatedCountsTwice(list, i, j);
      }
    }
  }

  lemma SortKeepsNames(found: seq<string>)
    requires forall i, j :: 0 <= i < j < |found| ==> found[i] != found[j]
    ensures forall x :: x in Sort(found, Less) <==> x in found
    ensures forall i, j :: 0 <= i < j < |Sort(found, Less)| ==> Less(Sort(found, Less)[i], Sort(found, Less)[j])
  {
    SortPermutes(found, Less);
    SameElements(Sort(found, Less), found);
    LessRanks();
    SortSorts(found, Less);
    StrictWhenDistinct(found, Sort(found, Less));
  }

  /** The names in order, each once. */
  method Elements(names: set<string>) returns (list: seq<string>)
    ensures Lists(list, names)
  {
    var left := names;
    var found: seq<string> := [];
    while left != {}
      invariant forall x :: x in names <==> x in left || x in found
      invariant forall x :: x in left ==> x !in found
      invariant forall i, j :: 0 <= i < j < |found| ==> found[i] != found[j]
      decreases |left|
    {
      var x :| x in left;
      left := left - {x};
      found := found + [x];
    }
    list := Sort(found, Less);
    SortKeepsNames(found);
  }

  method NormalizeToolSet(values: seq<string>) returns (result: Option<seq<string>>)
    ensures result.Some? <==> NamesOk(values)
    ensures result.Some? ==> Lists(result.value, Names(values)) && "" !in Names(values)
  {
    hide ByteLength;
    var names: set<string> := {};
    for i := 0 to |values|
      invariant NamesOk(values[..i]) && "" !in names
      invariant forall k :: 0 <= k < i ==> TrimSpace(values[k]) in names
      invariant forall x :: x in names ==> exists k :: 0 <= k < i && TrimSpace(values[k]) == x
    {
      var value := TrimSpace(values[i]);
      var spaced := HasForbiddenSpace(value);
      if value == "" || ByteLength(value) > 128 || spaced {
        return None;
      }
      names := names + {value};
    }
    assert values[..|values|] == values;
    assert names == Names(values);
    var list := Elements(names);
    result := Some(list);
  }

  lemma {:induction false} DenyRulesAppend(a: seq<string>, tool: string)
    ensures DenyRules(a + [tool]) == DenyRules(a) + [DenyRule(tool)]
  {
    if a == [] {
      assert [] + [tool] == [tool];
    } else {
      assert (a + [tool])[1..] == a[1..] + [tool];
      DenyRulesAppend(a[1..], tool);
    }
  }

  method TrustRules(level: string, allowedTools: seq<string>, deniedTools: seq<string>)
      returns (result: Option<seq<Rule>>)
    ensures result.Some? <==> level in LEVELS && NamesOk(allowedTools) && NamesOk(deniedTools)
    ensures result.Some? ==> AreTrustRules(result.value, level, Names(allowedTools), Names(deniedTools))
    ensures result.Some? ==> "" !in Names(deniedTools)
  {
    if level !in LEVELS {
      return None;
    }
    var allowed := NormalizeToolSet(allowedTools);
    if allowed.None? {
      return None;
    }
    var denied := NormalizeToolSet(deniedTools);
    if denied.None? {
      return None;
    }
    var rules: seq<Rule> := [];
    for i := 0 to |denied.value|
      invariant rules == DenyRules(denied.value[..i])
    {
      var tool := denied.value[i];
      DenyRulesAppend(denied.value[..i], tool);
      assert denied.value[..i + 1] == denied.value[..i] + [tool];
      rules := rules + [Rule("managed-deny-" + tool, "policySettings", Deny, if tool == "*" then "" else tool, "", [])];
    }
    assert denied.value[..|denied.value|] == denied.value;
    var everything := ContainsTool(allowed.value, "*");
    if level == "managed" && |allowed.value| > 0 && !everything {
      rules := rules + [Rule("managed-allowlist-boundary", "policySettings", Deny, "", "", allowed.value)];
    }
    assert rules == DenyRules(denied.value) + Boundary(level, allowed.value);
    result := Some(rules);
  }

  class Broker {
    const mode: string
    const rules: seq<Rule>
    const headless: bool
    const hasConfirmer: bool
    const parent: Broker?
    var session: set<Approval>

    /** This broker and all its ancestors. */
    ghost const lineage: set<Broker>
    /** How many ancestors there are; it also tells whose user is asked. */
    const depth: nat

    ghost predicate AboveThis(ancestor: Broker) {
      ancestor.depth + 1 == depth && this !in ancestor.lineage
    }

    ghost predicate Valid()
      decreases depth
    {
      && this in lineage
      && if parent == null then lineage == {this} && depth == 0
         else AboveThis(parent) && lineage == {this} + parent.lineage && parent.Valid()
    }

    ghost function State(): P.Broker
      reads `session
    {
      P.Broker(mode, rules, headless, hasConfirmer, session)
    }

    /** This broker and its ancestors, as values. */
    ghost function Chain(): (c: seq<P.Broker>)
      requires Valid()
      reads lineage
      ensures |c| == depth + 1 && c[0] == State()
      decreases depth
    {
      if parent == null then [State()] else [State()] + parent.Chain()
    }

    constructor (mode: string, rules: seq<Rule>, headless: bool, hasConfirmer: bool, parent: Broker?)
      requires parent != null ==> parent.Valid()
      ensures Valid() && fresh(this)
      ensures this.mode == mode && this.rules == rules && this.headless == headless && this.hasConfirmer == hasConfirmer
      ensures this.parent == parent && session == {}
    {
      this.mode, this.rules, this.headless, this.hasConfirmer, this.parent :=
          mode, rules, headless, hasConfirmer, parent;
      session := {};
      lineage := {this} + if parent == null then {} else parent.lineage;
      depth := if parent == null then 0 else parent.depth + 1;
    }

    method FirstMatch(behavior: P.Behavior, r: Request) returns (found: Option<Rule>)
      ensures found == First(rules, behavior, r)
    {
      for i := 0 to |rules|
        invariant First(rules, behavior, r) == First(rules[i..], behavior, r)
      {
        assert rules[i..][0] == rules[i] && rules[i..][1..] == rules[i + 1..];
        if rules[i].behavior == behavior && RuleMatches(rules[i], r) {
          return Some(rules[i]);
        }
      }
      found := None;
    }

    method LocalDecision(r: Request) returns (d: Decision)
      ensures d == Local(State(), r)
    {
      var rule := FirstMatch(Deny, r);
      if rule.Some? {
        return Decision(Deny, ExplicitRule(rule.value.id));
      }
      rule := FirstMatch(Allow, r);
      if rule.Some? {
        return Decision(Allow, ExplicitRule(rule.value.id));
      }
      if Approval(r.tool, r.action) in session {
        return Decision(Allow, SessionApproval);
      }
      rule := FirstMatch(Ask, r);
      if rule.Some? {
        return Decision(Ask, ExplicitRule(rule.value.id));
      }
      d := Decision(ModeBehavior(mode, r.action), ModeDefault);
    }

    method AskUser(r: Request, answer: Answer) returns (d: Result<Decision, DecideError>)
      modifies `session
      ensures (d, State()) == Confirm(old(State()), r, answer)
    {
      if headless || !hasConfirmer {
        return Ok(Decision(Deny, Unavailable));
      }
      if answer.Failed? {
        return Err(ConfirmFailed);
      }
      if answer.behavior == Allow {
        if answer.remember {
          session := session + {Approval(r.tool, r.action)};
        }
        return Ok(Decision(Allow, Confirmed(answer.remember)));
      }
      d := Ok(Decision(Deny, NotConfirmed));
    }

    method DecideOwn(r: Request, answer: Answer) returns (d: Result<Decision, DecideError>)
      modifies `session
      ensures (d, State()) == Own(old(State()), r, answer)
    {
      var local := LocalDecision(r);
      d := Ok(local);
      if local.behavior == Ask {
        d := AskUser(r, answer);
      }
    }

    method DecideHere(r: Request, answers: nat -> Answer) returns (d: Result<Decision, DecideError>)
      requires Valid()
      modifies lineage
      ensures Valid() && (d, Chain()) == P.Decide(old(Chain()), r, answers)
      decreases depth
    {
      hide Own, ValidRequest;
      if !ValidRequest(r) {
        return Ok(Decision(Deny, InvalidRequest));
      }
      if !r.pathsOk {
        return Ok(Decision(Deny, OutsideWorkspace));
      }
      ghost var before := Chain();
      ghost var above := if parent == null then [] else parent.Chain();
      d := DecideOwn(r, answers(depth));
      assert before[1..] == above;
      assert Chain() == [State()] + above;
      if parent == null || d.Err? || d.value.behavior == Deny {
        assert parent != null ==> parent.Chain() == above;
        return;
      }
      var higher := parent.DecideHere(r, answers);
      if higher.Err? || Rank(higher.value.behavior) > Rank(d.value.behavior) {
        d := higher;
      }
    }

    /** The public entry: the decision stands only if it could be recorded in the audit log. */
    method Decide(r: Request, answers: nat -> Answer, recorded: bool) returns (d: Result<Decision, DecideError>)
      requires Valid()
      modifies lineage
      ensures Valid() && Chain() == P.Decide(old(Chain()), r, answers).1
      ensures d == if P.Decide(old(Chain()), r, answers).0.Ok? && !recorded then Err(AuditFailed)
                   else P.Decide(old(Chain()), r, answers).0
    {
      d := DecideHere(r, answers);
      if d.Ok? && !recorded {
        d := Err(AuditFailed);
      }
    }

    /** A child whose result is intersected with this broker's. */
    method Child(mode: string, modeSource: string, rules: seq<Rule>) returns (child: Broker?)
      requires Valid()
      ensures child != null <==> PolicyAccepted(mode, modeSource, rules)
      ensures child != null ==> child.Valid() && child.parent == this
      ensures child != null ==>
        child.Chain() == [P.Broker(if mode == "" then "default" else mode, rules, headless, hasConfirmer, {})] + Chain()
    {
      child := NewBroker(mode, modeSource, rules, headless, hasConfirmer, this);
    }
  }

  method NewBroker(mode: string, modeSource: string, rules: seq<Rule>, headless: bool, hasConfirmer: bool,
      parent: Broker?)
    returns (b: Broker?)
    requires parent != null ==> parent.Valid()
    ensures b != null <==> PolicyAccepted(mode, modeSource, rules)
    ensures b != null ==> b.Valid() && fresh(b) && b.parent == parent
    ensures b != null ==>
      b.State() == P.Broker(if mode == "" then "default" else mode, rules, headless, hasConfirmer, {})
  {
    var actual := if mode == "" then "default" else mode;
    var ok := ValidatePolicy(actual, modeSource, rules);
    if !ok {
      return null;
    }
    b := new Broker(actual, rules, headless, hasConfirmer, parent);
  }
}
