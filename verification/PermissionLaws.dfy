/**
 What a broker decides, told by its rules, its mode and its user alone (internal/permissions/broker.go,
 policy.go).
 */
module PermissionLaws {
  import opened Prelude
  import opened Permissions

  /** The rule speaks of this tool, and its tool list, where it has one, leaves the tool out. */
  predicate Speaks(rule: Rule, behavior: Behavior, r: Request) {
    && rule.behavior == behavior && rule.tool in {"", r.tool} && rule.action in {"", r.action}
    && (rule.allowedTools == [] || forall i :: 0 <= i < |rule.allowedTools| ==> rule.allowedTools[i] != r.tool)
  }

  /** The k-th rule is the first of this behaviour that speaks of the request. */
  predicate FirstSpeaks(rules: seq<Rule>, behavior: Behavior, r: Request, k: nat) {
    k < |rules| && Speaks(rules[k], behavior, r) && forall i :: 0 <= i < k ==> !Speaks(rules[i], behavior, r)
  }

  predicate Silent(rules: seq<Rule>, behavior: Behavior, r: Request) {
    forall i :: 0 <= i < |rules| ==> !Speaks(rules[i], behavior, r)
  }

  /** The request is complete, of a known action, and stays in its workspace. */
  predicate Proper(r: Request) {
    && r.tool != "" && r.action in {"read", "write", "execute", "delete", "network"} && r.pathsOk
    && (r.command != "" ==> r.action == "execute")
    && (|r.network| > 0 ==> r.action in {"network", "execute"})
  }

  lemma {:induction false} FirstIsFirst(rules: seq<Rule>, behavior: Behavior, r: Request)
    ensures First(rules, behavior, r).None? <==> Silent(rules, behavior, r)
    ensures forall k: nat :: FirstSpeaks(rules, behavior, r, k) ==> First(rules, behavior, r) == Some(rules[k])
  {
    if rules != [] {
      FirstIsFirst(rules[1..], behavior, r);
      assert Speaks(rules[0], behavior, r) <==> rules[0].behavior == behavior && RuleMatches(rules[0], r);
      assert forall i :: 1 <= i < |rules| ==> rules[i] == rules[1..][i - 1];
      forall k: nat | FirstSpeaks(rules, behavior, r, k)
        ensures First(rules, behavior, r) == Some(rules[k])
      {
        if k > 0 {
          assert FirstSpeaks(rules[1..], behavior, r, k - 1);
        }
      }
    }
  }

  /** What asking the user comes to: without a user it is a refusal; a failing one fails the request; and
      only a yes allows, remembered for this tool and action if the user says so. */
  predicate AskedOf(b: Broker, r: Request, answer: Answer, end: (Result<Decision, DecideError>, Broker)) {
    if b.headless || !b.hasConfirmer then end == (Ok(Decision(Deny, Unavailable)), b)
    else if answer.Failed? then end == (Err(ConfirmFailed), b)
    else if answer.behavior != Allow then end == (Ok(Decision(Deny, NotConfirmed)), b)
    else if !answer.remember then end == (Ok(Decision(Allow, Confirmed(false))), b)
    else
      end == (Ok(Decision(Allow, Confirmed(true))), b.(session := b.session + {Approval(r.tool, r.action)}))
  }

  /** The broker, alone, decides so whatever the user would answer, and remembers nothing new. */
  ghost predicate Unasked(b: Broker, r: Request, behavior: Behavior, reason: Reason) {
    forall answers: nat -> Answer :: Decide([b], r, answers) == (Ok(Decision(behavior, reason)), [b])
  }

  /** The broker, alone, leaves it to the user. */
  ghost predicate LeftToUser(b: Broker, r: Request) {
    forall answers: nat -> Answer, result, after ::
      Decide([b], r, answers) == (result, [after]) ==> AskedOf(b, r, answers(0), (result, after))
  }

  lemma AloneDecides(b: Broker, r: Request, answers: nat -> Answer)
    requires Proper(r)
    ensures Decide([b], r, answers) == (Own(b, r, answers(0)).0, [Own(b, r, answers(0)).1])
  {
    hide Own;
    assert [b][1..] == [];
    assert [Own(b, r, answers(0)).1] + [] == [Own(b, r, answers(0)).1];
  }

  lemma AskingMeans(b: Broker, r: Request, answer: Answer)
    ensures AskedOf(b, r, answer, Confirm(b, r, answer))
  {
  }

  /** A broker whose own decision needs no user decides so alone, and one whose does asks. */
  lemma LocalDecides(b: Broker, r: Request)
    requires Proper(r)
    ensures Local(b, r).behavior != Ask ==> Unasked(b, r, Local(b, r).behavior, Local(b, r).reason)
    ensures Local(b, r).behavior == Ask ==> LeftToUser(b, r)
  {
    hide Decide, Confirm, Proper, Local, AskedOf;
    forall answers: nat -> Answer
      ensures Local(b, r).behavior != Ask ==>
                Decide([b], r, answers) == (Ok(Decision(Local(b, r).behavior, Local(b, r).reason)), [b])
      ensures Local(b, r).behavior == Ask ==> forall result, after :: Decide([b], r, answers) == (result, [after]) ==>
                AskedOf(b, r, answers(0), (result, after))
    {
      AloneDecides(b, r, answers);
      AskingMeans(b, r, answers(0));
    }
  }

  lemma SpeaksOnce(rules: seq<Rule>, k: nat, r: Request)
    ensures forall behavior :: FirstSpeaks(rules, behavior, r, k) ==> !Silent(rules, behavior, r)
  {
  }

  /** No rule decides the request, and the user has not approved it before. */
  predicate Unruled(b: Broker, r: Request) {
    Silent(b.rules, Deny, r) && Silent(b.rules, Allow, r) && Approval(r.tool, r.action) !in b.session
  }

  /** Of the rules, denials come first, then permissions, then what the user has approved before, and only
      then a rule that asks; among rules of one behaviour the first in the list is the one reported. */
  lemma RulesDecide(b: Broker, r: Request, k: nat)
    requires Proper(r)
    ensures FirstSpeaks(b.rules, Deny, r, k) ==> Unasked(b, r, Deny, ExplicitRule(b.rules[k].id))
    ensures Silent(b.rules, Deny, r) && FirstSpeaks(b.rules, Allow, r, k) ==>
      Unasked(b, r, Allow, ExplicitRule(b.rules[k].id))
    ensures Silent(b.rules, Deny, r) && Silent(b.rules, Allow, r) && Approval(r.tool, r.action) in b.session ==>
      Unasked(b, r, Allow, SessionApproval)
    ensures Unruled(b, r) && FirstSpeaks(b.rules, Ask, r, k) ==> LeftToUser(b, r)
  {
    hide Decide, Confirm, Proper, Silent, FirstSpeaks, First, ModeBehavior, Unasked, LeftToUser;
    FirstIsFirst(b.rules, Deny, r);
    FirstIsFirst(b.rules, Allow, r);
    FirstIsFirst(b.rules, Ask, r);
    SpeaksOnce(b.rules, k, r);
    LocalDecides(b, r);
  }

  /** Where no rule speaks and nothing was approved, the mode decides: plan allows reads and denies
      everything else without asking; accept-edits allows reads and writes and asks for everything else;
      bypass allows everything; and every other mode allows reads and asks for everything else. */
  lemma ModesDecide(b: Broker, r: Request)
    requires Proper(r) && Unruled(b, r) && Silent(b.rules, Ask, r)
    ensures b.mode == "plan" ==> Unasked(b, r, if r.action == "read" then Allow else Deny, ModeDefault)
    ensures b.mode == "bypass" ==> Unasked(b, r, Allow, ModeDefault)
    ensures b.mode == "accept-edits" && r.action in {"read", "write"} ==> Unasked(b, r, Allow, ModeDefault)
    ensures b.mode == "accept-edits" && r.action !in {"read", "write"} ==> LeftToUser(b, r)
    ensures b.mode !in {"plan", "bypass", "accept-edits"} && r.action == "read" ==> Unasked(b, r, Allow, ModeDefault)
    ensures b.mode !in {"plan", "bypass", "accept-edits"} && r.action != "read" ==> LeftToUser(b, r)
  {
    hide Decide, Confirm, Proper, Silent, First, Unasked, LeftToUser;
    FirstIsFirst(b.rules, Deny, r);
    FirstIsFirst(b.rules, Allow, r);
    FirstIsFirst(b.rules, Ask, r);
    LocalDecides(b, r);
  }

  /** A request that is not proper is denied by every chain without asking anyone. */
  lemma ImproperIsDenied(chain: seq<Broker>, r: Request, answers: nat -> Answer)
    requires chain != [] && !Proper(r)
    ensures Decide(chain, r, answers).1 == chain
    ensures Decide(chain, r, answers).0 == Ok(Decision(Deny, if Proper(r.(pathsOk := true)) then OutsideWorkspace
                                                             else InvalidRequest))
  {
  }

  /** What the broker at place i of the chain decides when it is asked alone. */
  function AloneAt(chain: seq<Broker>, i: nat, r: Request, answers: nat -> Answer)
    : (Result<Decision, DecideError>, Broker)
    requires i < |chain|
  {
    Own(chain[i], r, answers(|chain| - 1 - i))
  }

  /** A chain ends with the first of its brokers, nearest first, that does not allow on its own: its
      decision is the chain's, those before it have asked their users, and those behind it were not
      asked. When all allow, the decision is the nearest broker's. */
  lemma {:induction false} ChainEndsAtRefusal(chain: seq<Broker>, r: Request, answers: nat -> Answer, k: nat)
    requires chain != [] && Proper(r) && k < |chain|
    requires forall i :: 0 <= i < k ==> Allows(AloneAt(chain, i, r, answers).0)
    requires Allows(AloneAt(chain, k, r, answers).0) ==> k == |chain| - 1
    ensures var (result, after) := Decide(chain, r, answers);
      && result == AloneAt(chain, if Allows(AloneAt(chain, k, r, answers).0) then 0 else k, r, answers).0
      && |after| == |chain| && after[k + 1..] == chain[k + 1..]
      && (forall i :: 0 <= i <= k ==> after[i] == AloneAt(chain, i, r, answers).1)
    decreases |chain|
  {
    hide Own, Decide;
    DecideStep(chain, r, answers);
    var own := AloneAt(chain, 0, r, answers);
    if k > 0 {
      var above := chain[1..];
      var up := Decide(above, r, answers);
      forall i: nat | i < |above|
        ensures AloneAt(above, i, r, answers) == AloneAt(chain, i + 1, r, answers)
      {
      }
      ChainEndsAtRefusal(above, r, answers, k - 1);
      assert ([own.1] + up.1)[k + 1..] == up.1[k..] && chain[k + 1..] == above[k..];
    } else {
      assert ([own.1] + chain[1..])[1..] == chain[1..];
    }
  }

  // ------------------------------------------------------------ policies

  /** Which policies a broker takes: a known mode, bypassing only from the command line, and rules with a
      name and a known behaviour of which those of the project do not allow. */
  lemma AcceptedIff(mode: string, modeSource: string, rules: seq<Rule>)
    ensures PolicyAccepted(mode, modeSource, rules) <==>
      && (mode in {"", "default", "plan", "accept-edits"} || (mode == "bypass" && modeSource == "cliArg"))
      && forall rule :: rule in rules ==>
         && rule.id != ""
         && rule.behavior in (if rule.source == "projectSettings" then {Deny, Ask} else {Allow, Deny, Ask})
  {
  }

  /** A mode that does not come from the command line allows no command, deletion or connection unasked. */
  lemma OnlyTheCommandLineBypasses(b: Broker, modeSource: string, r: Request, reason: Reason)
    requires PolicyAccepted(b.mode, modeSource, b.rules) && modeSource != "cliArg"
    requires Proper(r) && Unruled(b, r) && Silent(b.rules, Ask, r) && r.action in {"execute", "delete", "network"}
    ensures !Unasked(b, r, Allow, reason)
  {
    hide Decide, Silent, Proper, Local;
    ModesDecide(b, r);
    var no: nat -> Answer := i => Failed;
    AloneDecides(b, r, no);
    var end := Own(b, r, no(0));
    assert Decide([b], r, no).0 != Ok(Decision(Allow, reason)) by {
      if b.mode != "plan" {
        assert AskedOf(b, r, no(0), (end.0, end.1));
      }
    }
  }

  function WithoutProject(rules: seq<Rule>): seq<Rule> {
    if rules == [] then []
    else (if rules[0].source == "projectSettings" then [] else [rules[0]]) + WithoutProject(rules[1..])
  }

  lemma {:induction false} WithoutProjectHolds(rules: seq<Rule>, rule: Rule)
    ensures rule in WithoutProject(rules) <==> rule in rules && rule.source != "projectSettings"
  {
    if rules != [] {
      WithoutProjectHolds(rules[1..], rule);
      assert rules == [rules[0]] + rules[1..];
    }
  }

  lemma SilentIff(rules: seq<Rule>, behavior: Behavior, r: Request)
    ensures Silent(rules, behavior, r) <==> forall rule :: rule in rules ==> !Speaks(rule, behavior, r)
  {
  }

  /** Taking the project's rules away takes no permission away, and leaves nothing to say that was unsaid. */
  lemma ProjectRulesAway(rules: seq<Rule>, r: Request)
    requires forall rule :: rule in rules ==> RuleAccepted(rule)
    ensures Silent(rules, Deny, r) ==> Silent(WithoutProject(rules), Deny, r)
    ensures Silent(rules, Ask, r) ==> Silent(WithoutProject(rules), Ask, r)
    ensures Silent(rules, Allow, r) <==> Silent(WithoutProject(rules), Allow, r)
  {
    hide Silent, WithoutProject;
    forall rule
      ensures rule in WithoutProject(rules) <==> rule in rules && rule.source != "projectSettings"
    {
      WithoutProjectHolds(rules, rule);
    }
    forall behavior
      ensures Silent(rules, behavior, r) <==> forall rule :: rule in rules ==> !Speaks(rule, behavior, r)
      ensures Silent(WithoutProject(rules), behavior, r) <==>
              forall rule :: rule in WithoutProject(rules) ==> !Speaks(rule, behavior, r)
    {
      SilentIff(rules, behavior, r);
      SilentIff(WithoutProject(rules), behavior, r);
    }
  }

  /** The project's rules ask about what plan mode refuses without them. */
  predicate AsksAgainstThePlan(b: Broker, r: Request) {
    && b.mode == "plan" && r.action != "read" && Unruled(b, r)
    && !Silent(b.rules, Ask, r) && Silent(WithoutProject(b.rules), Ask, r)
  }

  /** One broker and one answer. */
  lemma ProjectRulesExpandOnce(b: Broker, r: Request, answer: Answer)
    requires forall rule :: rule in b.rules ==> RuleAccepted(rule)
    ensures var bare := b.(rules := WithoutProject(b.rules));
      (Allows(Own(b, r, answer).0) && !Allows(Own(bare, r, answer).0)) <==>
      (AsksAgainstThePlan(b, r) && !b.headless && b.hasConfirmer && answer.Answered? && answer.behavior == Allow)
  {
    hide Silent, First, WithoutProject, RuleAccepted;
    var rules := WithoutProject(b.rules);
    ProjectRulesAway(b.rules, r);
    forall behavior
      ensures First(b.rules, behavior, r).None? <==> Silent(b.rules, behavior, r)
      ensures First(rules, behavior, r).None? <==> Silent(rules, behavior, r)
    {
      FirstIsFirst(b.rules, behavior, r);
      FirstIsFirst(rules, behavior, r);
    }
  }

  /** Whatever the user answers, what the broker allows the other allows too. */
  ghost predicate AllowsNoMore(b: Broker, other: Broker, r: Request) {
    forall answers: nat -> Answer :: Allows(Decide([b], r, answers).0) ==> Allows(Decide([other], r, answers).0)
  }

  /** Rules of the project are meant to take permissions away only. They do exactly when they leave plan
      mode alone: where plan mode refuses and only a project rule asks, a user who is there can allow. */
  lemma ProjectRulesOnlyReduceIff(b: Broker, modeSource: string, r: Request)
    requires PolicyAccepted(b.mode, modeSource, b.rules) && Proper(r)
    ensures AllowsNoMore(b, b.(rules := WithoutProject(b.rules)), r) <==>
            !(AsksAgainstThePlan(b, r) && !b.headless && b.hasConfirmer)
  {
    hide Decide, Own, Silent, Proper, WithoutProject;
    var bare := b.(rules := WithoutProject(b.rules));
    forall answers: nat -> Answer
      ensures Allows(Decide([b], r, answers).0) && !Allows(Decide([bare], r, answers).0) ==>
                AsksAgainstThePlan(b, r) && !b.headless && b.hasConfirmer
      ensures AsksAgainstThePlan(b, r) && !b.headless && b.hasConfirmer && answers(0) == Answered(Allow, false) ==>
                Allows(Decide([b], r, answers).0) && !Allows(Decide([bare], r, answers).0)
    {
      AloneDecides(b, r, answers);
      AloneDecides(bare, r, answers);
      ProjectRulesExpandOnce(b, r, answers(0));
    }
    var yes: nat -> Answer := i => Answered(Allow, false);
    assert yes(0) == Answered(Allow, false);
    if AsksAgainstThePlan(b, r) && !b.headless && b.hasConfirmer {
      assert Allows(Decide([b], r, yes).0) && !Allows(Decide([bare], r, yes).0);
      assert !AllowsNoMore(b, bare, r);
    } else {
      assert AllowsNoMore(b, bare, r);
    }
  }

  /** A project rule that asks lets a deletion through that plan mode refuses. */
  lemma ProjectRuleExpands()
    ensures var rule, r, answers := Rule("ask", "projectSettings", Ask, "", "", []),
      Request("Bash", "delete", "", [], true), (i: nat) => Answered(Allow, false);
      && PolicyAccepted("plan", "userSettings", [rule])
      && Allows(Decide([Broker("plan", [rule], false, true, {})], r, answers).0)
      && !Allows(Decide([Broker("plan", [], false, true, {})], r, answers).0)
  {
    var rule, r := Rule("ask", "projectSettings", Ask, "", "", []), Request("Bash", "delete", "", [], true);
    var answers: nat -> Answer := i => Answered(Allow, false);
    var with, bare := Broker("plan", [rule], false, true, {}), Broker("plan", [], false, true, {});
    AloneDecides(with, r, answers);
    AloneDecides(bare, r, answers);
    assert [rule][1..] == [];
  }
}
