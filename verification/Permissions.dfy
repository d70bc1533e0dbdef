/**
 Permission decisions (internal/permissions/broker.go, policy.go, trust.go): brokers in a chain of
 parents, each with rules, a mode and remembered approvals, and the enterprise bounds on tools.
 Whether a request's paths stay inside its workspace is given with the request.
 */
module Permissions {
  import opened Prelude
  import opened Ordering

  datatype Behavior = Allow | Deny | Ask | OtherBehavior

  /** An empty tool or action matches every request. */
  datatype Rule = Rule(id: string, source: string, behavior: Behavior, tool: string, action: string,
      allowedTools: seq<string>)

  datatype Request = Request(tool: string, action: string, command: string, network: seq<string>, pathsOk: bool)

  datatype Reason =
    | InvalidRequest | OutsideWorkspace | ExplicitRule(id: string) | SessionApproval | ModeDefault
    | Unavailable | Confirmed(remember: bool) | NotConfirmed

  datatype Decision = Decision(behavior: Behavior, reason: Reason)

  /** What the confirmer does when it is asked. */
  datatype Answer = Failed | Answered(behavior: Behavior, remember: bool)

  datatype DecideError = ConfirmFailed | AuditFailed

  datatype Approval = Approval(tool: string, action: string)

  datatype Broker = Broker(mode: string, rules: seq<Rule>, headless: bool, hasConfirmer: bool, session: set<Approval>)

  const ACTIONS: set<string> := {"read", "write", "execute", "delete", "network"}

  const MODES: set<string> := {"default", "plan", "accept-edits", "bypass"}

  // ------------------------------------------------------------ policies

  predicate RuleAccepted(rule: Rule) {
    && rule.id != ""
    && rule.behavior != OtherBehavior
    && !(rule.source == "projectSettings" && rule.behavior == Allow)
  }

  /** validatePolicy, the empty mode standing for the default one. */
  predicate PolicyAccepted(mode: string, modeSource: string, rules: seq<Rule>) {
    && (mode == "" || mode in MODES)
    && (mode == "bypass" ==> modeSource == "cliArg")
    && (forall i :: 0 <= i < |rules| ==> RuleAccepted(rules[i]))
  }

  predicate RuleMatches(rule: Rule, r: Request) {
    && !(rule.allowedTools != [] && r.tool in rule.allowedTools)
    && (rule.tool == "" || rule.tool == r.tool)
    && (rule.action == "" || rule.action == r.action)
  }

  function ModeBehavior(mode: string, action: string): Behavior {
    match mode
    case "plan" => if action == "read" then Allow else Deny
    case "accept-edits" => if action == "read" || action == "write" then Allow else Ask
    case "bypass" => Allow
    case _ => if action == "read" then Allow else Ask
  }

  // ------------------------------------------------------------ one broker

  function First(rules: seq<Rule>, behavior: Behavior, r: Request): Option<Rule> {
    if rules == [] then None
    else if rules[0].behavior == behavior && RuleMatches(rules[0], r) then Some(rules[0])
    else First(rules[1..], behavior, r)
  }

  function Local(b: Broker, r: Request): Decision {
    var deny := First(b.rules, Deny, r);
    var allow := First(b.rules, Allow, r);
    var ask := First(b.rules, Ask, r);
    if deny.Some? then Decision(Deny, ExplicitRule(deny.value.id))
    else if allow.Some? then Decision(Allow, ExplicitRule(allow.value.id))
    else if Approval(r.tool, r.action) in b.session then Decision(Allow, SessionApproval)
    else if ask.Some? then Decision(Ask, ExplicitRule(ask.value.id))
    else Decision(ModeBehavior(b.mode, r.action), ModeDefault)
  }

  function Confirm(b: Broker, r: Request, answer: Answer): (Result<Decision, DecideError>, Broker) {
    if b.headless || !b.hasConfirmer then (Ok(Decision(Deny, Unavailable)), b)
    else match answer
      case Failed => (Err(ConfirmFailed), b)
      case Answered(behavior, remember) =>
        if behavior == Allow then
          (Ok(Decision(Allow, Confirmed(remember))),
           if remember then b.(session := b.session + {Approval(r.tool, r.action)}) else b)
        else (Ok(Decision(Deny, NotConfirmed)), b)
  }

  /** The broker's own decision, the user consulted where it says ask. */
  function Own(b: Broker, r: Request, answer: Answer): (Result<Decision, DecideError>, Broker) {
    if Local(b, r).behavior == Ask then Confirm(b, r, answer) else (Ok(Local(b, r)), b)
  }

  // ------------------------------------------------------------ a chain of brokers

  predicate ValidRequest(r: Request) {
    && r.tool != ""
    && (r.command != "" ==> r.action == "execute")
    && (r.network != [] ==> r.action == "network" || r.action == "execute")
    && r.action in ACTIONS
  }

  function Rank(behavior: Behavior): nat {
    match behavior
    case Deny => 2
    case Ask => 1
    case _ => 0
  }

  /** decide for chain[0], whose ancestors follow it. The broker with n ancestors gets answers(n). */
  function Decide(chain: seq<Broker>, r: Request, answers: nat -> Answer): (Result<Decision, DecideError>, seq<Broker>)
    requires chain != []
    decreases |chain|
  {
    if !ValidRequest(r) then (Ok(Decision(Deny, InvalidRequest)), chain)
    else if !r.pathsOk then (Ok(Decision(Deny, OutsideWorkspace)), chain)
    else
      var (own, b) := Own(chain[0], r, answers(|chain| - 1));
      if own.Err? || own.value.behavior == Deny || |chain| == 1 then (own, [b] + chain[1..])
      else
        var (above, rest) := Decide(chain[1..], r, answers);
        (if above.Err? || Rank(above.value.behavior) > Rank(own.value.behavior) then above else own, [b] + rest)
  }

  predicate Allows(result: Result<Decision, DecideError>) {
    result.Ok? && result.value.behavior == Allow
  }

  lemma OwnIsDecisive(b: Broker, r: Request, answer: Answer)
    ensures Own(b, r, answer).0.Ok? ==> Own(b, r, answer).0.value.behavior in {Allow, Deny}
    ensures var c := Own(b, r, answer).1; c == b.(session := c.session)
  {
  }

  lemma {:induction false} DecideShape(chain: seq<Broker>, r: Request, answers: nat -> Answer)
    requires chain != []
    ensures Decide(chain, r, answers).0.Ok? ==> Decide(chain, r, answers).0.value.behavior in {Allow, Deny}
    ensures |Decide(chain, r, answers).1| == |chain|
    decreases |chain|
  {
    OwnIsDecisive(chain[0], r, answers(|chain| - 1));
    if |chain| > 1 {
      DecideShape(chain[1..], r, answers);
    }
  }

  /** A chain is its first broker's own decision and, where that allows, the decision of those above. */
  lemma DecideStep(chain: seq<Broker>, r: Request, answers: nat -> Answer)
    requires chain != [] && ValidRequest(r) && r.pathsOk
    ensures var (own, b) := Own(chain[0], r, answers(|chain| - 1));
      if Allows(own) && |chain| > 1 then
        var (above, rest) := Decide(chain[1..], r, answers);
        Decide(chain, r, answers) == (if Allows(above) then own else above, [b] + rest)
      else Decide(chain, r, answers) == (own, [b] + chain[1..])
  {
    hide Own, ValidRequest;
    OwnIsDecisive(chain[0], r, answers(|chain| - 1));
    if |chain| > 1 {
      DecideShape(chain[1..], r, answers);
    }
  }

  /** A request is allowed exactly when it is well formed, stays in its workspace, and every broker of
      the chain allows it on its own. */
  lemma {:induction false} AllowedIff(chain: seq<Broker>, r: Request, answers: nat -> Answer)
    requires chain != []
    ensures Allows(Decide(chain, r, answers).0) <==>
            ValidRequest(r) && r.pathsOk &&
            (forall i :: 0 <= i < |chain| ==> Allows(Own(chain[i], r, answers(|chain| - 1 - i)).0))
    decreases |chain|
  {
    hide Own, ValidRequest;
    var own := Own(chain[0], r, answers(|chain| - 1)).0;
    OwnIsDecisive(chain[0], r, answers(|chain| - 1));
    if |chain| > 1 {
      var above := chain[1..];
      DecideShape(above, r, answers);
      AllowedIff(above, r, answers);
      assert forall i :: 0 <= i < |above| ==> above[i] == chain[i + 1];
      if forall i :: 0 <= i < |above| ==> Allows(Own(above[i], r, answers(|above| - 1 - i)).0) {
        forall i | 1 <= i < |chain|
          ensures Allows(Own(chain[i], r, answers(|chain| - 1 - i)).0)
        {
          assert chain[i] == above[i - 1];
        }
      } else {
        var i :| 0 <= i < |above| && !Allows(Own(above[i], r, answers(|above| - 1 - i)).0);
        assert !Allows(Own(chain[i + 1], r, answers(|chain| - 1 - (i + 1))).0);
      }
    }
  }

  lemma {:induction false} FirstMeans(rules: seq<Rule>, behavior: Behavior, r: Request)
    ensures First(rules, behavior, r).Some? <==>
            exists i :: 0 <= i < |rules| && rules[i].behavior == behavior && RuleMatches(rules[i], r)
  {
    if rules != [] {
      FirstMeans(rules[1..], behavior, r);
      if First(rules[1..], behavior, r).Some? {
        var i :| 0 <= i < |rules[1..]| && rules[1..][i].behavior == behavior && RuleMatches(rules[1..][i], r);
        assert rules[i + 1].behavior == behavior && RuleMatches(rules[i + 1], r);
      }
      forall i | 1 <= i < |rules| && rules[i].behavior == behavior && RuleMatches(rules[i], r)
        ensures First(rules[1..], behavior, r).Some?
      {
        assert rules[1..][i - 1] == rules[i];
      }
    }
  }

  predicate HasDenyRule(b: Broker, r: Request) {
    exists i :: 0 <= i < |b.rules| && b.rules[i].behavior == Deny && RuleMatches(b.rules[i], r)
  }

  /** A matching deny rule anywhere in the chain rules out allow, in every mode, whatever was
      remembered and whatever the user answers. */
  lemma DenyRuleWins(chain: seq<Broker>, r: Request, answers: nat -> Answer, i: nat)
    requires i < |chain| && HasDenyRule(chain[i], r)
    ensures !Allows(Decide(chain, r, answers).0)
  {
    FirstMeans(chain[i].rules, Deny, r);
    AllowedIff(chain, r, answers);
    assert !Allows(Own(chain[i], r, answers(|chain| - 1 - i)).0);
  }

  // ------------------------------------------------------------ remembered approvals

  /** The chain in every part but the remembered approvals. */
  predicate SamePolicy(a: seq<Broker>, b: seq<Broker>) {
    |a| == |b| && forall i :: 0 <= i < |a| ==> a[i].(session := {}) == b[i].(session := {})
  }

  /** The approvals gained by the broker's own decision. */
  ghost predicate Gained(b: Broker, c: Broker, r: Request, answer: Answer) {
    && b.session <= c.session
    && forall a :: a in c.session - b.session ==>
         a == Approval(r.tool, r.action) && answer == Answered(Allow, true) && Local(b, r).behavior == Ask &&
             !b.headless && b.hasConfirmer
  }

  lemma OwnGains(b: Broker, r: Request, answer: Answer)
    ensures Gained(b, Own(b, r, answer).1, r, answer)
  {
    hide Local;
  }

  lemma NothingGained(b: Broker, r: Request, answer: Answer)
    ensures Gained(b, b, r, answer)
  {
  }

  /** One request changes nothing but sessions, and a broker's session only by the request itself,
      when the user was asked there and answered yes, remember. */
  lemma {:induction false} SessionsComeFromTheUser(chain: seq<Broker>, r: Request, answers: nat -> Answer)
    requires chain != []
    ensures var next := Decide(chain, r, answers).1;
      && SamePolicy(chain, next)
      && (forall i :: 0 <= i < |chain| ==> Gained(chain[i], next[i], r, answers(|chain| - 1 - i)))
    decreases |chain|
  {
    hide Own, Local, Gained, ValidRequest;
    OwnIsDecisive(chain[0], r, answers(|chain| - 1));
    OwnGains(chain[0], r, answers(|chain| - 1));
    forall b: Broker, answer
      ensures Gained(b, b, r, answer)
    {
      NothingGained(b, r, answer);
    }
    if |chain| > 1 {
      SessionsComeFromTheUser(chain[1..], r, answers);
    }
  }

  // ------------------------------------------------------------ brokers that share ancestors

  /** All brokers, each with its parent; a parent is made before its children. */
  datatype Forest = Forest(brokers: seq<Broker>, parents: seq<Option<nat>>)

  predicate ParentsFirst(parents: seq<Option<nat>>) {
    forall i :: 0 <= i < |parents| && parents[i].Some? ==> parents[i].value < i
  }

  predicate ValidForest(f: Forest) {
    |f.brokers| == |f.parents| && ParentsFirst(f.parents)
  }

  /** A broker and its ancestors, nearest first. */
  function Lineage(parents: seq<Option<nat>>, i: nat): (at: seq<nat>)
    requires ParentsFirst(parents) && i < |parents|
    ensures at != [] && at[0] == i && forall k :: 0 <= k < |at| ==> at[k] <= i
    decreases i
  {
    match parents[i]
    case None => [i]
    case Some(p) => [i] + Lineage(parents, p)
  }

  function Depth(parents: seq<Option<nat>>, i: nat): nat
    requires ParentsFirst(parents) && i < |parents|
  {
    |Lineage(parents, i)| - 1
  }

  function Pick(brokers: seq<Broker>, at: seq<nat>): (chain: seq<Broker>)
    requires forall k :: 0 <= k < |at| ==> at[k] < |brokers|
    ensures |chain| == |at| && forall k :: 0 <= k < |at| ==> chain[k] == brokers[at[k]]
  {
    seq(|at|, k requires 0 <= k < |at| => brokers[at[k]])
  }

  function PutBack(brokers: seq<Broker>, at: seq<nat>, chain: seq<Broker>): (after: seq<Broker>)
    requires |chain| == |at| && forall k :: 0 <= k < |at| ==> at[k] < |brokers|
    ensures |after| == |brokers|
    decreases |at|
  {
    if at == [] then brokers else PutBack(brokers[at[0] := chain[0]], at[1..], chain[1..])
  }

  /** Someone asks a broker, or a broker is made, with or without a parent. */
  datatype Event =
    | Consult(broker: nat, request: Request, answers: nat -> Answer)
    | Make(parent: Option<nat>, mode: string, rules: seq<Rule>, headless: bool, hasConfirmer: bool)

  predicate Possible(f: Forest, e: Event) {
    match e
    case Consult(broker, _, _) => broker < |f.brokers|
    case Make(parent, _, _, _, _) => parent.Some? ==> parent.value < |f.brokers|
  }

  function Asked(f: Forest, broker: nat, r: Request, answers: nat -> Answer): (Result<Decision, DecideError>, Forest)
    requires ValidForest(f) && broker < |f.brokers|
  {
    var at := Lineage(f.parents, broker);
    var chain := Pick(f.brokers, at);
    var (result, after) := Decide(chain, r, answers);
    DecideShape(chain, r, answers);
    (result, f.(brokers := PutBack(f.brokers, at, after)))
  }

  function Happen(f: Forest, e: Event): (g: Forest)
    requires ValidForest(f)
    ensures ValidForest(g)
  {
    if !Possible(f, e) then f
    else match e
      case Consult(broker, r, answers) => Asked(f, broker, r, answers).1
      case Make(parent, mode, rules, headless, hasConfirmer) =>
        Forest(f.brokers + [Broker(mode, rules, headless, hasConfirmer, {})], f.parents + [parent])
  }

  function HappenAll(f: Forest, events: seq<Event>): (g: Forest)
    requires ValidForest(f)
    ensures ValidForest(g)
    decreases |events|
  {
    if events == [] then f else HappenAll(Happen(f, events[0]), events[1..])
  }

  /** In this event the user approved, with remember, the tool and action at the n-th broker. */
  predicate Approves(f: Forest, e: Event, n: nat, a: Approval)
    requires ValidForest(f)
  {
    e.Consult? && e.broker < |f.brokers| && n in Lineage(f.parents, e.broker) && n < |f.brokers| &&
    e.answers(Depth(f.parents, n)) == Answered(Allow, true) && a == Approval(e.request.tool, e.request.action)
  }

  /** Some event of the history did. */
  predicate Approved(f: Forest, events: seq<Event>, n: nat, a: Approval)
    requires ValidForest(f)
    decreases |events|
  {
    events != [] && (Approves(f, events[0], n, a) || Approved(Happen(f, events[0]), events[1..], n, a))
  }

  /** The part of a lineage from the k-th broker on is that broker's own lineage. */
  lemma {:induction false} LineageTail(parents: seq<Option<nat>>, i: nat, k: nat)
    requires ParentsFirst(parents) && i < |parents| && k < |Lineage(parents, i)|
    ensures Lineage(parents, i)[k] < |parents|
    ensures Lineage(parents, Lineage(parents, i)[k]) == Lineage(parents, i)[k..]
    decreases i
  {
    if k > 0 {
      var p := parents[i].value;
      LineageTail(parents, p, k - 1);
      assert Lineage(parents, i)[k..] == Lineage(parents, p)[k - 1..];
    }
  }

  lemma {:induction false} LineageDescends(parents: seq<Option<nat>>, i: nat)
    requires ParentsFirst(parents) && i < |parents|
    ensures forall j, k :: 0 <= j < k < |Lineage(parents, i)| ==> Lineage(parents, i)[j] > Lineage(parents, i)[k]
    decreases i
  {
    if parents[i].Some? {
      LineageDescends(parents, parents[i].value);
    }
  }

  lemma {:induction false} PutBackPuts(brokers: seq<Broker>, at: seq<nat>, chain: seq<Broker>, n: nat)
    requires |chain| == |at| && (forall k :: 0 <= k < |at| ==> at[k] < |brokers|) && n < |brokers|
    requires forall j, k :: 0 <= j < k < |at| ==> at[j] != at[k]
    ensures n !in at ==> PutBack(brokers, at, chain)[n] == brokers[n]
    ensures forall k :: 0 <= k < |at| && at[k] == n ==> PutBack(brokers, at, chain)[n] == chain[k]
    decreases |at|
  {
    if at != [] {
      PutBackPuts(brokers[at[0] := chain[0]], at[1..], chain[1..], n);
      assert at == [at[0]] + at[1..];
    }
  }

  /** A broker differs from an earlier state of itself at most in approvals it has gained. */
  ghost predicate Grown(b: Broker, c: Broker) {
    b.session <= c.session && b.(session := {}) == c.(session := {})
  }

  /** What one broker of the chain gains. */
  lemma ChainGains(chain: seq<Broker>, r: Request, answers: nat -> Answer, k: nat, a: Approval)
    requires k < |chain|
    ensures var after := Decide(chain, r, answers).1;
      && |after| == |chain| && Grown(chain[k], after[k])
      && (a in after[k].session - chain[k].session ==>
            answers(|chain| - 1 - k) == Answered(Allow, true) && a == Approval(r.tool, r.action))
  {
    hide Decide, Local;
    DecideShape(chain, r, answers);
    SessionsComeFromTheUser(chain, r, answers);
    assert Gained(chain[k], Decide(chain, r, answers).1[k], r, answers(|chain| - 1 - k));
  }

  lemma DepthAt(parents: seq<Option<nat>>, i: nat, at: seq<nat>)
    requires ParentsFirst(parents) && i < |parents| && at == Lineage(parents, i)
    ensures Depth(parents, i) == |at| - 1
  {
  }

  /** Asking one broker changes nothing but the sessions of its lineage, and those only by the
      request's own approval where the user gave it. */
  lemma AskGains(f: Forest, e: Event, n: nat, a: Approval)
    requires ValidForest(f) && e.Consult? && Possible(f, e) && n < |f.brokers|
    ensures var g := Happen(f, e);
      && g.parents == f.parents && |g.brokers| == |f.brokers| && Grown(f.brokers[n], g.brokers[n])
      && (a in g.brokers[n].session - f.brokers[n].session ==> Approves(f, e, n, a))
  {
    hide Decide, Depth, PutBack, Lineage;
    var at := Lineage(f.parents, e.broker);
    var chain := Pick(f.brokers, at);
    DecideShape(chain, e.request, e.answers);
    LineageDescends(f.parents, e.broker);
    PutBackPuts(f.brokers, at, Decide(chain, e.request, e.answers).1, n);
    if n in at {
      var k: nat :| k < |at| && at[k] == n;
      LineageTail(f.parents, e.broker, k);
      DepthAt(f.parents, n, at[k..]);
      ChainGains(chain, e.request, e.answers, k, a);
    }
  }

  lemma AskKeepsCount(f: Forest, e: Event)
    requires ValidForest(f) && e.Consult? && Possible(f, e)
    ensures |Happen(f, e).brokers| == |f.brokers|
  {
  }

  /** After any history of requests to any brokers of the forest, new ones included: no policy has
      changed, and an approval a broker remembers is one it had or one the user gave there. */
  lemma {:induction false} EveryApprovalWasGiven(f: Forest, events: seq<Event>, n: nat, a: Approval)
    requires ValidForest(f)
    ensures var g := HappenAll(f, events);
      && |f.brokers| <= |g.brokers|
      && (n < |f.brokers| ==> Grown(f.brokers[n], g.brokers[n]))
      && (n < |g.brokers| && a in g.brokers[n].session ==>
            (n < |f.brokers| && a in f.brokers[n].session) || Approved(f, events, n, a))
    decreases |events|
  {
    hide Approves, Lineage, Asked;
    if events != [] {
      var next := Happen(f, events[0]);
      EveryApprovalWasGiven(next, events[1..], n, a);
      if events[0].Consult? && Possible(f, events[0]) {
        if n < |f.brokers| {
          AskGains(f, events[0], n, a);
        } else {
          AskKeepsCount(f, events[0]);
        }
      }
    }
  }

  /** What lets a broker allow: a rule, its mode, an approval, or a confirmation now. */
  predicate HasGround(b: Broker, r: Request, approved: bool, answer: Answer) {
    || First(b.rules, Allow, r).Some?
    || ModeBehavior(b.mode, r.action) == Allow
    || approved
    || (!b.headless && b.hasConfirmer && answer.Answered? && answer.behavior == Allow)
  }

  lemma AllowingHasGround(b: Broker, r: Request, answer: Answer)
    requires Allows(Own(b, r, answer).0)
    ensures !HasDenyRule(b, r) && HasGround(b, r, Approval(r.tool, r.action) in b.session, answer)
  {
    FirstMeans(b.rules, Deny, r);
  }

  lemma AllowedAt(chain: seq<Broker>, r: Request, answers: nat -> Answer, k: nat)
    requires k < |chain| && Allows(Decide(chain, r, answers).0)
    ensures Allows(Own(chain[k], r, answers(|chain| - 1 - k)).0)
  {
    hide Decide, Own;
    AllowedIff(chain, r, answers);
  }

  lemma AskedDecides(g: Forest, broker: nat, r: Request, answers: nat -> Answer, at: seq<nat>)
    requires ValidForest(g) && broker < |g.brokers| && at == Lineage(g.parents, broker)
    ensures Asked(g, broker, r, answers).0 == Decide(Pick(g.brokers, at), r, answers).0
  {
    hide Decide, PutBack, Lineage, Pick;
  }

  lemma AllowedByEach(g: Forest, broker: nat, r: Request, answers: nat -> Answer, n: nat)
    requires ValidForest(g) && broker < |g.brokers| && n in Lineage(g.parents, broker)
    requires Allows(Asked(g, broker, r, answers).0)
    ensures n < |g.brokers| && Allows(Own(g.brokers[n], r, answers(Depth(g.parents, n))).0)
  {
    hide Decide, Own, Depth, PutBack, Lineage, Allows, Asked, Pick;
    var at := Lineage(g.parents, broker);
    var k: nat :| k < |at| && at[k] == n;
    LineageTail(g.parents, broker, k);
    DepthAt(g.parents, n, at[k..]);
    AskedDecides(g, broker, r, answers, at);
    AllowedAt(Pick(g.brokers, at), r, answers, k);
    assert Pick(g.brokers, at)[k] == g.brokers[n] && Depth(g.parents, n) == |at| - 1 - k;
  }

  lemma GroundGrows(b: Broker, r: Request, approved: bool, more: bool, answer: Answer)
    requires HasGround(b, r, approved, answer) && (approved ==> more)
    ensures HasGround(b, r, more, answer)
  {
  }

  /** After any history in a forest of brokers, a request to one of them is allowed only if every broker
      of its lineage has no matching deny rule and a ground of its own: a rule, its mode, an approval
      it began with or that the user gave there in the history, or a confirmation now. */
  lemma AllowedAfterAnyHistory(f: Forest, events: seq<Event>, broker: nat, r: Request, answers: nat -> Answer, n: nat)
    requires ValidForest(f) && broker < |HappenAll(f, events).brokers|
    requires Allows(Asked(HappenAll(f, events), broker, r, answers).0)
    requires n in Lineage(HappenAll(f, events).parents, broker)
    ensures var g := HappenAll(f, events);
      && n < |g.brokers| && !HasDenyRule(g.brokers[n], r)
      && HasGround(g.brokers[n], r,
                   (n < |f.brokers| && Approval(r.tool, r.action) in f.brokers[n].session) ||
                   Approved(f, events, n, Approval(r.tool, r.action)), answers(Depth(g.parents, n)))
  {
    hide Own, HappenAll, Approved, HasGround, HasDenyRule, Depth, Asked, Lineage;
    var g := HappenAll(f, events);
    AllowedByEach(g, broker, r, answers, n);
    AllowingHasGround(g.brokers[n], r, answers(Depth(g.parents, n)));
    EveryApprovalWasGiven(f, events, n, Approval(r.tool, r.action));
    GroundGrows(g.brokers[n], r, Approval(r.tool, r.action) in g.brokers[n].session,
                (n < |f.brokers| && Approval(r.tool, r.action) in f.brokers[n].session) ||
                Approved(f, events, n, Approval(r.tool, r.action)), answers(Depth(g.parents, n)));
  }

  // ------------------------------------------------------------ managed tool bounds

  predicate ToolNameOk(name: string) {
    && name != "" && ByteLength(name) <= 128
    && forall i :: 0 <= i < |name| ==> name[i] != ' ' && name[i] != '\t' && name[i] != '\r' && name[i] != '\n'
  }

  predicate NamesOk(values: seq<string>) {
    forall i :: 0 <= i < |values| ==> ToolNameOk(TrimSpace(values[i]))
  }

  function Names(values: seq<string>): set<string> {
    set i | 0 <= i < |values| :: TrimSpace(values[i])
  }

  /** The list holds exactly these names, each once, in increasing order. */
  ghost predicate Lists(list: seq<string>, names: set<string>) {
    && (forall x :: x in list <==> x in names)
    && (forall i, j :: 0 <= i < j < |list| ==> Less(list[i], list[j]))
  }

  const LEVELS: set<string> := {"", "trusted", "suggested", "managed"}

  function DenyRule(tool: string): Rule {
    Rule("managed-deny-" + tool, "policySettings", Deny, if tool == "*" then "" else tool, "", [])
  }

  function DenyRules(denied: seq<string>): seq<Rule> {
    if denied == [] then [] else [DenyRule(denied[0])] + DenyRules(denied[1..])
  }

  function Boundary(level: string, allowed: seq<string>): seq<Rule> {
    if level == "managed" && allowed != [] && "*" !in allowed then
      [Rule("managed-allowlist-boundary", "policySettings", Deny, "", "", allowed)]
    else []
  }

  /** The rules are those of the given bounds. */
  ghost predicate AreTrustRules(rules: seq<Rule>, level: string, allowed: set<string>, denied: set<string>) {
    exists a, d :: Lists(a, allowed) && Lists(d, denied) && rules == DenyRules(d) + Boundary(level, a)
  }

  lemma {:induction false} DenyRulesMeaning(denied: seq<string>, r: Request)
    ensures |DenyRules(denied)| == |denied|
    ensures forall i :: 0 <= i < |denied| ==> DenyRules(denied)[i] == DenyRule(denied[i])
  {
    if denied != [] {
      DenyRulesMeaning(denied[1..], r);
    }
  }

  /** What the managed bounds deny: the denied tools, everything when "*" is denied, and in a managed
      workspace with an allow list everything outside it, unless the list holds "*". */
  predicate Bounded(level: string, allowed: set<string>, denied: set<string>, tool: string) {
    || (tool in denied && tool != "")
    || "*" in denied
    || (level == "managed" && allowed != {} && "*" !in allowed && tool !in allowed)
  }

  /** The rules made of two lists, and where they come from. */
  lemma RuleAt(a: seq<string>, d: seq<string>, level: string, i: nat, r: Request)
    requires i < |DenyRules(d) + Boundary(level, a)|
    ensures |DenyRules(d)| == |d|
    ensures var rule := (DenyRules(d) + Boundary(level, a))[i];
      && rule.behavior == Deny && RuleAccepted(rule)
      && (i < |d| ==> rule == DenyRule(d[i]))
      && (i >= |d| ==> level == "managed" && a != [] && "*" !in a && (RuleMatches(rule, r) <==> r.tool !in a))
  {
    hide DenyRules;
    DenyRulesMeaning(d, r);
  }

  lemma DenyRuleMatches(tool: string, r: Request)
    ensures RuleMatches(DenyRule(tool), r) <==> tool == "*" || tool == "" || tool == r.tool
  {
  }

  lemma ListsSome(list: seq<string>, names: set<string>)
    requires Lists(list, names)
    ensures names != {} <==> list != []
  {
    hide Less;
    if list != [] {
      assert list[0] in names;
    } else {
      assert forall x :: x !in names;
    }
  }

  lemma TrustRulesDenyIff(rules: seq<Rule>, level: string, allowed: set<string>, denied: set<string>, r: Request)
    requires AreTrustRules(rules, level, allowed, denied) && "" !in denied
    ensures (exists i :: 0 <= i < |rules| && RuleMatches(rules[i], r)) <==> Bounded(level, allowed, denied, r.tool)
    ensures forall i :: 0 <= i < |rules| ==> rules[i].behavior == Deny && RuleAccepted(rules[i])
  {
    hide DenyRules, DenyRule, Less, RuleMatches, RuleAccepted;
    var a, d :| Lists(a, allowed) && Lists(d, denied) && rules == DenyRules(d) + Boundary(level, a);
    DenyRulesMeaning(d, r);
    ListsSome(a, allowed);
    forall i | 0 <= i < |rules|
      ensures rules[i].behavior == Deny && RuleAccepted(rules[i])
      ensures RuleMatches(rules[i], r) ==> Bounded(level, allowed, denied, r.tool)
    {
      RuleAt(a, d, level, i, r);
      if i < |d| {
        DenyRuleMatches(d[i], r);
        assert d[i] in denied;
      }
    }
    if Bounded(level, allowed, denied, r.tool) {
      var k: nat;
      if "*" in denied {
        k :| k < |d| && d[k] == "*";
      } else if r.tool in denied {
        k :| k < |d| && d[k] == r.tool;
      } else {
        k := |d|;
      }
      RuleAt(a, d, level, k, r);
      if k < |d| {
        DenyRuleMatches(d[k], r);
      }
      assert RuleMatches(rules[k], r);
    }
  }

  lemma {:induction false} FirstConcat(a: seq<Rule>, b: seq<Rule>, behavior: Behavior, r: Request)
    ensures First(a + b, behavior, r) == if First(a, behavior, r).Some? then First(a, behavior, r)
        else First(b, behavior, r)
  {
    if a == [] {
      assert a + b == b;
    } else {
      assert (a + b)[1..] == a[1..] + b;
      FirstConcat(a[1..], b, behavior, r);
    }
  }

  /** The bounds can only take authority away: with them a broker refuses what is out of bounds, in
      every mode, and otherwise decides as it did without them. */
  lemma TrustRulesOnlyDeny(b: Broker, rules: seq<Rule>, level: string, allowed: set<string>, denied: set<string>,
      r: Request)
    requires AreTrustRules(rules, level, allowed, denied) && "" !in denied
    ensures var bounded := b.(rules := b.rules + rules);
      if Bounded(level, allowed, denied, r.tool) then Local(bounded, r).behavior == Deny
          else Local(bounded, r) == Local(b, r)
  {
    TrustRulesDenyIff(rules, level, allowed, denied, r);
    FirstMeans(rules, Deny, r);
    FirstMeans(rules, Allow, r);
    FirstMeans(rules, Ask, r);
    FirstConcat(b.rules, rules, Deny, r);
    FirstConcat(b.rules, rules, Allow, r);
    FirstConcat(b.rules, rules, Ask, r);
  }

  /** The managed allow list is a boundary for a whole chain. */
  lemma OutOfBoundsIsNeverAllowed(chain: seq<Broker>, i: nat, own: seq<Rule>, rules: seq<Rule>, level: string,
      allowed: set<string>,
      denied: set<string>, r: Request, answers: nat -> Answer)
    requires i < |chain| && chain[i].rules == own + rules
    requires AreTrustRules(rules, level, allowed, denied) && "" !in denied
    requires Bounded(level, allowed, denied, r.tool)
    ensures !Allows(Decide(chain, r, answers).0)
  {
    TrustRulesDenyIff(rules, level, allowed, denied, r);
    var k :| 0 <= k < |rules| && RuleMatches(rules[k], r);
    assert chain[i].rules[|own| + k] == rules[k];
    DenyRuleWins(chain, r, answers, i);
  }
}
