/**
 Permission requests under way at the same time (internal/permissions/broker.go): no lock is held
 between a broker's look at its remembered approvals, the user's answer, the storing of an approval
 and the turn to the parent, so requests to brokers that share ancestors interleave at these points.
 */
module ConcurrentBrokers {
  import opened Prelude
  import opened Permissions

  /** Where a request stands: about to look at a broker, waiting for its user, or about to store. */
  datatype Phase =
    | Entering(at: nat)
    | Asking(at: nat)
    | Storing(at: nat)
    | Returned(result: Result<Decision, DecideError>)

  /** A request to the broker `start`; `first` is that broker's own decision, once it has allowed. */
  datatype Thread = Thread(start: nat, request: Request, first: Option<Decision>, phase: Phase)

  /** At this broker the user of this request said allow, and perhaps remember. */
  datatype Consent = Consent(thread: nat, broker: nat, remember: bool)

  datatype World = World(forest: Forest, threads: seq<Thread>, consents: set<Consent>)

  datatype Step =
    | Begin(broker: nat, request: Request)
    | MakeBroker(parent: Option<nat>, mode: string, rules: seq<Rule>, headless: bool, hasConfirmer: bool)
    | Looks(thread: nat)
    | UserAnswers(thread: nat, answer: Answer)
    | Stores(thread: nat)

  predicate Running(w: World, t: nat) {
    && t < |w.threads| && !w.threads[t].phase.Returned?
    && w.threads[t].phase.at < |w.forest.brokers|
  }

  predicate Enabled(w: World, step: Step) {
    match step
    case Begin(broker, _) => broker < |w.forest.brokers|
    case MakeBroker(parent, _, _, _, _) => parent.Some? ==> parent.value < |w.forest.brokers|
    case Looks(t) => Running(w, t) && w.threads[t].phase.Entering?
    case UserAnswers(t, _) => Running(w, t) && w.threads[t].phase.Asking?
    case Stores(t) => Running(w, t) && w.threads[t].phase.Storing?
  }

  function Started(broker: nat, r: Request): Thread {
    Thread(broker, r, None,
           if !ValidRequest(r) then Returned(Ok(Decision(Deny, InvalidRequest)))
           else if !r.pathsOk then Returned(Ok(Decision(Deny, OutsideWorkspace)))
           else Entering(broker))
  }

  /** After a broker's own decision: a denial ends the request, another goes on to the parent. */
  function Settled(f: Forest, th: Thread, at: nat, d: Decision): (next: Thread)
    requires ValidForest(f) && at < |f.brokers|
    ensures next.start == th.start && next.request == th.request
  {
    var first := if th.first.Some? then th.first else Some(d);
    if d.behavior == Deny then th.(phase := Returned(Ok(d)))
    else match f.parents[at]
      case None => th.(first := first, phase := Returned(Ok(first.value)))
      case Some(p) => th.(first := first, phase := Entering(p))
  }

  function AfterLook(f: Forest, th: Thread, at: nat): Thread
    requires ValidForest(f) && at < |f.brokers|
  {
    var b := f.brokers[at];
    var local := Local(b, th.request);
    if local.behavior != Ask then Settled(f, th, at, local)
    else if b.headless || !b.hasConfirmer then th.(phase := Returned(Ok(Decision(Deny, Unavailable))))
    else th.(phase := Asking(at))
  }

  function AfterAnswer(f: Forest, th: Thread, at: nat, answer: Answer): Thread
    requires ValidForest(f) && at < |f.brokers|
  {
    match answer
    case Failed => th.(phase := Returned(Err(ConfirmFailed)))
    case Answered(behavior, remember) =>
      if behavior != Allow then th.(phase := Returned(Ok(Decision(Deny, NotConfirmed))))
      else if remember then th.(phase := Storing(at))
      else Settled(f, th, at, Decision(Allow, Confirmed(false)))
  }

  function Remembering(f: Forest, th: Thread, at: nat): Forest
    requires at < |f.brokers|
  {
    var b := f.brokers[at];
    f.(brokers := f.brokers[at := b.(session := b.session + {Approval(th.request.tool, th.request.action)})])
  }

  function Next(w: World, step: Step): World
    requires ValidForest(w.forest) && Enabled(w, step)
  {
    match step
    case Begin(broker, request) => w.(threads := w.threads + [Started(broker, request)])
    case MakeBroker(parent, mode, rules, headless, hasConfirmer) =>
      w.(forest := Forest(w.forest.brokers + [Broker(mode, rules, headless, hasConfirmer, {})],
                          w.forest.parents + [parent]))
    case Looks(t) => w.(threads := w.threads[t := AfterLook(w.forest, w.threads[t], w.threads[t].phase.at)])
    case UserAnswers(t, answer) =>
      var at := w.threads[t].phase.at;
      w.(threads := w.threads[t := AfterAnswer(w.forest, w.threads[t], at, answer)],
         consents := if answer.Answered? && answer.behavior == Allow
           then w.consents + {Consent(t, at, answer.remember)} else w.consents)
    case Stores(t) =>
      var th, at := w.threads[t], w.threads[t].phase.at;
      w.(forest := Remembering(w.forest, th, at),
         threads := w.threads[t := Settled(w.forest, th, at, Decision(Allow, Confirmed(true)))])
  }

  lemma NextIsValid(w: World, step: Step)
    requires ValidForest(w.forest) && Enabled(w, step)
    ensures ValidForest(Next(w, step).forest)
    ensures w.forest.parents <= Next(w, step).forest.parents
  {
    hide AfterLook, AfterAnswer, Settled;
  }

  /** Steps that are not possible when their turn comes are skipped. */
  function Execute(w: World, steps: seq<Step>): (v: World)
    requires ValidForest(w.forest)
    ensures ValidForest(v.forest)
    decreases |steps|
  {
    if steps == [] then w
    else if !Enabled(w, steps[0]) then Execute(w, steps[1..])
    else
      NextIsValid(w, steps[0]);
      Execute(Next(w, steps[0]), steps[1..])
  }

  // ------------------------------------------------------------ what every interleaving keeps

  /** The user approved, with remember, this tool and action at the n-th broker, in some request. */
  predicate GivenAt(w: World, n: nat, a: Approval) {
    exists t: nat :: t < |w.threads| && Consent(t, n, true) in w.consents &&
      a == Approval(w.threads[t].request.tool, w.threads[t].request.action)
  }

  /** No policy has changed, and what a broker remembers it remembered at the start or the user approved there. */
  ghost predicate SessionInv(start: Forest, w: World, n: nat) {
    n < |w.forest.brokers| ==>
      && (n < |start.brokers| ==> Grown(start.brokers[n], w.forest.brokers[n]))
      && forall a :: a in w.forest.brokers[n].session ==>
           (n < |start.brokers| && a in start.brokers[n].session) || GivenAt(w, n, a)
  }

  /** The broker has no matching deny rule and a ground to allow: a rule, its mode, an approval it
      began with or that a user gave there, or this request's own confirmation. */
  predicate Cleared(start: Forest, w: World, t: nat, n: nat)
    requires t < |w.threads|
  {
    var r := w.threads[t].request;
    var a := Approval(r.tool, r.action);
    && n < |w.forest.brokers| && !HasDenyRule(w.forest.brokers[n], r)
    && (|| First(w.forest.brokers[n].rules, Allow, r).Some?
        || ModeBehavior(w.forest.brokers[n].mode, r.action) == Allow
        || (n < |start.brokers| && a in start.brokers[n].session)
        || GivenAt(w, n, a)
        || (exists remember :: Consent(t, n, remember) in w.consents))
  }

  /** Every broker of the request's lineage before the one at `at` is cleared. */
  ghost predicate ClearedAbove(start: Forest, w: World, t: nat, at: int)
    requires ValidForest(w.forest) && t < |w.threads| && w.threads[t].start < |w.forest.brokers|
  {
    forall n :: n in Lineage(w.forest.parents, w.threads[t].start) && n > at ==> Cleared(start, w, t, n)
  }

  ghost predicate ThreadInv(start: Forest, w: World, t: nat)
    requires ValidForest(w.forest)
  {
    t < |w.threads| ==>
      var th := w.threads[t];
      && th.start < |w.forest.brokers|
      && (th.first.Some? ==> th.first.value.behavior == Allow)
      && if th.phase.Returned? then
           Allows(th.phase.result) ==>
             ValidRequest(th.request) && th.request.pathsOk && ClearedAbove(start, w, t, -1)
         else
           && th.phase.at in Lineage(w.forest.parents, th.start)
           && ValidRequest(th.request) && th.request.pathsOk && ClearedAbove(start, w, t, th.phase.at)
           && (th.phase.Entering? || !HasDenyRule(w.forest.brokers[th.phase.at], th.request))
           && (th.phase.Storing? ==> Consent(t, th.phase.at, true) in w.consents)
  }

  ghost predicate Inv(start: Forest, w: World) {
    && ValidForest(w.forest)
    && |start.brokers| <= |w.forest.brokers|
    && (forall n: nat :: SessionInv(start, w, n))
    && (forall t: nat :: ThreadInv(start, w, t))
  }
  // ------------------------------------------------------------ the invariant is kept

  lemma {:induction false} LineageStays(p: seq<Option<nat>>, q: seq<Option<nat>>, i: nat)
    requires ParentsFirst(p) && ParentsFirst(q) && p <= q && i < |p|
    ensures Lineage(p, i) == Lineage(q, i)
    decreases i
  {
    assert p[i] == q[i];
    if p[i].Some? {
      LineageStays(p, q, p[i].value);
    }
  }

  /** Nothing goes lost: requests, policies, parents and consents stay, and more may come. */
  ghost predicate Later(v: World, w: World) {
    && v.forest.parents <= w.forest.parents && |v.forest.brokers| <= |w.forest.brokers|
    && (forall n :: 0 <= n < |v.forest.brokers| ==> Grown(v.forest.brokers[n], w.forest.brokers[n]))
    && |v.threads| <= |w.threads| && v.consents <= w.consents
    && (forall t :: 0 <= t < |v.threads| ==>
          v.threads[t].start == w.threads[t].start && v.threads[t].request == w.threads[t].request)
  }

  lemma SamePolicies(b: Broker, c: Broker, r: Request)
    requires Grown(b, c)
    ensures b.rules == c.rules && b.mode == c.mode && (HasDenyRule(b, r) <==> HasDenyRule(c, r))
  {
    assert b.(session := {}).rules == c.(session := {}).rules && b.(session := {}).mode == c.(session := {}).mode;
  }

  lemma GivenLater(v: World, w: World, n: nat, a: Approval)
    requires Later(v, w) && GivenAt(v, n, a)
    ensures GivenAt(w, n, a)
  {
    var t: nat :| t < |v.threads| && Consent(t, n, true) in v.consents &&
      a == Approval(v.threads[t].request.tool, v.threads[t].request.action);
    assert Consent(t, n, true) in w.consents;
  }

  lemma ClearedLater(start: Forest, v: World, w: World, t: nat, n: nat)
    requires Later(v, w) && t < |v.threads| && Cleared(start, v, t, n)
    ensures Cleared(start, w, t, n)
  {
    hide Grown, HasDenyRule, GivenAt;
    var r := v.threads[t].request;
    SamePolicies(v.forest.brokers[n], w.forest.brokers[n], r);
    if GivenAt(v, n, Approval(r.tool, r.action)) {
      GivenLater(v, w, n, Approval(r.tool, r.action));
    }
  }

  lemma ClearedAboveLater(start: Forest, v: World, w: World, t: nat, at: int)
    requires ValidForest(v.forest) && ValidForest(w.forest) && Later(v, w)
    requires t < |v.threads| && v.threads[t].start < |v.forest.brokers| && ClearedAbove(start, v, t, at)
    ensures ClearedAbove(start, w, t, at)
  {
    hide Cleared, Lineage;
    LineageStays(v.forest.parents, w.forest.parents, v.threads[t].start);
    forall n | n in Lineage(w.forest.parents, w.threads[t].start) && n > at
      ensures Cleared(start, w, t, n)
    {
      ClearedLater(start, v, w, t, n);
    }
  }

  lemma ThreadInvLater(start: Forest, v: World, w: World, t: nat)
    requires ValidForest(v.forest) && ValidForest(w.forest) && Later(v, w)
    requires ThreadInv(start, v, t) && t < |v.threads| && w.threads[t] == v.threads[t]
    ensures ThreadInv(start, w, t)
  {
    hide ClearedAbove, Lineage, Grown, HasDenyRule, Allows, ValidRequest;
    var th := v.threads[t];
    LineageStays(v.forest.parents, w.forest.parents, th.start);
    if th.phase.Returned? {
      if Allows(th.phase.result) {
        ClearedAboveLater(start, v, w, t, -1);
      }
    } else {
      ClearedAboveLater(start, v, w, t, th.phase.at);
      SamePolicies(v.forest.brokers[th.phase.at], w.forest.brokers[th.phase.at], th.request);
    }
  }

  lemma NextIsLater(w: World, step: Step)
    requires ValidForest(w.forest) && Enabled(w, step)
    ensures Later(w, Next(w, step))
  {
    hide Local, ValidRequest;
  }

  /** Behind a broker of a lineage comes its parent's, or nothing. */
  lemma {:induction false} LineageStep(parents: seq<Option<nat>>, i: nat, at: nat, n: nat)
    requires ParentsFirst(parents) && i < |parents| && at in Lineage(parents, i) && at < |parents|
    ensures parents[at].Some? ==> parents[at].value in Lineage(parents, i)
    ensures n in Lineage(parents, i) && n < at ==> (parents[at].Some? && n <= parents[at].value)
    decreases i
  {
    if parents[i].Some? {
      var rest := Lineage(parents, parents[i].value);
      assert Lineage(parents, i) == [i] + rest && rest[0] == parents[i].value;
      if at != i {
        LineageStep(parents, parents[i].value, at, n);
      }
    }
  }

  /** A thread that goes on after a cleared broker. */
  lemma SettledKeepsThread(start: Forest, w: World, t: nat, th: Thread, at: nat, d: Decision)
    requires ValidForest(w.forest) && t < |w.threads| && at < |w.forest.brokers|
    requires d.behavior != Deny ==> d.behavior == Allow && Cleared(start, w, t, at)
    requires w.threads[t] == Settled(w.forest, th, at, d)
    requires th.first.Some? ==> th.first.value.behavior == Allow
    requires th.start < |w.forest.brokers| && at in Lineage(w.forest.parents, th.start)
    requires ValidRequest(th.request) && th.request.pathsOk && ClearedAbove(start, w, t, at)
    ensures ThreadInv(start, w, t)
  {
    hide Cleared, Lineage, HasDenyRule, ValidRequest;
    if d.behavior == Allow {
      forall n | n in Lineage(w.forest.parents, th.start)
        ensures n >= at ==> Cleared(start, w, t, n)
        ensures n < at ==> w.forest.parents[at].Some? && n <= w.forest.parents[at].value
      {
        LineageStep(w.forest.parents, th.start, at, n);
      }
      LineageStep(w.forest.parents, th.start, at, at);
    }
  }

  lemma LocalMeans(b: Broker, r: Request)
    ensures var local := Local(b, r).behavior;
      && (local == Allow || local == Deny || local == Ask)
      && (local != Deny ==> !HasDenyRule(b, r))
      && (local == Allow ==> (First(b.rules, Allow, r).Some? || ModeBehavior(b.mode, r.action) == Allow ||
                              Approval(r.tool, r.action) in b.session))
  {
    FirstMeans(b.rules, Deny, r);
  }

  lemma LooksKeepsThread(start: Forest, w: World, t: nat)
    requires ValidForest(w.forest) && Enabled(w, Looks(t)) && ThreadInv(start, w, t)
    requires SessionInv(start, w, w.threads[t].phase.at)
    ensures ThreadInv(start, Next(w, Looks(t)), t)
  {
    hide ClearedAbove, Lineage, Grown, HasDenyRule, ValidRequest, GivenAt, Settled, Local, Later;
    var v, th, at := Next(w, Looks(t)), w.threads[t], w.threads[t].phase.at;
    NextIsLater(w, Looks(t));
    ClearedAboveLater(start, w, v, t, at);
    LocalMeans(w.forest.brokers[at], th.request);
    var a := Approval(th.request.tool, th.request.action);
    if GivenAt(w, at, a) {
      GivenLater(w, v, at, a);
    }
    if Local(w.forest.brokers[at], th.request).behavior != Ask {
      SettledKeepsThread(start, v, t, th, at, Local(w.forest.brokers[at], th.request));
    }
  }

  lemma AnswerKeepsThread(start: Forest, w: World, t: nat, answer: Answer)
    requires ValidForest(w.forest) && Enabled(w, UserAnswers(t, answer)) && ThreadInv(start, w, t)
    ensures ThreadInv(start, Next(w, UserAnswers(t, answer)), t)
  {
    hide ClearedAbove, Lineage, Grown, HasDenyRule, ValidRequest, GivenAt, Settled, Local, Later;
    var v, th, at := Next(w, UserAnswers(t, answer)), w.threads[t], w.threads[t].phase.at;
    NextIsLater(w, UserAnswers(t, answer));
    ClearedAboveLater(start, w, v, t, at);
    if answer == Answered(Allow, false) {
      assert Consent(t, at, false) in v.consents;
      SettledKeepsThread(start, v, t, th, at, Decision(Allow, Confirmed(false)));
    }
  }

  lemma SamePolicyStored(b: Broker, r: Request)
    ensures HasDenyRule(b.(session := b.session + {Approval(r.tool, r.action)}), r) <==> HasDenyRule(b, r)
  {
  }

  lemma StoreKeepsThread(start: Forest, w: World, t: nat)
    requires ValidForest(w.forest) && Enabled(w, Stores(t)) && ThreadInv(start, w, t)
    ensures ThreadInv(start, Next(w, Stores(t)), t)
  {
    hide ClearedAbove, Lineage, Grown, HasDenyRule, ValidRequest, GivenAt, Local, Later;
    var v, th, at := Next(w, Stores(t)), w.threads[t], w.threads[t].phase.at;
    NextIsLater(w, Stores(t));
    ClearedAboveLater(start, w, v, t, at);
    assert Consent(t, at, true) in v.consents;
    SamePolicyStored(w.forest.brokers[at], th.request);
    SettledKeepsThread(start, v, t, th, at, Decision(Allow, Confirmed(true)));
  }

  lemma GrownOn(b: Broker, c: Broker, d: Broker)
    requires Grown(b, c) && Grown(c, d)
    ensures Grown(b, d)
  {
  }

  /** A step leaves a broker's session as it was, or stores what its user has approved. */
  lemma SessionGrows(start: Forest, w: World, step: Step, n: nat, a: Approval)
    requires ValidForest(w.forest) && Enabled(w, step) && n < |Next(w, step).forest.brokers|
    requires step.Stores? ==> ThreadInv(start, w, step.thread)
    requires a in Next(w, step).forest.brokers[n].session
    ensures (n < |w.forest.brokers| && a in w.forest.brokers[n].session) || GivenAt(Next(w, step), n, a)
  {
    hide ClearedAbove, Lineage, HasDenyRule, ValidRequest, AfterLook, AfterAnswer, Settled, Started;
    var v := Next(w, step);
    if step.Stores? && w.threads[step.thread].phase.at == n {
      var t, r := step.thread, w.threads[step.thread].request;
      NextIsLater(w, step);
      if a == Approval(r.tool, r.action) {
        assert Consent(t, n, true) in v.consents;
      }
    }
  }

  lemma NextKeepsSession(start: Forest, w: World, step: Step, n: nat)
    requires ValidForest(w.forest) && |start.brokers| <= |w.forest.brokers| && Enabled(w, step)
    requires SessionInv(start, w, n) && (step.Stores? ==> ThreadInv(start, w, step.thread))
    ensures SessionInv(start, Next(w, step), n)
  {
    hide ThreadInv, Next, GivenAt, Grown;
    var v := Next(w, step);
    NextIsLater(w, step);
    if n < |v.forest.brokers| {
      if n < |start.brokers| {
        GrownOn(start.brokers[n], w.forest.brokers[n], v.forest.brokers[n]);
      }
      forall a | a in v.forest.brokers[n].session
        ensures (n < |start.brokers| && a in start.brokers[n].session) || GivenAt(v, n, a)
      {
        SessionGrows(start, w, step, n, a);
        if GivenAt(w, n, a) {
          GivenLater(w, v, n, a);
        }
      }
    }
  }

  lemma BeginsClear(start: Forest, v: World, t: nat)
    requires ValidForest(v.forest) && t < |v.threads| && v.threads[t].start < |v.forest.brokers|
    ensures ClearedAbove(start, v, t, v.threads[t].start)
  {
    hide Cleared;
    LineageDescends(v.forest.parents, v.threads[t].start);
  }

  /** A request that was just begun, and those a step does not concern. */
  lemma OthersKeepThread(start: Forest, w: World, step: Step, t: nat)
    requires ValidForest(w.forest) && Enabled(w, step) && ThreadInv(start, w, t)
    requires step.Begin? || step.MakeBroker? || step.thread != t
    ensures ThreadInv(start, Next(w, step), t)
  {
    hide ClearedAbove, AfterLook, AfterAnswer, Settled, Remembering, Later, ValidRequest, HasDenyRule;
    var v := Next(w, step);
    NextIsLater(w, step);
    NextIsValid(w, step);
    if t < |w.threads| {
      ThreadInvLater(start, w, v, t);
    } else if t < |v.threads| {
      BeginsClear(start, v, t);
    }
  }

  lemma NextKeepsThread(start: Forest, w: World, step: Step, t: nat)
    requires ValidForest(w.forest) && Enabled(w, step) && ThreadInv(start, w, t)
    requires step.Looks? ==> SessionInv(start, w, w.threads[step.thread].phase.at)
    ensures ThreadInv(start, Next(w, step), t)
  {
    hide ThreadInv, SessionInv, Next;
    if step.Begin? || step.MakeBroker? || step.thread != t {
      OthersKeepThread(start, w, step, t);
    } else if step.Looks? {
      LooksKeepsThread(start, w, t);
    } else if step.UserAnswers? {
      AnswerKeepsThread(start, w, t, step.answer);
    } else {
      StoreKeepsThread(start, w, t);
    }
  }

  lemma LaterHasMore(v: World, w: World)
    requires Later(v, w)
    ensures |v.forest.brokers| <= |w.forest.brokers|
  {
  }

  lemma NextKeepsInv(start: Forest, w: World, step: Step)
    requires Inv(start, w) && Enabled(w, step)
    ensures Inv(start, Next(w, step))
  {
    hide ThreadInv, SessionInv, Next, Later;
    var v := Next(w, step);
    NextIsValid(w, step);
    NextIsLater(w, step);
    LaterHasMore(w, v);
    forall n: nat
      ensures SessionInv(start, v, n)
    {
      NextKeepsSession(start, w, step, n);
    }
    forall t: nat
      ensures ThreadInv(start, v, t)
    {
      assert ThreadInv(start, w, t);
      NextKeepsThread(start, w, step, t);
    }
  }

  lemma {:induction false} ExecuteKeepsInv(start: Forest, w: World, steps: seq<Step>)
    requires Inv(start, w)
    ensures Inv(start, Execute(w, steps))
    decreases |steps|
  {
    hide Next, Enabled, SessionInv, ThreadInv;
    if steps != [] {
      if Enabled(w, steps[0]) {
        NextKeepsInv(start, w, steps[0]);
        ExecuteKeepsInv(start, Next(w, steps[0]), steps[1..]);
      } else {
        ExecuteKeepsInv(start, w, steps[1..]);
      }
    }
  }

  lemma StartSession(start: Forest, n: nat)
    requires ValidForest(start)
    ensures SessionInv(start, World(start, [], {}), n)
  {
  }
  // ------------------------------------------------------------ one request alone

  /** In every interleaving of requests to the brokers of a forest, brokers made on the way included:
      a request that was allowed is well formed and inside its workspace, and every broker of its
      lineage has no matching deny rule and a ground of its own, a rule, its mode, an approval it began
      with or that some request's user gave there with remember, or this request's own confirmation.
      And whatever a broker remembers was there at the start or given so. */
  lemma AllowedUnderInterleaving(start: Forest, steps: seq<Step>, t: nat, n: nat)
    requires ValidForest(start)
    ensures var w := Execute(World(start, [], {}), steps);
      && SessionInv(start, w, n)
      && (t < |w.threads| && w.threads[t].phase.Returned? && Allows(w.threads[t].phase.result) ==>
            && w.threads[t].start < |w.forest.brokers|
            && ValidRequest(w.threads[t].request) && w.threads[t].request.pathsOk
            && (n in Lineage(w.forest.parents, w.threads[t].start) ==> Cleared(start, w, t, n)))
  {
    hide Cleared, Lineage, SessionInv, ValidRequest;
    var begin := World(start, [], {});
    forall k: nat
      ensures SessionInv(start, begin, k) && ThreadInv(start, begin, k)
    {
      StartSession(start, k);
    }
    ExecuteKeepsInv(start, begin, steps);
    assert ThreadInv(start, Execute(begin, steps), t);
  }

  /** What the request that stands before the broker `at` does when no other comes between. */
  function AtBroker(w: World, t: nat, answers: nat -> Answer): (v: World)
    requires ValidForest(w.forest) && Enabled(w, Looks(t))
    ensures ValidForest(v.forest) && v.forest.parents == w.forest.parents
  {
    var at := w.threads[t].phase.at;
    var looked := Next(w, Looks(t));
    if !looked.threads[t].phase.Asking? then looked
    else
      var answered := Next(looked, UserAnswers(t, answers(Depth(w.forest.parents, at))));
      if answered.threads[t].phase.Storing? then Next(answered, Stores(t)) else answered
  }

  /** At one broker, the three steps are the broker's own decision. */
  lemma AtBrokerIsOwn(w: World, t: nat, answers: nat -> Answer)
    requires ValidForest(w.forest) && Enabled(w, Looks(t))
    ensures var f, th, at := w.forest, w.threads[t], w.threads[t].phase.at;
      var (own, b) := Own(f.brokers[at], th.request, answers(Depth(f.parents, at)));
      var v := AtBroker(w, t, answers);
      && v.forest == f.(brokers := f.brokers[at := b]) && |v.threads| == |w.threads|
      && v.threads[t] == (if own.Ok? then Settled(f, th, at, own.value) else th.(phase := Returned(Err(own.error))))
      && (v.threads[t].phase.Entering? ==> f.parents[at] == Some(v.threads[t].phase.at))
  {
    hide Lineage, Depth;
    var f, th, at := w.forest, w.threads[t], w.threads[t].phase.at;
    assert f.brokers[at := f.brokers[at]] == f.brokers;
  }

  /** Until it has returned. */
  function Alone(w: World, t: nat, answers: nat -> Answer): World
    requires ValidForest(w.forest) && Enabled(w, Looks(t))
    decreases w.threads[t].phase.at
  {
    var v := AtBroker(w, t, answers);
    AtBrokerIsOwn(w, t, answers);
    if v.threads[t].phase.Entering? then Alone(v, t, answers) else v
  }

  lemma {:induction false} PutBackSame(brokers: seq<Broker>, at: seq<nat>)
    requires forall k :: 0 <= k < |at| ==> at[k] < |brokers|
    ensures PutBack(brokers, at, Pick(brokers, at)) == brokers
    decreases |at|
  {
    if at != [] {
      assert brokers[at[0] := brokers[at[0]]] == brokers;
      assert Pick(brokers, at)[1..] == Pick(brokers, at[1..]);
      PutBackSame(brokers, at[1..]);
    }
  }

  lemma LineageParts(parents: seq<Option<nat>>, at: nat)
    requires ParentsFirst(parents) && at < |parents|
    ensures Lineage(parents, at) == [at] + Lineage(parents, at)[1..]
    ensures Lineage(parents, at)[1..] == if parents[at].Some? then Lineage(parents, parents[at].value) else []
  {
  }

  /** The change of the first broker is not seen by those behind it. */
  lemma PickBehind(brokers: seq<Broker>, lineage: seq<nat>, b: Broker)
    requires lineage != [] && forall k :: 0 <= k < |lineage| ==> lineage[k] < |brokers|
    requires forall j, k :: 0 <= j < k < |lineage| ==> lineage[j] > lineage[k]
    ensures Pick(brokers[lineage[0] := b], lineage[1..]) == Pick(brokers, lineage)[1..]
  {
  }

  function With(f: Forest, at: nat, b: Broker): (g: Forest)
    requires ValidForest(f) && at < |f.brokers|
    ensures ValidForest(g)
  {
    f.(brokers := f.brokers[at := b])
  }

  /** Asking a broker is its own decision and, where that allows, asking its parent in what it has left. */
  lemma AskedStep(f: Forest, at: nat, r: Request, answers: nat -> Answer)
    requires ValidForest(f) && at < |f.brokers| && ValidRequest(r) && r.pathsOk
    ensures var (own, b) := Own(f.brokers[at], r, answers(Depth(f.parents, at)));
      if Allows(own) && f.parents[at].Some? then
        var (above, g) := Asked(With(f, at, b), f.parents[at].value, r, answers);
        Asked(f, at, r, answers) == (if Allows(above) then own else above, g)
      else Asked(f, at, r, answers) == (own, With(f, at, b))
  {
    hide Own, Lineage, ValidRequest, Decide;
    var lineage := Lineage(f.parents, at);
    var chain := Pick(f.brokers, lineage);
    var b := Own(f.brokers[at], r, answers(Depth(f.parents, at))).1;
    LineageParts(f.parents, at);
    LineageDescends(f.parents, at);
    PickBehind(f.brokers, lineage, b);
    DecideStep(chain, r, answers);
    DecideShape(chain, r, answers);
    PutBackSame(With(f, at, b).brokers, lineage[1..]);
    assert ([b] + chain[1..])[1..] == chain[1..];
    if |lineage| > 1 {
      var rest := Decide(chain[1..], r, answers).1;
      assert ([b] + rest)[1..] == rest;
    }
  }

  /** A request alone gets the decision of the whole chain and leaves the sessions it leaves. */
  lemma {:induction false} AloneIsDecide(w: World, t: nat, answers: nat -> Answer)
    requires ValidForest(w.forest) && Enabled(w, Looks(t))
    requires ValidRequest(w.threads[t].request) && w.threads[t].request.pathsOk
    ensures var f, th := w.forest, w.threads[t];
      var (result, g) := Asked(f, th.phase.at, th.request, answers);
      var v := Alone(w, t, answers);
      && v.forest == g && |v.threads| == |w.threads|
      && v.threads[t].phase == Returned(if Allows(result) && th.first.Some? then Ok(th.first.value) else result)
    decreases w.threads[t].phase.at
  {
    hide Lineage, Own, ValidRequest, AtBroker, Asked;
    var f, th, at := w.forest, w.threads[t], w.threads[t].phase.at;
    AtBrokerIsOwn(w, t, answers);
    OwnIsDecisive(f.brokers[at], th.request, answers(Depth(f.parents, at)));
    AskedStep(f, at, th.request, answers);
    var v := AtBroker(w, t, answers);
    if v.threads[t].phase.Entering? {
      AloneIsDecide(v, t, answers);
    }
  }
}
