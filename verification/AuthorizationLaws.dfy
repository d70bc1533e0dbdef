/**
 What the operations of the policy mean for the requests that come after them
 (internal/authorization/policy.go): when each succeeds, what a later request is answered because of it,
 and what it leaves alone.
 */
module AuthorizationLaws {
  import opened Prelude
  import opened AuditLog
  import opened Authorization

  /** What a request is answered at some instant; no error means that it passes. */
  function Answer(sv: Services, s: State, r: Request, at: nat): Option<AuthError> {
    Perform(sv, s, Authorize(r), at).1
  }

  // ------------------------------------------------------------ the answer to a request

  /** What each role may do, in the words of the policy. */
  predicate May(role: Role, capability: string) {
    match role
    case Owner | Admin => true
    case Operator => capability in {"task.create", "scope.confirm", "evidence.read"}
    case Approver => capability in {"approval.respond", "evidence.read"}
    case Auditor => capability in {"evidence.read", "report.export"}
    case Viewer => capability == "evidence.read"
    case OtherRole(_) => false
  }

  /** What needs a session that was stepped up or given emergency access. */
  predicate Risky(capability: string) {
    capability in {"approval.respond", "report.export", "organization.admin", "emergency.access.grant"}
  }

  lemma RolesMay(role: Role, capability: string)
    ensures RoleAllows(role, capability) <==> May(role, capability)
    ensures HighRisk(capability) <==> Risky(capability)
  {
  }

  predicate Names(r: Request, s: State) { r.sessionID != "" && r.sessionID in s.sessions }

  /** The request names no session, or one of its own that is alive. */
  predicate SessionHolds(s: State, r: Request, at: nat) {
    r.sessionID != "" ==>
      && r.sessionID in s.sessions
      && var session := s.sessions[r.sessionID];
         !session.revoked && at < session.expiresAt && session.tenantID == r.tenantID &&
         session.principal == r.principal
  }

  predicate Raised(s: State, r: Request, at: nat) {
    Names(r, s) && (at < s.sessions[r.sessionID].stepUpUntil || at < s.sessions[r.sessionID].emergencyUntil)
  }

  function Key(r: Request): string { MemberKey(r.tenantID, r.principal) }

  /** Each answer, and exactly when it is given: the session comes first, then the membership, the role
      and the risk. */
  lemma AnswerIff(sv: Services, s: State, r: Request, at: nat)
    ensures var a, key, holds := Answer(sv, s, r, at), Key(r), SessionHolds(s, r, at);
      var may := key in s.members && s.members[key].active && May(s.members[key].role, r.capability);
      && (a == Some(SessionMissing) <==> r.sessionID != "" && r.sessionID !in s.sessions)
      && (a == Some(SessionRevoked) <==> Names(r, s) && s.sessions[r.sessionID].revoked)
      && (a == Some(SessionExpired) <==>
            Names(r, s) && !s.sessions[r.sessionID].revoked && s.sessions[r.sessionID].expiresAt <= at)
      && (a == Some(TenantDenied) <==>
            (Names(r, s) && !holds && !s.sessions[r.sessionID].revoked && at < s.sessions[r.sessionID].expiresAt) ||
            (holds && key !in s.members))
      && (a == Some(MembershipRevoked) <==> holds && key in s.members && !s.members[key].active)
      && (a == Some(CapabilityDenied) <==>
            holds && key in s.members && s.members[key].active && !May(s.members[key].role, r.capability))
      && (a == Some(StepUpRequired) <==> holds && may && Risky(r.capability) && !Raised(s, r, at))
      && (a.None? <==> holds && may && (Risky(r.capability) ==> Raised(s, r, at)))
  {
    hide RoleAllows, HighRisk, May, Risky, MemberKey, Append;
    if Key(r) in s.members {
      RolesMay(s.members[Key(r)].role, r.capability);
    }
    RolesMay(Viewer, r.capability);
  }

  /** The answer is logged as given, with what the request asked, behind everything logged before; and a
      request changes nothing else. */
  lemma AnswerIsLogged(sv: Services, s: State, r: Request, at: nat)
    ensures var t, a := Perform(sv, s, Authorize(r), at).0, Answer(sv, s, r, at);
      && t == s.(decisions := t.decisions) && |t.decisions| == |s.decisions| + 1
      && t.decisions[..|s.decisions|] == s.decisions
      && var logged := t.decisions[|s.decisions|].record;
         && logged.at == at && logged.tenantID == r.tenantID && logged.principal == r.principal
         && logged.capability == r.capability && (logged.allowed <==> a.None?) && (logged.reason == "" <==> a.None?)
  {
    hide Verdict, HashOf, NoNul;
  }

  // ------------------------------------------------------------ what operations leave alone

  /** Apart from the log, at most the record under this key differs. */
  ghost predicate OnlyMember(s: State, t: State, key: string) {
    && t.invitations == s.invitations && t.sessions == s.sessions
    && forall k :: k != key ==>
       (k in t.members <==> k in s.members) && (k in s.members ==> t.members[k] == s.members[k])
  }

  /** Apart from the log, at most this session differs. */
  ghost predicate OnlySession(s: State, t: State, id: string) {
    && t.invitations == s.invitations && t.members == s.members
    && forall k :: k != id ==>
         (k in t.sessions <==> k in s.sessions) && (k in s.sessions ==> t.sessions[k] == s.sessions[k])
  }

  /** A request of another member is answered as before. */
  lemma OtherMembersAnswered(sv: Services, s: State, t: State, key: string, r: Request, at: nat)
    requires OnlyMember(s, t, key) && Key(r) != key
    ensures Answer(sv, t, r, at) == Answer(sv, s, r, at)
  {
    hide RoleAllows, HighRisk, MemberKey;
  }

  /** A request that does not name the session is answered as before. */
  lemma OtherSessionsAnswered(sv: Services, s: State, t: State, id: string, r: Request, at: nat)
    requires OnlySession(s, t, id) && r.sessionID != id
    ensures Answer(sv, t, r, at) == Answer(sv, s, r, at)
  {
    hide RoleAllows, HighRisk, MemberKey;
  }

  /** An operation that fails changes nothing; a refused request is logged. */
  lemma FailureChangesNothing(sv: Services, s: State, op: Operation, at: nat)
    requires Perform(sv, s, op, at).1.Some? && !op.Authorize?
    ensures Perform(sv, s, op, at).0 == s
  {
    hide MemberKey, ValidRole, Append, GrantFits, Provisionable;
  }

  // ------------------------------------------------------------ members

  /** The record under the key, apart from what decides requests, stays as it is. */
  predicate SameRecord(s: State, t: State, key: string) {
    && key in s.members && key in t.members
    && t.members[key].(active := s.members[key].active, role := s.members[key].role) == s.members[key]
  }

  ghost predicate Refused(sv: Services, s: State, r: Request, at: nat) {
    Answer(sv, s, r, at).Some? && (SessionHolds(s, r, at) ==> Answer(sv, s, r, at) == Some(MembershipRevoked))
  }

  /** Every request under the key is refused, whatever it asks and names. */
  ghost predicate Revoked(sv: Services, s: State, key: string) {
    forall r: Request, at: nat :: Key(r) == key ==> Refused(sv, s, r, at)
  }

  /** Revoking succeeds for a known member, and then none of its requests passes: with a session that
      holds the answer is that the membership was revoked. */
  lemma RevokeMemberMeans(sv: Services, s: State, tenantID: string, principal: string, at: nat)
    ensures var (t, err) := Perform(sv, s, RevokeMember(tenantID, principal), at);
      var key := MemberKey(tenantID, principal);
      && (err.None? <==> key in s.members) && (err.Some? ==> err == Some(TenantDenied))
      && (err.None? ==>
            OnlyMember(s, t, key) && t.decisions == s.decisions && SameRecord(s, t, key) && Revoked(sv, t, key))
  {
    hide MemberKey, Append;
    var (t, err) := Perform(sv, s, RevokeMember(tenantID, principal), at);
    var key := MemberKey(tenantID, principal);
    if err.None? {
      forall r: Request, later: nat | Key(r) == key
        ensures Refused(sv, t, r, later)
      {
        AnswerIff(sv, t, r, later);
      }
    }
  }

  /** The operation brings a member back: an invitation for the very pair is accepted, or it is provisioned. */
  predicate Reinstates(s: State, op: Operation, key: string) {
    match op
    case AcceptInvitation(id) =>
      id in s.invitations && MemberKey(s.invitations[id].tenantID, s.invitations[id].principal) == key
    case AcceptInvitationFor(_, id) =>
      id in s.invitations && MemberKey(s.invitations[id].tenantID, s.invitations[id].principal) == key
    case ProvisionMember(tenantID, _, principal, _, _, _, _, _) => MemberKey(tenantID, principal) == key
    case _ => false
  }

  predicate NeverReinstated(sv: Services, s: State, ops: seq<Timed>, key: string)
    decreases |ops|
  {
    ops == [] || (!Reinstates(s, ops[0].op, key) &&
                  NeverReinstated(sv, Perform(sv, s, ops[0].op, ops[0].now).0, ops[1..], key))
  }

  predicate Inactive(s: State, key: string) { key in s.members && !s.members[key].active }

  lemma StaysInactive(sv: Services, s: State, op: Operation, now: nat, key: string)
    requires Inactive(s, key) && !Reinstates(s, op, key)
    ensures Inactive(Perform(sv, s, op, now).0, key)
  {
    hide Append, GrantFits, Verdict, MemberKey, Provisionable, ValidRole;
  }

  lemma {:induction false} RunStaysInactive(sv: Services, s: State, ops: seq<Timed>, key: string)
    requires Inactive(s, key) && NeverReinstated(sv, s, ops, key)
    ensures Inactive(PerformAll(sv, s, ops), key)
    decreases |ops|
  {
    hide Inactive, Perform, Reinstates;
    if ops != [] {
      StaysInactive(sv, s, ops[0].op, ops[0].now, key);
      RunStaysInactive(sv, Perform(sv, s, ops[0].op, ops[0].now).0, ops[1..], key);
    }
  }

  /** Once revoked, a member's every request is refused, after any run of operations that neither accepts
      an invitation for it nor provisions it. */
  lemma RevokedMemberStaysOut(sv: Services, s: State, tenantID: string, principal: string, at: nat, ops: seq<Timed>)
    requires Perform(sv, s, RevokeMember(tenantID, principal), at).1.None?
    requires NeverReinstated(sv, Perform(sv, s, RevokeMember(tenantID, principal), at).0, ops,
                             MemberKey(tenantID, principal))
    ensures Revoked(sv, PerformAll(sv, Perform(sv, s, RevokeMember(tenantID, principal), at).0, ops),
                    MemberKey(tenantID, principal))
  {
    hide NeverReinstated, MemberKey, PerformAll, Answer;
    var key, t := MemberKey(tenantID, principal), Perform(sv, s, RevokeMember(tenantID, principal), at).0;
    RunStaysInactive(sv, t, ops, key);
    var last := PerformAll(sv, t, ops);
    forall r: Request, later: nat | Key(r) == key
      ensures Refused(sv, last, r, later)
    {
      AnswerIff(sv, last, r, later);
    }
  }

  /** A request of the member without a session, answered by activity and role. */
  ghost predicate AnsweredAs(sv: Services, s: State, key: string, active: bool, role: Role) {
    forall r: Request, at: nat :: Key(r) == key && SessionHolds(s, r, at) ==>
      var a := Answer(sv, s, r, at);
      && (!active ==> a == Some(MembershipRevoked))
      && (active ==> (a == Some(CapabilityDenied) <==> !May(role, r.capability)))
      && (active && May(role, r.capability) ==>
            a == if Risky(r.capability) && !Raised(s, r, at) then Some(StepUpRequired) else None)
  }

  lemma RecordAnswers(sv: Services, s: State, key: string)
    requires key in s.members
    ensures AnsweredAs(sv, s, key, s.members[key].active, s.members[key].role)
  {
    hide Answer, May, Risky, MemberKey;
    forall r: Request, at: nat | Key(r) == key && SessionHolds(s, r, at)
      ensures var a := Answer(sv, s, r, at);
        && (!s.members[key].active ==> a == Some(MembershipRevoked))
        && (s.members[key].active ==> (a == Some(CapabilityDenied) <==> !May(s.members[key].role, r.capability)))
        && (s.members[key].active && May(s.members[key].role, r.capability) ==>
              a == if Risky(r.capability) && !Raised(s, r, at) then Some(StepUpRequired) else None)
    {
      AnswerIff(sv, s, r, at);
    }
  }

  predicate KnownRole(role: Role) {
    role == Owner || role == Admin || role == Operator || role == Approver || role == Auditor || role == Viewer
  }

  /** Changing a role succeeds for a known member and a known role, and then the member's requests are
      answered by the new role, its activity being what it was. */
  lemma UpdateMemberRoleMeans(sv: Services, s: State, tenantID: string, principal: string, role: Role, at: nat)
    ensures var (t, err) := Perform(sv, s, UpdateMemberRole(tenantID, principal, role), at);
      var key := MemberKey(tenantID, principal);
      && (err == Some(InvalidRole) <==> !KnownRole(role))
      && (err == Some(TenantDenied) <==> KnownRole(role) && key !in s.members)
      && (err.None? <==> KnownRole(role) && key in s.members)
      && (err.None? ==> OnlyMember(s, t, key) && t.decisions == s.decisions && SameRecord(s, t, key))
      && (err.None? ==> AnsweredAs(sv, t, key, s.members[key].active, role))
  {
    hide MemberKey, Append, AnsweredAs;
    var (t, err) := Perform(sv, s, UpdateMemberRole(tenantID, principal, role), at);
    if err.None? {
      RecordAnswers(sv, t, MemberKey(tenantID, principal));
    }
  }

  // ------------------------------------------------------------ invitations

  /** Apart from the log, at most this invitation and the record it is for differ. */
  ghost predicate OnlyInvitation(s: State, t: State, id: string, key: string) {
    && t.sessions == s.sessions && t.decisions == s.decisions
    && (forall k :: k != key ==>
          (k in t.members <==> k in s.members) && (k in s.members ==> t.members[k] == s.members[k]))
    && (forall k :: k != id ==>
          (k in t.invitations <==> k in s.invitations) && (k in s.invitations ==> t.invitations[k] == s.invitations[k]))
  }

  /** Inviting succeeds for a complete, unexpired invitation of a known role under a new id, and keeps it
      as it is; nothing else changes. */
  lemma InviteMeans(sv: Services, s: State, i: Invitation, at: nat)
    ensures var (t, err) := Perform(sv, s, Invite(i), at);
      var complete := i.id != "" && i.tenantID != "" && i.principal != "" && at < i.expiresAt;
      && (err == Some(InvitationExpired) <==> !complete)
      && (err == Some(InvalidRole) <==> complete && !KnownRole(i.role))
      && (err == Some(InvitationUsed) <==> complete && KnownRole(i.role) && i.id in s.invitations)
      && (err.None? <==> complete && KnownRole(i.role) && i.id !in s.invitations)
      && (err.None? ==> OnlyInvitation(s, t, i.id, "") && t.members == s.members)
      && (err.None? ==> i.id in t.invitations && t.invitations[i.id] == i)
  {
  }

  /** The invitation can be accepted now. */
  predicate Acceptable(s: State, id: string, at: nat) {
    id in s.invitations && !s.invitations[id].accepted && at < s.invitations[id].expiresAt
  }

  /** What an acceptance that succeeded leaves: an active member of the invited role, whose requests are
      answered so, and an invitation that cannot be accepted again. */
  ghost predicate Accepted(sv: Services, s: State, t: State, id: string)
    requires id in s.invitations
  {
    var i := s.invitations[id];
    var key := MemberKey(i.tenantID, i.principal);
    && OnlyInvitation(s, t, id, key)
    && key in t.members && t.members[key].tenantID == i.tenantID && t.members[key].principal == i.principal
    && t.members[key].revision == 0 && t.members[key].provisionedAt == 0
    && AnsweredAs(sv, t, key, true, i.role)
    && (forall later: nat :: Perform(sv, t, AcceptInvitation(id), later).1 == Some(InvitationUsed))
  }

  /** The invitation is used up and its member in place. */
  lemma AcceptLeaves(sv: Services, s: State, id: string, tenantID: string, principal: string, at: nat)
    requires Accept(s, id, tenantID, principal, at).1.None?
    ensures Accepted(sv, s, Accept(s, id, tenantID, principal, at).0, id)
  {
    hide MemberKey, Append, AnsweredAs;
    var t := Accept(s, id, tenantID, principal, at).0;
    RecordAnswers(sv, t, MemberKey(s.invitations[id].tenantID, s.invitations[id].principal));
  }

  /** Accepting succeeds for an invitation that is known, unused and not expired, and each refusal has its
      own error; then the invitation is used and the member it names is in place. */
  lemma AcceptInvitationMeans(sv: Services, s: State, id: string, at: nat)
    ensures var (t, err) := Perform(sv, s, AcceptInvitation(id), at);
      && (err == Some(InvitationMissing) <==> id !in s.invitations)
      && (err == Some(InvitationUsed) <==> id in s.invitations && s.invitations[id].accepted)
      && (err == Some(InvitationExpired) <==>
            id in s.invitations && !s.invitations[id].accepted && s.invitations[id].expiresAt <= at)
      && (err.None? <==> Acceptable(s, id, at))
      && (err.None? ==> Accepted(sv, s, t, id))
  {
    hide Accepted, MemberKey;
    if Acceptable(s, id, at) {
      AcceptLeaves(sv, s, id, "", "", at);
    }
  }

  predicate Invited(s: State, id: string, actor: Request) {
    && id in s.invitations && s.invitations[id].tenantID == actor.tenantID
    && s.invitations[id].principal == actor.principal
  }

  /** An acceptance bound to an actor succeeds only for the invited tenant and principal. */
  lemma AcceptInvitationForMeans(sv: Services, s: State, actor: Request, id: string, at: nat)
    ensures var (t, err) := Perform(sv, s, AcceptInvitationFor(actor, id), at);
      var named := actor.tenantID != "" && actor.principal != "";
      && (!named ==> err == Some(TenantDenied))
      && (named && id !in s.invitations ==> err == Some(InvitationMissing))
      && (named && id in s.invitations ==>
            var i := s.invitations[id];
            && (err == Some(TenantDenied) <==> i.tenantID != actor.tenantID)
            && (err == Some(PrincipalMismatch) <==> i.tenantID == actor.tenantID && i.principal != actor.principal))
      && (named && Invited(s, id, actor) ==> err == Perform(sv, s, AcceptInvitation(id), at).1)
      && (err.None? <==> named && Invited(s, id, actor) && Acceptable(s, id, at))
      && (err.None? ==> Accepted(sv, s, t, id))
  {
    hide Accepted, MemberKey;
    if actor.tenantID != "" && actor.principal != "" && Acceptable(s, id, at) {
      if s.invitations[id].tenantID == actor.tenantID && s.invitations[id].principal == actor.principal {
        AcceptLeaves(sv, s, id, actor.tenantID, actor.principal, at);
      }
    }
  }

  // ------------------------------------------------------------ sessions

  /** How a request that names the session is answered for it: expired, of someone else, or held. */
  ghost predicate NamedAs(sv: Services, s: State, id: string, tenantID: string, principal: string, expiresAt: int) {
    forall r: Request, at: nat :: r.sessionID == id ==>
      && (at >= expiresAt ==> Answer(sv, s, r, at) == Some(SessionExpired))
      && (at < expiresAt && (r.tenantID != tenantID || r.principal != principal) ==>
            Answer(sv, s, r, at) == Some(TenantDenied))
      && (at < expiresAt && r.tenantID == tenantID && r.principal == principal ==> SessionHolds(s, r, at))
  }

  /** Registering succeeds for a complete session that has not expired, and then the session is live for
      its owner, raised as it says itself, even where a session of that id was revoked. */
  lemma RegisterSessionMeans(sv: Services, s: State, session: Session, at: nat)
    ensures var (t, err) := Perform(sv, s, RegisterSession(session), at);
      var complete := session.id != "" && session.tenantID != "" && session.principal != "";
      && (err == Some(SessionMissing) <==> !complete)
      && (err == Some(SessionExpired) <==> complete && session.expiresAt <= at)
      && (err.None? <==> complete && at < session.expiresAt)
      && (err.None? ==> OnlySession(s, t, session.id) && t.decisions == s.decisions)
      && (err.None? ==> NamedAs(sv, t, session.id, session.tenantID, session.principal, session.expiresAt))
      && (err.None? ==> session.id in t.sessions && t.sessions[session.id].(revoked := session.revoked) == session)
  {
    hide Answer, MemberKey;
    var (t, err) := Perform(sv, s, RegisterSession(session), at);
    if err.None? {
      forall r: Request, later: nat | r.sessionID == session.id
        ensures later >= session.expiresAt ==> Answer(sv, t, r, later) == Some(SessionExpired)
        ensures later < session.expiresAt && (r.tenantID != session.tenantID || r.principal != session.principal) ==>
                  Answer(sv, t, r, later) == Some(TenantDenied)
      {
        AnswerIff(sv, t, r, later);
      }
    }
  }

  /** Every request that names the session is refused for it. */
  ghost predicate SessionOut(sv: Services, s: State, id: string) {
    forall r: Request, at: nat :: r.sessionID == id != "" ==> Answer(sv, s, r, at) == Some(SessionRevoked)
  }

  predicate Withdrawn(s: State, id: string) { id in s.sessions && s.sessions[id].revoked }

  lemma WithdrawnIsOut(sv: Services, s: State, id: string)
    requires Withdrawn(s, id)
    ensures SessionOut(sv, s, id)
  {
    hide Answer, MemberKey;
    forall r: Request, at: nat | r.sessionID == id != ""
      ensures Answer(sv, s, r, at) == Some(SessionRevoked)
    {
      AnswerIff(sv, s, r, at);
    }
  }

  /** Revoking succeeds for a known session, and then no request under it passes. */
  lemma RevokeSessionMeans(sv: Services, s: State, id: string, at: nat)
    ensures var (t, err) := Perform(sv, s, RevokeSession(id), at);
      && (err.None? <==> id in s.sessions) && (err.Some? ==> err == Some(SessionMissing))
      && (err.None? ==> OnlySession(s, t, id) && t.decisions == s.decisions && SessionOut(sv, t, id))
  {
    hide SessionOut;
    if id in s.sessions {
      WithdrawnIsOut(sv, Perform(sv, s, RevokeSession(id), at).0, id);
    }
  }

  lemma StaysWithdrawn(sv: Services, s: State, op: Operation, now: nat, id: string)
    requires Withdrawn(s, id) && !(op.RegisterSession? && op.session.id == id)
    ensures Withdrawn(Perform(sv, s, op, now).0, id)
  {
    hide Append, GrantFits, Verdict, MemberKey, Provisionable, ValidRole;
  }

  /** A revoked session stays refused after any run of operations that does not register its id anew:
      neither stepping up nor emergency access brings it back. */
  lemma {:induction false} RevokedSessionStaysOut(sv: Services, s: State, ops: seq<Timed>, id: string)
    requires Withdrawn(s, id)
    requires forall t :: t in ops ==> !(t.op.RegisterSession? && t.op.session.id == id)
    ensures Withdrawn(PerformAll(sv, s, ops), id) && SessionOut(sv, PerformAll(sv, s, ops), id)
    decreases |ops|
  {
    hide Withdrawn, Perform, SessionOut;
    if ops == [] {
      WithdrawnIsOut(sv, s, id);
    } else {
      assert ops[0] in ops;
      StaysWithdrawn(sv, s, ops[0].op, ops[0].now, id);
      RevokedSessionStaysOut(sv, Perform(sv, s, ops[0].op, ops[0].now).0, ops[1..], id);
    }
  }

  /** Of what a request that names the session is answered, only the demand for a raised session may
      change: it is made exactly of risky requests outside both windows. */
  ghost predicate RaisedTo(sv: Services, s: State, t: State, id: string, stepUp: int, emergency: int) {
    forall r: Request, at: nat :: r.sessionID == id != "" ==>
      var a, b := Answer(sv, s, r, at), Answer(sv, t, r, at);
      if a.None? || a == Some(StepUpRequired) then
        b == if Risky(r.capability) && !(at < stepUp || at < emergency) then Some(StepUpRequired) else None
      else b == a
  }

  /** The session's windows, and nothing else that counts for answers, are these. */
  predicate Windows(s: State, t: State, id: string, stepUp: int, emergency: int) {
    && t.members == s.members && id in s.sessions && id in t.sessions
    && t.sessions[id].expiresAt == s.sessions[id].expiresAt && t.sessions[id].revoked == s.sessions[id].revoked
    && t.sessions[id].tenantID == s.sessions[id].tenantID && t.sessions[id].principal == s.sessions[id].principal
    && t.sessions[id].stepUpUntil == stepUp && t.sessions[id].emergencyUntil == emergency
  }

  lemma WindowsRaise(sv: Services, s: State, t: State, id: string, stepUp: int, emergency: int)
    requires Windows(s, t, id, stepUp, emergency)
    ensures RaisedTo(sv, s, t, id, stepUp, emergency)
  {
    hide Answer, MemberKey, May, Risky;
    forall r: Request, at: nat | r.sessionID == id != ""
      ensures var a, b := Answer(sv, s, r, at), Answer(sv, t, r, at);
        if a.None? || a == Some(StepUpRequired) then
          b == if Risky(r.capability) && !(at < stepUp || at < emergency) then Some(StepUpRequired) else None
        else b == a
    {
      AnswerIff(sv, s, r, at);
      AnswerIff(sv, t, r, at);
    }
  }

  /** Stepping up succeeds for a live session and an instant ahead of now and before its end; then risky
      requests pass up to that instant, or while emergency access lasts. */
  lemma ElevateSessionMeans(sv: Services, s: State, id: string, until: int, at: nat)
    ensures var (t, err) := Perform(sv, s, ElevateSession(id, until), at);
      && (err == Some(SessionMissing) <==> id !in s.sessions)
      && (err == Some(SessionRevoked) <==> Withdrawn(s, id))
      && (err.None? <==> id in s.sessions && !s.sessions[id].revoked && at < until < s.sessions[id].expiresAt)
      && (err.Some? && id in s.sessions && !Withdrawn(s, id) ==> err == Some(SessionExpired))
      && (err.None? ==> OnlySession(s, t, id) && t.decisions == s.decisions)
      && (err.None? ==> RaisedTo(sv, s, t, id, until, s.sessions[id].emergencyUntil))
  {
    hide RaisedTo;
    var (t, err) := Perform(sv, s, ElevateSession(id, until), at);
    if err.None? {
      WindowsRaise(sv, s, t, id, until, s.sessions[id].emergencyUntil);
    }
  }

  // ------------------------------------------------------------ emergency access

  /** One more decision is logged, about this tenant and principal, with this outcome and reason. */
  ghost predicate Logs(s: State, t: State, at: nat, tenantID: string, principal: string, capability: string,
      allowed: bool, reason: string)
  {
    && |t.decisions| == |s.decisions| + 1 && t.decisions[..|s.decisions|] == s.decisions
    && var logged := t.decisions[|s.decisions|].record;
       && logged.at == at && logged.tenantID == tenantID && logged.principal == principal
       && logged.capability == capability && logged.allowed == allowed && logged.reason == reason
  }

  /** Granting, once authorized, succeeds for a reason of 8 to 256 bytes on one line once redacted, at most
      half an hour, and a live session of the actor's tenant that outlasts it; then risky requests in the
      session pass up to the instant granted, and the grant is logged for the session's owner. */
  lemma GrantMeans(sv: Services, s: State, actor: Request, id: string, reason: string, until: int, at: nat)
    ensures var (t, err) := Perform(sv, s, GrantAuthorized(actor, id, reason, until), at);
      var text := sv.redact(TrimSpace(reason));
      var fits := && 8 <= ByteLength(text) <= 256 && NoNul(text) && '\r' !in text && '\n' !in text
                  && at < until <= at + 1_800_000_000_000;
      && (err == Some(EmergencyInvalid) <==> !fits)
      && (err == Some(SessionMissing) <==> fits && id !in s.sessions)
      && (fits && id in s.sessions ==>
            var session := s.sessions[id];
            && (err == Some(TenantDenied) <==> session.tenantID != actor.tenantID)
            && (err == Some(SessionRevoked) <==> session.tenantID == actor.tenantID && session.revoked)
            && (err.None? <==> session.tenantID == actor.tenantID && !session.revoked && until < session.expiresAt))
      && (err.Some? && fits && id in s.sessions && s.sessions[id].tenantID == actor.tenantID &&
          !s.sessions[id].revoked ==>
            err == Some(SessionExpired))
      && (err.None? ==> fits && id in s.sessions && OnlySession(s, t, id))
      && (err.None? ==> RaisedTo(sv, s, t, id, s.sessions[id].stepUpUntil, until))
      && (err.None? ==> id in t.sessions && t.sessions[id].emergencyReason == text)
      && (err.None? ==> Logs(s, t, at, s.sessions[id].tenantID, s.sessions[id].principal, "emergency.access.grant",
                true,
                             "emergency access granted: " + text))
  {
    hide RaisedTo, HashOf, ByteLength, NoNul;
    var (t, err) := Perform(sv, s, GrantAuthorized(actor, id, reason, until), at);
    if err.None? {
      WindowsRaise(sv, s, t, id, s.sessions[id].stepUpUntil, until);
    }
  }

  /** Revoking, once authorized, succeeds for a session of the actor's tenant; then its risky requests pass
      only as far as it was stepped up, and the revocation is logged. */
  lemma WithdrawMeans(sv: Services, s: State, actor: Request, id: string, at: nat)
    ensures var (t, err) := Perform(sv, s, RevokeAuthorized(actor, id), at);
      && (err == Some(SessionMissing) <==> id !in s.sessions)
      && (err == Some(TenantDenied) <==> id in s.sessions && s.sessions[id].tenantID != actor.tenantID)
      && (err.None? <==> id in s.sessions && s.sessions[id].tenantID == actor.tenantID)
      && (err.None? ==> OnlySession(s, t, id))
      && (err.None? ==> RaisedTo(sv, s, t, id, s.sessions[id].stepUpUntil, 0))
      && (err.None? ==> Logs(s, t, at, s.sessions[id].tenantID, s.sessions[id].principal, "emergency.access.grant",
                             false, "emergency access revoked"))
  {
    hide RaisedTo, HashOf;
    var (t, err) := Perform(sv, s, RevokeAuthorized(actor, id), at);
    if err.None? {
      WindowsRaise(sv, s, t, id, s.sessions[id].stepUpUntil, 0);
    }
  }

  // ------------------------------------------------------------ provisioning

  /** The record that provisioning leaves: new data, the first instant kept, the revision one higher. */
  predicate Provisioned(s: State, t: State, op: Operation, at: nat)
    requires op.ProvisionMember?
  {
    var key := MemberKey(op.tenantID, op.principal);
    && key in t.members
    && var m := t.members[key];
       && m.tenantID == op.tenantID && m.principal == op.principal && m.externalID == op.externalID
       && m.displayName == op.displayName && m.updatedAt == at
       && (key in s.members && s.members[key].provisionedAt != 0 ==> m.provisionedAt == s.members[key].provisionedAt)
       && (key !in s.members || s.members[key].provisionedAt == 0 ==> m.provisionedAt == at)
       && m.revision == ((if key in s.members then s.members[key].revision else 0) + 1) % 0x1_0000_0000_0000_0000
  }

  /** Provisioning succeeds for acceptable data and the revision that was expected; then the member's
      requests are answered by the new activity and role, and the change is logged for who made it. */
  lemma ProvisionMemberMeans(sv: Services, s: State, op: Operation, at: nat)
    requires op.ProvisionMember?
    ensures var (t, err) := Perform(sv, s, op, at);
      var key := MemberKey(op.tenantID, op.principal);
      var current := op.expected.None? || (key in s.members && s.members[key].revision == op.expected.value);
      && (err == Some(TenantDenied) <==> !Provisionable(op))
      && (err == Some(RevisionConflict) <==> Provisionable(op) && !current)
      && (err.None? <==> Provisionable(op) && current)
      && (err.None? ==> OnlyMember(s, t, key) && Provisioned(s, t, op, at))
      && (err.None? ==> AnsweredAs(sv, t, key, op.active, op.role))
      && (err.None? ==> Logs(s, t, at, op.tenantID, op.provisioner, "organization.admin", op.active,
                             "SCIM membership synchronized"))
  {
    hide MemberKey, HashOf, AnsweredAs, Provisionable;
    var (t, err) := Perform(sv, s, op, at);
    if err.None? {
      RecordAnswers(sv, t, MemberKey(op.tenantID, op.principal));
    }
  }

  /** Of two changes made against the same revision only the first succeeds. */
  lemma SecondProvisionConflicts(sv: Services, s: State, first: Operation, second: Operation, at: nat, later: nat)
    requires first.ProvisionMember? && second.ProvisionMember? && Provisionable(second)
    requires MemberKey(first.tenantID, first.principal) == MemberKey(second.tenantID, second.principal)
    requires first.expected.Some? && first.expected == second.expected && Perform(sv, s, first, at).1.None?
    ensures Perform(sv, Perform(sv, s, first, at).0, second, later).1 == Some(RevisionConflict)
  {
    hide MemberKey, Append, Provisionable;
  }

  predicate NoBreaks(text: string) { '\U{0}' !in text && '\r' !in text && '\n' !in text }

  /** What may be provisioned: tenant, actor and principal that are not blank, at most 256 bytes once
      trimmed, and on one line; a known role; and data on one line of at most 256 bytes each. */
  lemma ProvisionableIff(op: Operation)
    requires op.ProvisionMember?
    ensures Provisionable(op) <==>
      && (forall text :: text in {op.tenantID, op.provisioner, op.principal} ==>
            var trimmed := TrimSpace(text); 1 <= ByteLength(trimmed) <= 256 && NoBreaks(trimmed))
      && KnownRole(op.role) && NoBreaks(op.externalID) && NoBreaks(op.displayName)
      && ByteLength(op.externalID) <= 256 && ByteLength(op.displayName) <= 256
  {
  }
}
