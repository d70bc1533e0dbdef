/**
 The organisation policy (internal/authorization/policy.go): members, invitations, sessions and a
 hash-chained log of decisions. Instants are integers counted from Go's zero time, which is 0; an
 operation reads the clock once, and the clock never stands before the zero time. Granting and
 revoking emergency access take the lock anew after the authorization has passed, so that part is an
 operation of its own, with the time it has read.
 */
module Authorization {
  import opened Prelude
  import opened AuditLog

  datatype Role = Owner | Admin | Operator | Approver | Auditor | Viewer | OtherRole(name: string)

  datatype AuthError =
    | TenantDenied | MembershipRevoked | CapabilityDenied | InvitationMissing | InvitationExpired
    | InvitationUsed | PrincipalMismatch | SessionMissing | SessionRevoked | SessionExpired
    | StepUpRequired | InvalidRole | AuditTampered | EmergencyInvalid | RevisionConflict

  datatype Member = Member(
    tenantID: string, principal: string, externalID: string, displayName: string,
    role: Role, active: bool, provisionedAt: int, updatedAt: int, revision: nat)

  datatype Request = Request(tenantID: string, principal: string, sessionID: string, capability: string)

  datatype Invitation = Invitation(
    id: string, tenantID: string, principal: string, role: Role, expiresAt: int, accepted: bool)

  datatype Session = Session(
    id: string, tenantID: string, principal: string, expiresAt: int, stepUpUntil: int,
    emergencyUntil: int, emergencyReason: string, revoked: bool)

  datatype State = State(
    members: map<string, Member>, invitations: map<string, Invitation>,
    sessions: map<string, Session>, decisions: seq<Decision>)

  const TASK_CREATE := "task.create"
  const SCOPE_CONFIRM := "scope.confirm"
  const APPROVAL := "approval.respond"
  const EVIDENCE_READ := "evidence.read"
  const REPORT_EXPORT := "report.export"
  const ADMINISTRATION := "organization.admin"
  const EMERGENCY_ACCESS := "emergency.access.grant"

  const MINUTES_30 := 30 * 60 * 1_000_000_000

  const NOTHING := State(map[], map[], map[], [])

  function MemberKey(tenantID: string, principal: string): string { Field(tenantID, principal) }

  predicate ValidRole(role: Role) { !role.OtherRole? }

  predicate HighRisk(c: string) {
    c == APPROVAL || c == REPORT_EXPORT || c == ADMINISTRATION || c == EMERGENCY_ACCESS
  }

  predicate RoleAllows(role: Role, c: string) {
    match role
    case Owner | Admin => true
    case Operator => c == TASK_CREATE || c == SCOPE_CONFIRM || c == EVIDENCE_READ
    case Approver => c == APPROVAL || c == EVIDENCE_READ
    case Auditor => c == EVIDENCE_READ || c == REPORT_EXPORT
    case Viewer => c == EVIDENCE_READ
    case OtherRole(_) => false
  }

  predicate OneLine(s: string) { NoNul(s) && '\r' !in s && '\n' !in s }

  predicate ProvisionText(s: string) {
    var trimmed := TrimSpace(s);
    trimmed != "" && ByteLength(trimmed) <= 256 && OneLine(trimmed)
  }

  function ErrorText(e: AuthError): string {
    match e
    case TenantDenied => "tenant_access_denied"
    case MembershipRevoked => "membership_revoked"
    case CapabilityDenied => "capability_denied"
    case InvitationMissing => "invitation_missing"
    case InvitationExpired => "invitation_expired"
    case InvitationUsed => "invitation_used"
    case PrincipalMismatch => "invitation_principal_mismatch"
    case SessionMissing => "session_missing"
    case SessionRevoked => "session_revoked"
    case SessionExpired => "session_expired"
    case StepUpRequired => "step_up_required"
    case InvalidRole => "invalid_role"
    case AuditTampered => "audit_tampered"
    case EmergencyInvalid => "emergency_access_invalid"
    case RevisionConflict => "revision_conflict"
  }

  // ------------------------------------------------------------ operations, as functions

  datatype Operation =
    | Invite(invitation: Invitation)
    | AcceptInvitation(id: string)
    | AcceptInvitationFor(actor: Request, id: string)
    | RegisterSession(session: Session)
    | RevokeSession(id: string)
    | ElevateSession(id: string, until: int)
    | GrantAuthorized(actor: Request, id: string, reason: string, until: int)
    | RevokeAuthorized(actor: Request, id: string)
    | RevokeMember(tenantID: string, principal: string)
    | ProvisionMember(
        tenantID: string, provisioner: string, principal: string, externalID: string,
        displayName: string, role: Role, active: bool, expected: Option<nat>)
    | UpdateMemberRole(tenantID: string, principal: string, role: Role)
    | Authorize(request: Request)

  function Accept(s: State, id: string, tenantID: string, principal: string, now: nat): (State, Option<AuthError>) {
    if id !in s.invitations then (s, Some(InvitationMissing))
    else
      var i := s.invitations[id];
      if tenantID != "" && i.tenantID != tenantID then (s, Some(TenantDenied))
      else if principal != "" && i.principal != principal then (s, Some(PrincipalMismatch))
      else if i.accepted then (s, Some(InvitationUsed))
      else if i.expiresAt <= now then (s, Some(InvitationExpired))
      else
        (s.(members := s.members[MemberKey(i.tenantID, i.principal) :=
                Member(i.tenantID, i.principal, "", "", i.role, true, 0, 0, 0)],
            invitations := s.invitations[id := i.(accepted := true)]), None)
  }

  /** The verdict on a named session. */
  function SessionVerdict(s: State, r: Request, now: nat): Option<AuthError> {
    if r.sessionID == "" then None
    else if r.sessionID !in s.sessions then Some(SessionMissing)
    else
      var session := s.sessions[r.sessionID];
      if session.revoked then Some(SessionRevoked)
      else if session.expiresAt <= now then Some(SessionExpired)
      else if session.tenantID != r.tenantID || session.principal != r.principal then Some(TenantDenied)
      else None
  }

  /** The session, if any, has been stepped up or given emergency access. */
  predicate Stepped(s: State, r: Request, now: nat) {
    r.sessionID != "" && r.sessionID in s.sessions &&
    (now < s.sessions[r.sessionID].stepUpUntil || now < s.sessions[r.sessionID].emergencyUntil)
  }

  /** The verdict on a request: a session that is named must hold before membership counts. */
  function Verdict(s: State, r: Request, now: nat): Option<AuthError> {
    var key := MemberKey(r.tenantID, r.principal);
    if SessionVerdict(s, r, now).Some? then SessionVerdict(s, r, now)
    else if key !in s.members then Some(TenantDenied)
    else if !s.members[key].active then Some(MembershipRevoked)
    else if !RoleAllows(s.members[key].role, r.capability) then Some(CapabilityDenied)
    else if HighRisk(r.capability) && !Stepped(s, r, now) then Some(StepUpRequired)
    else None
  }

  function DecisionRecord(r: Request, err: Option<AuthError>, now: nat): Record {
    Record(now, r.tenantID, r.principal, r.capability, err.None?, if err.Some? then ErrorText(err.value) else "", "")
  }

  function Decide(sv: Services, s: State, r: Request, now: nat): (State, Option<AuthError>) {
    var err := Verdict(s, r, now);
    (s.(decisions := Append(sv, s.decisions, DecisionRecord(r, err, now))), err)
  }

  predicate GrantFits(text: string, until: int, now: nat) {
    8 <= ByteLength(text) <= 256 && OneLine(text) && now < until <= now + MINUTES_30
  }

  function GrantRecord(session: Session, text: string, now: nat): Record {
    Record(now, session.tenantID, session.principal, EMERGENCY_ACCESS, true, "emergency access granted: " + text, "")
  }

  /** Granting after the authorization has passed. */
  function Grant(sv: Services, s: State, actor: Request, id: string, reason: string, until: int, now: nat)
    : (State, Option<AuthError>)
  {
    var text := sv.redact(TrimSpace(reason));
    if !GrantFits(text, until, now) then (s, Some(EmergencyInvalid))
    else if id !in s.sessions then (s, Some(SessionMissing))
    else
      var session := s.sessions[id];
      if session.tenantID != actor.tenantID then (s, Some(TenantDenied))
      else if session.revoked then (s, Some(SessionRevoked))
      else if session.expiresAt <= until then (s, Some(SessionExpired))
      else
        (s.(sessions := s.sessions[id := session.(emergencyUntil := until, emergencyReason := text)],
            decisions := Append(sv, s.decisions, GrantRecord(session, text, now))), None)
  }

  function WithdrawRecord(session: Session, now: nat): Record {
    Record(now, session.tenantID, session.principal, EMERGENCY_ACCESS, false, "emergency access revoked", "")
  }

  /** Revoking after the authorization has passed. */
  function Withdraw(sv: Services, s: State, actor: Request, id: string, now: nat): (State, Option<AuthError>) {
    if id !in s.sessions then (s, Some(SessionMissing))
    else
      var session := s.sessions[id];
      if session.tenantID != actor.tenantID then (s, Some(TenantDenied))
      else
        (s.(sessions := s.sessions[id := session.(emergencyUntil := 0, emergencyReason := "")],
            decisions := Append(sv, s.decisions, WithdrawRecord(session, now))), None)
  }

  predicate Provisionable(op: Operation)
    requires op.ProvisionMember?
  {
    && ProvisionText(op.tenantID) && ProvisionText(op.provisioner) && ProvisionText(op.principal) && ValidRole(op.role)
    && OneLine(op.externalID + op.displayName) && ByteLength(op.externalID) <= 256 && ByteLength(op.displayName) <= 256
  }

  function ProvisionRecord(op: Operation, now: nat): Record
    requires op.ProvisionMember?
  {
    Record(now, op.tenantID, op.provisioner, ADMINISTRATION, op.active, "SCIM membership synchronized", "")
  }

  function Provision(sv: Services, s: State, op: Operation, now: nat): (State, Option<AuthError>)
    requires op.ProvisionMember?
  {
    var key := MemberKey(op.tenantID, op.principal);
    var known := key in s.members;
    if !Provisionable(op) then (s, Some(TenantDenied))
    else if op.expected.Some? &&
        (!known || s.members[key].revision != op.expected.value) then (s, Some(RevisionConflict))
    else
      var created := if known && s.members[key].provisionedAt != 0 then s.members[key].provisionedAt else now;
      var revision := if known then (s.members[key].revision + 1) % 0x1_0000_0000_0000_0000 else 1;
      var member := Member(op.tenantID, op.principal, op.externalID, op.displayName, op.role, op.active,
                           created, now, revision);
      (s.(members := s.members[key := member], decisions := Append(sv, s.decisions, ProvisionRecord(op, now))), None)
  }

  function Perform(sv: Services, s: State, op: Operation, now: nat): (State, Option<AuthError>) {
    match op
    case Invite(i) =>
      if i.id == "" || i.tenantID == "" || i.principal == "" || i.expiresAt <= now then (s, Some(InvitationExpired))
      else if !ValidRole(i.role) then (s, Some(InvalidRole))
      else if i.id in s.invitations then (s, Some(InvitationUsed))
      else (s.(invitations := s.invitations[i.id := i]), None)
    case AcceptInvitation(id) => Accept(s, id, "", "", now)
    case AcceptInvitationFor(actor, id) =>
      if actor.tenantID == "" || actor.principal == "" then (s, Some(TenantDenied))
      else Accept(s, id, actor.tenantID, actor.principal, now)
    case RegisterSession(session) =>
      if session.id == "" || session.tenantID == "" || session.principal == "" then (s, Some(SessionMissing))
      else if session.expiresAt <= now then (s, Some(SessionExpired))
      else (s.(sessions := s.sessions[session.id := session.(revoked := false)]), None)
    case RevokeSession(id) =>
      if id !in s.sessions then (s, Some(SessionMissing))
      else (s.(sessions := s.sessions[id := s.sessions[id].(revoked := true)]), None)
    case ElevateSession(id, until) =>
      if id !in s.sessions then (s, Some(SessionMissing))
      else if s.sessions[id].revoked then (s, Some(SessionRevoked))
      else if until <= now || s.sessions[id].expiresAt <= until then (s, Some(SessionExpired))
      else (s.(sessions := s.sessions[id := s.sessions[id].(stepUpUntil := until)]), None)
    case GrantAuthorized(actor, id, reason, until) => Grant(sv, s, actor, id, reason, until, now)
    case RevokeAuthorized(actor, id) => Withdraw(sv, s, actor, id, now)
    case RevokeMember(tenantID, principal) =>
      var key := MemberKey(tenantID, principal);
      if key !in s.members then (s, Some(TenantDenied))
      else (s.(members := s.members[key := s.members[key].(active := false)]), None)
    case ProvisionMember(_, _, _, _, _, _, _, _) => Provision(sv, s, op, now)
    case UpdateMemberRole(tenantID, principal, role) =>
      var key := MemberKey(tenantID, principal);
      if !ValidRole(role) then (s, Some(InvalidRole))
      else if key !in s.members then (s, Some(TenantDenied))
      else (s.(members := s.members[key := s.members[key].(role := role)]), None)
    case Authorize(request) => Decide(sv, s, request, now)
  }

  datatype Timed = Timed(op: Operation, now: nat)

  function PerformAll(sv: Services, s: State, ops: seq<Timed>): State
    decreases |ops|
  {
    if ops == [] then s else PerformAll(sv, Perform(sv, s, ops[0].op, ops[0].now).0, ops[1..])
  }

  /** The policy that starts from a list of members; a later one replaces an earlier one. */
  function FromMembers(members: seq<Member>): map<string, Member> {
    if members == [] then map[]
    else
      var m := members[|members| - 1];
      FromMembers(members[..|members| - 1])[MemberKey(m.tenantID, m.principal) := m]
  }

  // ------------------------------------------------------------ what makes a policy reloadable

  predicate WellFormedMember(m: Member) { m.tenantID != "" && m.principal != "" && ValidRole(m.role) }

  predicate WellFormedInvitation(i: Invitation) {
    i.id != "" && i.tenantID != "" && i.principal != "" && ValidRole(i.role)
  }

  /** An emergency window comes with a reason and ends before the session does. */
  predicate EmergencyFits(session: Session) {
    if session.emergencyUntil == 0 then session.emergencyReason == ""
    else session.emergencyReason != "" && session.emergencyUntil <= session.expiresAt
  }

  predicate WellFormedSession(session: Session) {
    session.id != "" && session.tenantID != "" && session.principal != "" && EmergencyFits(session)
  }

  predicate MembersFit(members: map<string, Member>) {
    forall k :: k in members ==>
        k == MemberKey(members[k].tenantID, members[k].principal) && WellFormedMember(members[k])
  }

  predicate InvitationsFit(invitations: map<string, Invitation>) {
    forall k :: k in invitations ==> k == invitations[k].id && WellFormedInvitation(invitations[k])
  }

  predicate SessionsFit(sessions: map<string, Session>) {
    forall k :: k in sessions ==> k == sessions[k].id && WellFormedSession(sessions[k])
  }

  predicate MapsFit(s: State) {
    MembersFit(s.members) && InvitationsFit(s.invitations) && SessionsFit(s.sessions)
  }

  ghost predicate Reloadable(sv: Services, s: State) {
    MapsFit(s) && Verifies(sv, s.decisions)
  }

  // ------------------------------------------------------------ the log under every operation

  lemma EmergencyKeepsChain(sv: Services, s: State, actor: Request, id: string, reason: string, until: int, now: nat)
    requires Verifies(sv, s.decisions)
    ensures ChainGrows(sv, s.decisions, Grant(sv, s, actor, id, reason, until, now).0.decisions)
    ensures ChainGrows(sv, s.decisions, Withdraw(sv, s, actor, id, now).0.decisions)
  {
    hide Verifies, Append, GrantFits;
    AppendGrows(sv, s.decisions);
  }

  lemma DecideKeepsChain(sv: Services, s: State, r: Request, now: nat)
    requires Verifies(sv, s.decisions)
    ensures ChainGrows(sv, s.decisions, Decide(sv, s, r, now).0.decisions)
  {
    hide Verifies, Append, Verdict, ErrorText;
    AppendGrows(sv, s.decisions);
  }

  lemma ProvisionKeepsChain(sv: Services, s: State, op: Operation, now: nat)
    requires Verifies(sv, s.decisions) && op.ProvisionMember?
    ensures ChainGrows(sv, s.decisions, Provision(sv, s, op, now).0.decisions)
  {
    hide Verifies, Append, MemberKey, Provisionable;
    AppendGrows(sv, s.decisions);
  }

  predicate Audited(op: Operation) {
    op.GrantAuthorized? || op.RevokeAuthorized? || op.ProvisionMember? || op.Authorize?
  }

  lemma OthersKeepTheLog(sv: Services, s: State, op: Operation, now: nat)
    requires !Audited(op)
    ensures Perform(sv, s, op, now).0.decisions == s.decisions
  {
    hide MemberKey, ValidRole;
  }

  /** Every operation, whatever session it registers, keeps the chain verifying and only extends it. */
  lemma PerformKeepsChain(sv: Services, s: State, op: Operation, now: nat)
    requires Verifies(sv, s.decisions)
    ensures ChainGrows(sv, s.decisions, Perform(sv, s, op, now).0.decisions)
  {
    hide Verifies, Decide, Grant, Withdraw, Provision, MemberKey, ValidRole, Accept;
    match op
    case GrantAuthorized(actor, id, reason, until) => EmergencyKeepsChain(sv, s, actor, id, reason, until, now);
    case RevokeAuthorized(actor, id) => EmergencyKeepsChain(sv, s, actor, id, "", 0, now);
    case ProvisionMember(_, _, _, _, _, _, _, _) => ProvisionKeepsChain(sv, s, op, now);
    case Authorize(request) => DecideKeepsChain(sv, s, request, now);
    case _ => OthersKeepTheLog(sv, s, op, now);
  }

  /** The audit chain verifies in every reachable state and only grows. */
  lemma {:induction false} EveryRunKeepsChain(sv: Services, s: State, ops: seq<Timed>)
    requires Verifies(sv, s.decisions)
    ensures ChainGrows(sv, s.decisions, PerformAll(sv, s, ops).decisions)
    decreases |ops|
  {
    hide Verifies, Perform;
    if ops != [] {
      PerformKeepsChain(sv, s, ops[0].op, ops[0].now);
      EveryRunKeepsChain(sv, Perform(sv, s, ops[0].op, ops[0].now).0, ops[1..]);
    }
  }

  // ------------------------------------------------------------ what the log's final hash fixes

  lemma AppendKeepsPlainReasons(sv: Services, decisions: seq<Decision>, record: Record)
    requires PlainReasons(decisions) && PlainReason(record)
    ensures PlainReasons(Append(sv, decisions, record))
  {
    hide HashOf;
  }

  lemma MembershipErrorIsPlain(e: AuthError)
    requires e.TenantDenied? || e.MembershipRevoked? || e.CapabilityDenied? || e.InvalidRole? || e.RevisionConflict?
    ensures NoNul(ErrorText(e))
  {
  }

  lemma InvitationErrorIsPlain(e: AuthError)
    requires e.InvitationMissing? || e.InvitationExpired? || e.InvitationUsed? || e.PrincipalMismatch?
    ensures NoNul(ErrorText(e))
  {
  }

  lemma SessionErrorIsPlain(e: AuthError)
    requires e.SessionMissing? || e.SessionRevoked? || e.SessionExpired? || e.StepUpRequired?
    ensures NoNul(ErrorText(e))
  {
  }

  lemma OtherErrorIsPlain(e: AuthError)
    requires e.AuditTampered? || e.EmergencyInvalid?
    ensures NoNul(ErrorText(e))
  {
  }

  lemma ErrorTextIsPlain(err: Option<AuthError>, r: Request, now: nat)
    ensures PlainReason(DecisionRecord(r, err, now))
  {
    hide ErrorText;
    if err.Some? {
      var e := err.value;
      if e.TenantDenied? || e.MembershipRevoked? || e.CapabilityDenied? || e.InvalidRole? || e.RevisionConflict? {
        MembershipErrorIsPlain(e);
      } else if e.SessionMissing? || e.SessionRevoked? || e.SessionExpired? || e.StepUpRequired? {
        SessionErrorIsPlain(e);
      } else if e.AuditTampered? || e.EmergencyInvalid? {
        OtherErrorIsPlain(e);
      } else {
        InvitationErrorIsPlain(e);
      }
    }
  }

  lemma WithdrawReasonIsPlain(session: Session, now: nat)
    ensures PlainReason(WithdrawRecord(session, now))
  {
  }

  lemma ProvisionReasonIsPlain(op: Operation, now: nat)
    requires op.ProvisionMember?
    ensures PlainReason(ProvisionRecord(op, now))
  {
  }

  lemma GrantReasonIsPlain(session: Session, text: string, until: int, now: nat)
    requires GrantFits(text, until, now)
    ensures PlainReason(GrantRecord(session, text, now))
  {
    hide ByteLength;
  }

  /** Whatever a policy writes, the reasons in its log hold no NUL. */
  lemma PerformKeepsPlainReasons(sv: Services, s: State, op: Operation, now: nat)
    requires PlainReasons(s.decisions)
    ensures PlainReasons(Perform(sv, s, op, now).0.decisions)
  {
    hide PlainReasons, PlainReason, Append, GrantFits, GrantRecord, WithdrawRecord, ProvisionRecord, DecisionRecord;
    hide Verdict, MemberKey, Accept, Provisionable, ValidRole;
    match op
    case GrantAuthorized(actor, id, reason, until) =>
      var text := sv.redact(TrimSpace(reason));
      if GrantFits(text, until, now) && id in s.sessions {
        GrantReasonIsPlain(s.sessions[id], text, until, now);
        AppendKeepsPlainReasons(sv, s.decisions, GrantRecord(s.sessions[id], text, now));
      }
    case RevokeAuthorized(actor, id) =>
      if id in s.sessions {
        WithdrawReasonIsPlain(s.sessions[id], now);
        AppendKeepsPlainReasons(sv, s.decisions, WithdrawRecord(s.sessions[id], now));
      }
    case ProvisionMember(_, _, _, _, _, _, _, _) =>
      ProvisionReasonIsPlain(op, now);
      AppendKeepsPlainReasons(sv, s.decisions, ProvisionRecord(op, now));
    case Authorize(request) =>
      ErrorTextIsPlain(Verdict(s, request, now), request, now);
      AppendKeepsPlainReasons(sv, s.decisions, DecisionRecord(request, Verdict(s, request, now), now));
    case _ => OthersKeepTheLog(sv, s, op, now);
  }

  lemma {:induction false} EveryRunWritesPlainReasons(sv: Services, s: State, ops: seq<Timed>)
    requires PlainReasons(s.decisions)
    ensures PlainReasons(PerformAll(sv, s, ops).decisions)
    decreases |ops|
  {
    hide PlainReasons, Perform;
    if ops != [] {
      PerformKeepsPlainReasons(sv, s, ops[0].op, ops[0].now);
      EveryRunWritesPlainReasons(sv, Perform(sv, s, ops[0].op, ops[0].now).0, ops[1..]);
    }
  }

  /** In every reachable state the final hash leaves another log possible exactly when some decision
      so far names a tenant, a principal or a capability with a NUL in it. */
  lemma ReachableLogForgeableIff(sv: Services, members: map<string, Member>, ops: seq<Timed>)
    requires Ideal(sv)
    ensures var log := PerformAll(sv, State(members, map[], map[], []), ops).decisions;
      Forgeable(sv, log) <==> HasShift(log)
  {
    hide Forgeable, HasShift, Ideal, PerformAll;
    var start := State(members, map[], map[], []);
    EveryRunKeepsChain(sv, start, ops);
    EveryRunWritesPlainReasons(sv, start, ops);
    ForgeableIff(sv, PerformAll(sv, start, ops).decisions);
    ClearIff(PerformAll(sv, start, ops).decisions);
  }

  lemma SameReason(r: Record, q: Record)
    requires r.reason == q.reason && PlainReason(q)
    ensures PlainReason(r)
  {
  }

  /** Authorizing a request opens a log to forgery exactly when the request holds a NUL. */
  lemma AuthorizeOpensIff(sv: Services, s: State, r: Request, now: nat)
    requires Ideal(sv) && Verifies(sv, s.decisions)
    ensures Forgeable(sv, Perform(sv, s, Authorize(r), now).0.decisions) <==>
            Forgeable(sv, s.decisions) || !(NoNul(r.tenantID) && NoNul(r.principal) && NoNul(r.capability))
  {
    hide Forgeable, Ideal, Verifies, HashOf, Verdict, NoNul, Ambiguous, PlainReason;
    var after := Perform(sv, s, Authorize(r), now).0.decisions;
    PerformKeepsChain(sv, s, Authorize(r), now);
    ForgeableIff(sv, s.decisions);
    ForgeableIff(sv, after);
    assert forall i :: 0 <= i < |s.decisions| ==> after[i] == s.decisions[i];
    var last := after[|s.decisions|].record;
    ErrorTextIsPlain(Verdict(s, r, now), r, now);
    SameReason(last, DecisionRecord(r, Verdict(s, r, now), now));
    PlainIsClear(last);
    assert Shifts(last) <==> !(NoNul(r.tenantID) && NoNul(r.principal) && NoNul(r.capability));
  }

  lemma SameText(sv: Services, r: Record, q: Record)
    requires r.tenantID == "a\U{0}b" && r.principal == "c" && q == r.(tenantID := "a", principal := "b\U{0}c")
    ensures Material(sv, r) == Material(sv, q)
  {
    var rest := Field(r.capability, Field(Flag(r.allowed), Field(r.reason, r.previousHash)));
    assert Field("a\U{0}b", Field("c", rest)) == Field("a", Field("b\U{0}c", rest));
  }

  lemma HashesAgree(sv: Services, r: Record, q: Record)
    requires Material(sv, r) == Material(sv, q)
    ensures HashOf(sv, r) == HashOf(sv, q)
  {
  }

  /** One request is enough: the log it leaves and a log with another tenant and principal both verify
      and end in the same hash, for every digest. */
  lemma NulRequestIsForgeable(sv: Services)
    ensures var log := Perform(sv, NOTHING, Authorize(Request("a\U{0}b", "c", "", EVIDENCE_READ)), 1).0.decisions;
      && |log| == 1
      && var other := [Decision(log[0].record.(tenantID := "a", principal := "b\U{0}c"), log[0].hash)];
         other != log && Verifies(sv, log) && Verifies(sv, other) && LastHash(other) == LastHash(log)
  {
    hide HashOf, Material;
    var log := Perform(sv, NOTHING, Authorize(Request("a\U{0}b", "c", "", EVIDENCE_READ)), 1).0.decisions;
    var r := log[0].record;
    var forged := r.(tenantID := "a", principal := "b\U{0}c");
    SameText(sv, r, forged);
    HashesAgree(sv, r, forged);
    assert log[..0] == [];
  }

  // ------------------------------------------------------------ runs without NULs

  predicate PlainSession(session: Session) { NoNul(session.tenantID) && NoNul(session.principal) }

  predicate PlainSessions(s: State) {
    forall k :: k in s.sessions ==> PlainSession(s.sessions[k])
  }

  /** What the callers of a run have to check: identifiers without NULs where they enter. */
  predicate PlainOperation(op: Operation) {
    match op
    case Authorize(r) => NoNul(r.tenantID) && NoNul(r.principal) && NoNul(r.capability)
    case RegisterSession(session) => PlainSession(session)
    case _ => true
  }

  lemma {:induction false} TrimLeftKeepsNuls(s: string)
    ensures NoNul(TrimLeft(s)) ==> NoNul(s)
  {
    if s != "" && IsSpace(s[0]) {
      TrimLeftKeepsNuls(s[1..]);
      assert s == [s[0]] + s[1..];
    }
  }

  lemma {:induction false} TrimRightKeepsNuls(s: string)
    ensures NoNul(TrimRight(s)) ==> NoNul(s)
  {
    if s != "" && IsSpace(s[|s| - 1]) {
      TrimRightKeepsNuls(s[..|s| - 1]);
      assert s == s[..|s| - 1] + [s[|s| - 1]];
    }
  }

  lemma ProvisionedTextIsPlain(s: string)
    requires ProvisionText(s)
    ensures NoNul(s) && s != ""
  {
    hide ByteLength;
    TrimRightKeepsNuls(TrimLeft(s));
    TrimLeftKeepsNuls(s);
    assert s == "" ==> TrimSpace(s) == "";
  }

  lemma AppendKeepsPlain(sv: Services, decisions: seq<Decision>, record: Record)
    requires PlainLog(decisions) && !Shifts(record) && PlainReason(record)
    ensures PlainLog(Append(sv, decisions, record))
  {
    hide HashOf;
  }

  lemma EmergencyIsPlain()
    ensures NoNul(EMERGENCY_ACCESS) && NoNul(ADMINISTRATION)
  {
  }

  lemma GrantKeepsPlain(sv: Services, s: State, actor: Request, id: string, reason: string, until: int, now: nat)
    requires PlainLog(s.decisions) && PlainSessions(s)
    ensures PlainLog(Grant(sv, s, actor, id, reason, until, now).0.decisions)
  {
    hide PlainLog, Append, GrantFits, PlainReason;
    var text := sv.redact(TrimSpace(reason));
    if GrantFits(text, until, now) && id in s.sessions {
      GrantReasonIsPlain(s.sessions[id], text, until, now);
      EmergencyIsPlain();
      AppendKeepsPlain(sv, s.decisions, GrantRecord(s.sessions[id], text, now));
    }
  }

  lemma WithdrawKeepsPlain(sv: Services, s: State, actor: Request, id: string, now: nat)
    requires PlainLog(s.decisions) && PlainSessions(s)
    ensures PlainLog(Withdraw(sv, s, actor, id, now).0.decisions)
  {
    hide PlainLog, Append;
    if id in s.sessions {
      EmergencyIsPlain();
      WithdrawReasonIsPlain(s.sessions[id], now);
      AppendKeepsPlain(sv, s.decisions, WithdrawRecord(s.sessions[id], now));
    }
  }

  lemma ProvisionKeepsPlain(sv: Services, s: State, op: Operation, now: nat)
    requires PlainLog(s.decisions) && op.ProvisionMember?
    ensures PlainLog(Provision(sv, s, op, now).0.decisions)
  {
    hide PlainLog, Append, MemberKey, ProvisionText;
    if Provisionable(op) {
      ProvisionedTextIsPlain(op.tenantID);
      ProvisionedTextIsPlain(op.provisioner);
      EmergencyIsPlain();
      ProvisionReasonIsPlain(op, now);
      AppendKeepsPlain(sv, s.decisions, ProvisionRecord(op, now));
    }
  }

  lemma DecideKeepsPlain(sv: Services, s: State, r: Request, now: nat)
    requires PlainLog(s.decisions) && NoNul(r.tenantID) && NoNul(r.principal) && NoNul(r.capability)
    ensures PlainLog(Decide(sv, s, r, now).0.decisions)
  {
    hide PlainLog, Append, Verdict, ErrorText;
    ErrorTextIsPlain(Verdict(s, r, now), r, now);
    AppendKeepsPlain(sv, s.decisions, DecisionRecord(r, Verdict(s, r, now), now));
  }

  lemma PerformKeepsPlain(sv: Services, s: State, op: Operation, now: nat)
    requires PlainLog(s.decisions) && PlainSessions(s) && PlainOperation(op)
    ensures PlainLog(Perform(sv, s, op, now).0.decisions)
  {
    hide PlainLog, PlainSessions, Decide, Grant, Withdraw, Provision, MemberKey, ValidRole, Accept;
    match op
    case GrantAuthorized(actor, id, reason, until) => GrantKeepsPlain(sv, s, actor, id, reason, until, now);
    case RevokeAuthorized(actor, id) => WithdrawKeepsPlain(sv, s, actor, id, now);
    case ProvisionMember(_, _, _, _, _, _, _, _) => ProvisionKeepsPlain(sv, s, op, now);
    case Authorize(request) => DecideKeepsPlain(sv, s, request, now);
    case _ => OthersKeepTheLog(sv, s, op, now);
  }

  lemma PerformKeepsPlainSessions(sv: Services, s: State, op: Operation, now: nat)
    requires PlainSessions(s) && PlainOperation(op)
    ensures PlainSessions(Perform(sv, s, op, now).0)
  {
    hide Append, GrantFits, Verdict, MemberKey, Provisionable, ValidRole, NoNul;
  }

  lemma {:induction false} PlainRunsStayPlain(sv: Services, s: State, ops: seq<Timed>)
    requires PlainLog(s.decisions) && PlainSessions(s)
    requires forall t :: t in ops ==> PlainOperation(t.op)
    ensures PlainLog(PerformAll(sv, s, ops).decisions)
    decreases |ops|
  {
    hide PlainLog, PlainSessions, Perform;
    if ops != [] {
      PerformKeepsPlain(sv, s, ops[0].op, ops[0].now);
      PerformKeepsPlainSessions(sv, s, ops[0].op, ops[0].now);
      PlainRunsStayPlain(sv, Perform(sv, s, ops[0].op, ops[0].now).0, ops[1..]);
    }
  }

  lemma NothingIsPlain()
    ensures PlainLog([])
  {
  }

  /** When no request and no registered session of a run holds a NUL, the final hash of its log fixes
      the whole log. */
  lemma PlainRunIsFixed(sv: Services, members: map<string, Member>, ops: seq<Timed>, other: seq<Decision>)
    requires Ideal(sv) && forall t :: t in ops ==> PlainOperation(t.op)
    requires Verifies(sv, other)
    requires LastHash(other) == LastHash(PerformAll(sv, State(members, map[], map[], []), ops).decisions)
    ensures other == PerformAll(sv, State(members, map[], map[], []), ops).decisions
  {
    hide PlainLog, PerformAll;
    var start := State(members, map[], map[], []);
    NothingIsPlain();
    PlainRunsStayPlain(sv, start, ops);
    EveryRunKeepsChain(sv, start, ops);
    PlainLogIsClear(PerformAll(sv, start, ops).decisions);
    FinalHashFixesTheLog(sv, PerformAll(sv, start, ops).decisions, other);
  }

  // ------------------------------------------------------------ the maps under every operation

  lemma InvitationsKeepMaps(sv: Services, s: State, op: Operation, now: nat)
    requires MapsFit(s) && (op.Invite? || op.AcceptInvitation? || op.AcceptInvitationFor?)
    ensures MapsFit(Perform(sv, s, op, now).0)
  {
    hide SessionsFit, MemberKey;
  }

  lemma SessionsKeepMaps(sv: Services, s: State, op: Operation, now: nat)
    requires MapsFit(s) && (op.RegisterSession? || op.RevokeSession? || op.ElevateSession?)
    requires op.RegisterSession? ==> EmergencyFits(op.session)
    ensures MapsFit(Perform(sv, s, op, now).0)
  {
    hide MembersFit, InvitationsFit;
  }

  lemma EmergencyKeepsMaps(sv: Services, s: State, op: Operation, now: nat)
    requires MapsFit(s) && (op.GrantAuthorized? || op.RevokeAuthorized?)
    ensures MapsFit(Perform(sv, s, op, now).0)
  {
    hide MembersFit, InvitationsFit, Append, OneLine;
  }

  lemma MembersKeepMaps(sv: Services, s: State, op: Operation, now: nat)
    requires MapsFit(s) && (op.RevokeMember? || op.UpdateMemberRole?)
    ensures MapsFit(Perform(sv, s, op, now).0)
  {
    hide SessionsFit, InvitationsFit, Append;
  }

  lemma ProvisionKeepsMaps(sv: Services, s: State, op: Operation, now: nat)
    requires MapsFit(s) && op.ProvisionMember?
    ensures MapsFit(Perform(sv, s, op, now).0)
  {
    hide SessionsFit, InvitationsFit, Append, ProvisionText;
    if Provisionable(op) {
      ProvisionedTextIsPlain(op.tenantID);
      ProvisionedTextIsPlain(op.principal);
    }
  }

  lemma AuthorizeKeepsMaps(sv: Services, s: State, op: Operation, now: nat)
    requires MapsFit(s) && op.Authorize?
    ensures MapsFit(Perform(sv, s, op, now).0)
  {
    hide SessionsFit, InvitationsFit, MembersFit, Append, Verdict;
  }

  lemma PerformKeepsMaps(sv: Services, s: State, op: Operation, now: nat)
    requires MapsFit(s) && (op.RegisterSession? ==> EmergencyFits(op.session))
    ensures MapsFit(Perform(sv, s, op, now).0)
  {
    hide MapsFit, Perform;
    if op.Invite? || op.AcceptInvitation? || op.AcceptInvitationFor? {
      InvitationsKeepMaps(sv, s, op, now);
    } else if op.RegisterSession? || op.RevokeSession? || op.ElevateSession? {
      SessionsKeepMaps(sv, s, op, now);
    } else if op.GrantAuthorized? || op.RevokeAuthorized? {
      EmergencyKeepsMaps(sv, s, op, now);
    } else if op.RevokeMember? || op.UpdateMemberRole? {
      MembersKeepMaps(sv, s, op, now);
    } else if op.ProvisionMember? {
      ProvisionKeepsMaps(sv, s, op, now);
    } else {
      AuthorizeKeepsMaps(sv, s, op, now);
    }
  }

  /** What an operation keeps: the chain, and with a fitting registration the whole reloadability. */
  ghost predicate Kept(sv: Services, before: State, after: State, fits: bool) {
    && (Verifies(sv, before.decisions) ==> ChainGrows(sv, before.decisions, after.decisions))
    && (Reloadable(sv, before) && fits ==> Reloadable(sv, after))
  }

  /** Every operation keeps a policy reloadable and only extends its log, provided that a session is
      registered with fitting emergency fields. */
  lemma PerformKeeps(sv: Services, s: State, op: Operation, now: nat)
    ensures Kept(sv, s, Perform(sv, s, op, now).0, op.RegisterSession? ==> EmergencyFits(op.session))
  {
    hide Perform, MapsFit, Verifies;
    if Verifies(sv, s.decisions) {
      PerformKeepsChain(sv, s, op, now);
    }
    if MapsFit(s) && (op.RegisterSession? ==> EmergencyFits(op.session)) {
      PerformKeepsMaps(sv, s, op, now);
    }
  }

  /** In every run the log verifies, only grows, and the policy stays reloadable. */
  lemma {:induction false} EveryRunKeeps(sv: Services, s: State, ops: seq<Timed>)
    requires Reloadable(sv, s)
    requires forall t :: t in ops && t.op.RegisterSession? ==> EmergencyFits(t.op.session)
    ensures Reloadable(sv, PerformAll(sv, s, ops)) && s.decisions <= PerformAll(sv, s, ops).decisions
    decreases |ops|
  {
    hide Perform, MapsFit, Verifies;
    if ops != [] {
      PerformKeeps(sv, s, ops[0].op, ops[0].now);
      EveryRunKeeps(sv, Perform(sv, s, ops[0].op, ops[0].now).0, ops[1..]);
    }
  }

  /** `RegisterSession` checks no emergency field: the policy stays reloadable exactly when the
      caller supplied fitting ones. */
  lemma RegisterReloadsIff(sv: Services, s: State, session: Session, now: nat)
    requires Reloadable(sv, s) && Perform(sv, s, RegisterSession(session), now).1.None?
    ensures Reloadable(sv, Perform(sv, s, RegisterSession(session), now).0) <==> EmergencyFits(session)
  {
    hide MembersFit, InvitationsFit, Verifies;
    var next := Perform(sv, s, RegisterSession(session), now).0;
    assert session.id in next.sessions;
    assert EmergencyFits(session) <==> EmergencyFits(session.(revoked := false));
  }

  /** A reason without a window is accepted at registration and breaks the reload. */
  lemma RegisterCanBreakReload(sv: Services)
    ensures var session := Session("s", "t", "p", 10, 0, 0, "why", false);
      var (next, err) := Perform(sv, NOTHING, RegisterSession(session), 1);
      err.None? && !Reloadable(sv, next)
  {
    RegisterReloadsIff(sv, NOTHING, Session("s", "t", "p", 10, 0, 0, "why", false), 1);
  }

  lemma {:induction false} InitialIsReloadable(sv: Services, members: seq<Member>)
    requires forall m :: m in members ==> WellFormedMember(m)
    ensures Reloadable(sv, State(FromMembers(members), map[], map[], []))
  {
    hide MemberKey;
    if members != [] {
      InitialIsReloadable(sv, members[..|members| - 1]);
    }
  }

  // ------------------------------------------------------------ tenant isolation

  /** The key of this tenant and principal is also the key of another well-formed pair. */
  predicate Confusable(tenantID: string, principal: string) {
    var key := MemberKey(tenantID, principal);
    exists k :: 0 < k < |key| - 1 && key[k] == NUL && k != |tenantID|
  }

  /** The request passed on a member record of its own tenant and principal. */
  predicate OwnMember(s: State, r: Request) {
    var key := MemberKey(r.tenantID, r.principal);
    key in s.members && s.members[key].tenantID == r.tenantID && s.members[key].principal == r.principal
  }

  lemma PassedOnOwnMember(s: State, r: Request, now: nat)
    requires MembersFit(s.members) && Verdict(s, r, now).None? && !Confusable(r.tenantID, r.principal)
    ensures OwnMember(s, r)
  {
    var key := MemberKey(r.tenantID, r.principal);
    var m := s.members[key];
    assert key == m.tenantID + [NUL] + m.principal && key[|m.tenantID|] == NUL;
    assert key[..|m.tenantID|] == m.tenantID && key[|m.tenantID| + 1..] == m.principal;
    assert key[..|r.tenantID|] == r.tenantID && key[|r.tenantID| + 1..] == r.principal;
  }

  /** A reloadable policy in which the request passes on another tenant's owner. */
  function Confusing(tenantID: string, principal: string, k: nat): State
    requires k < |MemberKey(tenantID, principal)|
  {
    var key := MemberKey(tenantID, principal);
    State(map[key := Member(key[..k], key[k + 1..], "", "", Owner, true, 0, 0, 0)], map[], map[], [])
  }

  lemma ConfusingPasses(sv: Services, tenantID: string, principal: string, k: nat)
    requires 0 < k < |MemberKey(tenantID, principal)| - 1 && k != |tenantID|
    requires MemberKey(tenantID, principal)[k] == NUL
    ensures var s, r := Confusing(tenantID, principal, k), Request(tenantID, principal, "", EVIDENCE_READ);
      Reloadable(sv, s) && Verdict(s, r, 0).None? && !OwnMember(s, r)
  {
    var key := MemberKey(tenantID, principal);
    assert key == key[..k] + [NUL] + key[k + 1..];
  }

  /** The request passes in this reloadable policy without a member record of its own. */
  ghost predicate PassesAsAnother(sv: Services, s: State, r: Request, now: nat) {
    Reloadable(sv, s) && Verdict(s, r, now).None? && !OwnMember(s, r)
  }

  /** A request can only pass on its own tenant's member record, in every reloadable policy, exactly
      when its tenant and principal cannot be cut differently at a NUL. */
  lemma IsolatedIff(sv: Services, tenantID: string, principal: string)
    ensures Confusable(tenantID, principal) <==>
            exists s, r: Request, now :: r.tenantID == tenantID && r.principal == principal &&
                PassesAsAnother(sv, s, r, now)
    ensures NoNul(tenantID) && NoNul(principal) ==> !Confusable(tenantID, principal)
  {
    var key := MemberKey(tenantID, principal);
    assert key[..|tenantID|] == tenantID && key[|tenantID| + 1..] == principal;
    if Confusable(tenantID, principal) {
      var k: nat :| 0 < k < |key| - 1 && key[k] == NUL && k != |tenantID|;
      ConfusingPasses(sv, tenantID, principal, k);
      assert PassesAsAnother(sv, Confusing(tenantID, principal, k), Request(tenantID, principal, "", EVIDENCE_READ), 0);
    } else {
      forall s, r: Request, now | r.tenantID == tenantID && r.principal == principal
        ensures !PassesAsAnother(sv, s, r, now)
      {
        if Reloadable(sv, s) && Verdict(s, r, now).None? {
          PassedOnOwnMember(s, r, now);
        }
      }
    }
  }

  /** Which requests pass in a reloadable policy, when tenant and principal cannot be cut differently:
      those of an active member of that very tenant and principal whose role allows the capability,
      with a live session of their own where one is named, and a stepped-up one for a high risk. */
  lemma AuthorizedIff(s: State, r: Request, now: nat)
    requires MembersFit(s.members) && !Confusable(r.tenantID, r.principal)
    ensures Verdict(s, r, now).None? <==>
      && (exists k :: k in s.members && s.members[k].tenantID == r.tenantID && s.members[k].principal == r.principal &&
                      s.members[k].active && RoleAllows(s.members[k].role, r.capability))
      && SessionVerdict(s, r, now).None?
      && (HighRisk(r.capability) ==> Stepped(s, r, now))
  {
    hide RoleAllows, HighRisk, SessionVerdict, Stepped, Confusable;
    if Verdict(s, r, now).None? {
      PassedOnOwnMember(s, r, now);
    }
  }
}
