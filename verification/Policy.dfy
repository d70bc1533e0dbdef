/** The policy object: the methods of internal/authorization/policy.go and snapshot.go on its maps. */
module PolicyObject {
  import opened Prelude
  import opened Ordering
  import A = Authorization
  import L = AuditLog
  import S = PolicySnapshot

  lemma KeptOn(sv: L.Services, a: A.State, b: A.State, c: A.State)
    requires A.Kept(sv, a, b, true) && A.Kept(sv, b, c, true)
    ensures A.Kept(sv, a, c, true)
  {
    hide L.Verifies, A.MapsFit;
  }

  lemma OrdersRank()
    ensures Ranks(S.MemberBefore) && Ranks(S.InvitationBefore) && Ranks(S.SessionBefore)
  {
    forall a: string, b: string
      ensures Less(a, b) ==> !Less(b, a)
      ensures a != b ==> Less(a, b) || Less(b, a)
      ensures !Less(a, a)
    {
      LessIsTotal(a, b);
    }
    forall a: string, b: string, c: string | !Less(b, a) && !Less(c, b)
      ensures !Less(c, a)
    {
      LessIsTransitive(a, b, c);
    }
  }

  lemma SameSize<T>(a: set<T>, b: set<T>)
    requires a <= b && |a| == |b|
    ensures a == b
  {
    assert b == a + (b - a);
    assert |b - a| == 0;
  }

  lemma OneMoreItem<T(!new)>(m: map<string, T>, left: set<string>, k: string)
    requires k in left && left <= m.Keys
    ensures (m - (left - {k})).Items == (m - left).Items + {(k, m[k])}
  {
    var before, after := m - left, m - (left - {k});
    var both := before.Items + {(k, m[k])};
    forall e | e in both
      ensures e in after.Items
    {
      assert e.0 in after && after[e.0] == e.1;
    }
    assert after.Keys == before.Keys + {k};
    assert (k, m[k]) !in before.Items;
    SameSize(both, after.Items);
  }

  lemma OneMoreEntry<T(!new)>(m: map<string, T>, left: set<string>, k: string)
    requires k in left && left <= m.Keys
    ensures multiset((m - (left - {k})).Items) == multiset((m - left).Items) + multiset{(k, m[k])}
  {
    OneMoreItem(m, left, k);
    assert (k, m[k]) !in (m - left).Items;
  }

  /** Collects the entries of a map in whatever order they come. */
  method Collect<T(==, !new)>(m: map<string, T>) returns (entries: seq<(string, T)>)
    ensures S.Enumerates(entries, m)
  {
    entries := [];
    var left := m.Keys;
    assert m - left == map[];
    while left != {}
      invariant left <= m.Keys && S.Enumerates(entries, m - left)
      decreases left
    {
      var k :| k in left;
      OneMoreEntry(m, left, k);
      left := left - {k};
      entries := entries + [(k, m[k])];
    }
    assert m - left == m;
  }

  method Listing<T(==, !new)>(m: map<string, T>, before: (T, T) -> bool) returns (values: seq<T>)
    requires Ranks(before)
    ensures S.Lists(values, m, before)
  {
    var collected := Collect(m);
    S.ByValueRanks(before);
    SortPermutes(collected, S.ByValue(before));
    SortSorts(collected, S.ByValue(before));
    var entries := Sort(collected, S.ByValue(before));
    values := S.Values(entries);
  }

  class Policy {
    const sv: L.Services
    var members: map<string, A.Member>
    var invitations: map<string, A.Invitation>
    var sessions: map<string, A.Session>
    var decisions: seq<L.Decision>

    function State(): A.State
      reads this
    {
      A.State(members, invitations, sessions, decisions)
    }

    constructor (sv: L.Services, listed: seq<A.Member>)
      ensures this.sv == sv && State() == A.State(A.FromMembers(listed), map[], map[], [])
    {
      this.sv, members, invitations, sessions, decisions := sv, map[], map[], map[], [];
      new;
      for i := 0 to |listed|
        invariant State() == A.State(A.FromMembers(listed[..i]), map[], map[], []) && this.sv == sv
      {
        assert listed[..i + 1][..i] == listed[..i];
        members := members[A.MemberKey(listed[i].tenantID, listed[i].principal) := listed[i]];
      }
      assert listed[..|listed|] == listed;
    }

    method Invite(i: A.Invitation, now: nat) returns (err: Option<A.AuthError>)
      modifies this
      ensures (State(), err) == A.Perform(sv, old(State()), A.Invite(i), now)
      ensures A.Kept(sv, old(State()), State(), true)
    {
      A.PerformKeeps(sv, State(), A.Invite(i), now);
      if i.id == "" || i.tenantID == "" || i.principal == "" || i.expiresAt <= now {
        return Some(A.InvitationExpired);
      }
      if !A.ValidRole(i.role) {
        return Some(A.InvalidRole);
      }
      if i.id in invitations {
        return Some(A.InvitationUsed);
      }
      invitations := invitations[i.id := i];
      err := None;
    }

    method AcceptLocked(id: string, tenantID: string, principal: string, now: nat) returns (err: Option<A.AuthError>)
      modifies this
      ensures (State(), err) == A.Accept(old(State()), id, tenantID, principal, now)
    {
      if id !in invitations {
        return Some(A.InvitationMissing);
      }
      var i := invitations[id];
      if tenantID != "" && i.tenantID != tenantID {
        return Some(A.TenantDenied);
      }
      if principal != "" && i.principal != principal {
        return Some(A.PrincipalMismatch);
      }
      if i.accepted {
        return Some(A.InvitationUsed);
      }
      if i.expiresAt <= now {
        return Some(A.InvitationExpired);
      }
      members := members[A.MemberKey(i.tenantID, i.principal) :=
          A.Member(i.tenantID, i.principal, "", "", i.role, true, 0, 0, 0)];
      invitations := invitations[id := i.(accepted := true)];
      err := None;
    }

    method AcceptInvitation(id: string, now: nat) returns (err: Option<A.AuthError>)
      modifies this
      ensures (State(), err) == A.Perform(sv, old(State()), A.AcceptInvitation(id), now)
      ensures A.Kept(sv, old(State()), State(), true)
    {
      A.PerformKeeps(sv, State(), A.AcceptInvitation(id), now);
      err := AcceptLocked(id, "", "", now);
    }

    method AcceptInvitationFor(actor: A.Request, id: string, now: nat) returns (err: Option<A.AuthError>)
      modifies this
      ensures (State(), err) == A.Perform(sv, old(State()), A.AcceptInvitationFor(actor, id), now)
      ensures A.Kept(sv, old(State()), State(), true)
    {
      A.PerformKeeps(sv, State(), A.AcceptInvitationFor(actor, id), now);
      if actor.tenantID == "" || actor.principal == "" {
        return Some(A.TenantDenied);
      }
      err := AcceptLocked(id, actor.tenantID, actor.principal, now);
    }

    method RegisterSession(session: A.Session, now: nat) returns (err: Option<A.AuthError>)
      modifies this
      ensures (State(), err) == A.Perform(sv, old(State()), A.RegisterSession(session), now)
      ensures A.Kept(sv, old(State()), State(), A.EmergencyFits(session))
    {
      A.PerformKeeps(sv, State(), A.RegisterSession(session), now);
      if session.id == "" || session.tenantID == "" || session.principal == "" {
        return Some(A.SessionMissing);
      }
      if session.expiresAt <= now {
        return Some(A.SessionExpired);
      }
      sessions := sessions[session.id := session.(revoked := false)];
      err := None;
    }

    method RevokeSession(id: string, now: nat) returns (err: Option<A.AuthError>)
      modifies this
      ensures (State(), err) == A.Perform(sv, old(State()), A.RevokeSession(id), now)
      ensures A.Kept(sv, old(State()), State(), true)
    {
      A.PerformKeeps(sv, State(), A.RevokeSession(id), now);
      if id !in sessions {
        return Some(A.SessionMissing);
      }
      sessions := sessions[id := sessions[id].(revoked := true)];
      err := None;
    }

    method ElevateSession(id: string, until: int, now: nat) returns (err: Option<A.AuthError>)
      modifies this
      ensures (State(), err) == A.Perform(sv, old(State()), A.ElevateSession(id, until), now)
      ensures A.Kept(sv, old(State()), State(), true)
    {
      A.PerformKeeps(sv, State(), A.ElevateSession(id, until), now);
      if id !in sessions {
        return Some(A.SessionMissing);
      }
      if sessions[id].revoked {
        return Some(A.SessionRevoked);
      }
      if until <= now || sessions[id].expiresAt <= until {
        return Some(A.SessionExpired);
      }
      sessions := sessions[id := sessions[id].(stepUpUntil := until)];
      err := None;
    }

    /** appendDecisionLocked */
    method AppendDecision(record: L.Record)
      modifies this`decisions
      ensures decisions == L.Append(sv, old(decisions), record)
    {
      var sealed := record.(previousHash := "");
      if |decisions| > 0 {
        sealed := record.(previousHash := decisions[|decisions| - 1].hash);
      }
      decisions := decisions + [L.Decision(sealed, L.HashOf(sv, sealed))];
    }

    /** The switch over a named session at the head of Authorize. */
    method CheckSession(r: A.Request, now: nat) returns (err: Option<A.AuthError>)
      ensures err == A.SessionVerdict(State(), r, now)
      ensures err.None? && r.sessionID != "" ==> r.sessionID in sessions
    {
      err := None;
      if r.sessionID != "" {
        if r.sessionID !in sessions {
          err := Some(A.SessionMissing);
        } else if sessions[r.sessionID].revoked {
          err := Some(A.SessionRevoked);
        } else if sessions[r.sessionID].expiresAt <= now {
          err := Some(A.SessionExpired);
        } else if sessions[r.sessionID].tenantID != r.tenantID || sessions[r.sessionID].principal != r.principal {
          err := Some(A.TenantDenied);
        }
      }
    }

    method Authorize(r: A.Request, now: nat) returns (err: Option<A.AuthError>)
      modifies this`decisions
      ensures (State(), err) == A.Perform(sv, old(State()), A.Authorize(r), now)
      ensures A.Kept(sv, old(State()), State(), true)
    {
      hide A.RoleAllows, A.HighRisk, A.ErrorText, L.Append, A.MapsFit, L.Verifies;
      A.PerformKeeps(sv, State(), A.Authorize(r), now);
      var key := A.MemberKey(r.tenantID, r.principal);
      err := CheckSession(r, now);
      if err.None? {
        if key !in members {
          err := Some(A.TenantDenied);
        } else if !members[key].active {
          err := Some(A.MembershipRevoked);
        } else if !A.RoleAllows(members[key].role, r.capability) {
          err := Some(A.CapabilityDenied);
        } else if A.HighRisk(r.capability) && (r.sessionID == "" ||
                  (sessions[r.sessionID].stepUpUntil <= now && sessions[r.sessionID].emergencyUntil <= now)) {
          err := Some(A.StepUpRequired);
        }
      }
      AppendDecision(L.Record(now, r.tenantID, r.principal, r.capability, err.None?,
                              if err.Some? then A.ErrorText(err.value) else "", ""));
    }

    /** The part of GrantEmergencyAccess after the authorization, with the time it has read. Other
        operations may come between the two. */
    method GrantAuthorized(actor: A.Request, id: string, reason: string, until: int, now: nat)
      returns (err: Option<A.AuthError>)
      modifies this
      ensures (State(), err) == A.Perform(sv, old(State()), A.GrantAuthorized(actor, id, reason, until), now)
      ensures A.Kept(sv, old(State()), State(), true)
    {
      A.PerformKeeps(sv, State(), A.GrantAuthorized(actor, id, reason, until), now);
      var text := sv.redact(TrimSpace(reason));
      if ByteLength(text) < 8 || ByteLength(text) > 256 || !A.OneLine(text) || until <= now ||
          until > now + A.MINUTES_30 {
        return Some(A.EmergencyInvalid);
      }
      if id !in sessions {
        return Some(A.SessionMissing);
      }
      var session := sessions[id];
      if session.tenantID != actor.tenantID {
        return Some(A.TenantDenied);
      }
      if session.revoked {
        return Some(A.SessionRevoked);
      }
      if session.expiresAt <= until {
        return Some(A.SessionExpired);
      }
      sessions := sessions[id := session.(emergencyUntil := until, emergencyReason := text)];
      AppendDecision(L.Record(now, session.tenantID, session.principal, A.EMERGENCY_ACCESS, true,
                              "emergency access granted: " + text, ""));
      err := None;
    }

    /** The part of RevokeEmergencyAccess after the authorization, with the time it has read. */
    method RevokeAuthorized(actor: A.Request, id: string, now: nat) returns (err: Option<A.AuthError>)
      modifies this
      ensures (State(), err) == A.Perform(sv, old(State()), A.RevokeAuthorized(actor, id), now)
      ensures A.Kept(sv, old(State()), State(), true)
    {
      A.PerformKeeps(sv, State(), A.RevokeAuthorized(actor, id), now);
      if id !in sessions {
        return Some(A.SessionMissing);
      }
      var session := sessions[id];
      if session.tenantID != actor.tenantID {
        return Some(A.TenantDenied);
      }
      sessions := sessions[id := session.(emergencyUntil := 0, emergencyReason := "")];
      AppendDecision(L.Record(now, session.tenantID, session.principal, A.EMERGENCY_ACCESS, false,
                              "emergency access revoked", ""));
      err := None;
    }

    /** The whole call when nothing comes between its critical sections: authorized at `now`, granted
        at `later`. */
    method GrantEmergencyAccess(actor: A.Request, id: string, reason: string, until: int, now: nat, later: nat)
      returns (err: Option<A.AuthError>)
      modifies this
      ensures var request := actor.(capability := A.EMERGENCY_ACCESS);
        var (asked, denied) := A.Perform(sv, old(State()), A.Authorize(request), now);
        (State(), err) == if denied.Some? then (asked, denied)
                          else A.Perform(sv, asked, A.GrantAuthorized(request, id, reason, until), later)
      ensures A.Kept(sv, old(State()), State(), true)
    {
      hide A.Perform, A.Kept;
      var request := actor.(capability := A.EMERGENCY_ACCESS);
      err := Authorize(request, now);
      if err.Some? {
        return;
      }
      ghost var asked := State();
      err := GrantAuthorized(request, id, reason, until, later);
      KeptOn(sv, old(State()), asked, State());
    }

    method RevokeEmergencyAccess(actor: A.Request, id: string, now: nat, later: nat) returns (err: Option<A.AuthError>)
      modifies this
      ensures var request := actor.(capability := A.EMERGENCY_ACCESS);
        var (asked, denied) := A.Perform(sv, old(State()), A.Authorize(request), now);
        (State(), err) == if denied.Some? then (asked, denied)
                          else A.Perform(sv, asked, A.RevokeAuthorized(request, id), later)
      ensures A.Kept(sv, old(State()), State(), true)
    {
      hide A.Perform, A.Kept;
      var request := actor.(capability := A.EMERGENCY_ACCESS);
      err := Authorize(request, now);
      if err.Some? {
        return;
      }
      ghost var asked := State();
      err := RevokeAuthorized(request, id, later);
      KeptOn(sv, old(State()), asked, State());
    }

    method RevokeMember(tenantID: string, principal: string, now: nat) returns (err: Option<A.AuthError>)
      modifies this
      ensures (State(), err) == A.Perform(sv, old(State()), A.RevokeMember(tenantID, principal), now)
      ensures A.Kept(sv, old(State()), State(), true)
    {
      A.PerformKeeps(sv, State(), A.RevokeMember(tenantID, principal), now);
      var key := A.MemberKey(tenantID, principal);
      if key !in members {
        return Some(A.TenantDenied);
      }
      members := members[key := members[key].(active := false)];
      err := None;
    }

    method ProvisionMember(op: A.Operation, now: nat) returns (err: Option<A.AuthError>)
      requires op.ProvisionMember?
      modifies this
      ensures (State(), err) == A.Perform(sv, old(State()), op, now)
      ensures A.Kept(sv, old(State()), State(), true)
    {
      hide A.Provisionable, A.MemberKey, A.Kept, L.Append;
      A.PerformKeeps(sv, State(), op, now);
      if !A.Provisionable(op) {
        return Some(A.TenantDenied);
      }
      var key := A.MemberKey(op.tenantID, op.principal);
      var created, revision := 0, 0;
      if key in members {
        created, revision := members[key].provisionedAt, members[key].revision;
      }
      if op.expected.Some? && (key !in members || revision != op.expected.value) {
        return Some(A.RevisionConflict);
      }
      if created == 0 {
        created := now;
      }
      revision := (revision + 1) % 0x1_0000_0000_0000_0000;
      members := members[key := A.Member(op.tenantID, op.principal, op.externalID, op.displayName, op.role, op.active,
          created, now, revision)];
      AppendDecision(L.Record(now, op.tenantID, op.provisioner, A.ADMINISTRATION, op.active,
          "SCIM membership synchronized", ""));
      err := None;
    }

    method UpdateMemberRole(tenantID: string, principal: string, role: A.Role, now: nat)
        returns (err: Option<A.AuthError>)
      modifies this
      ensures (State(), err) == A.Perform(sv, old(State()), A.UpdateMemberRole(tenantID, principal, role), now)
      ensures A.Kept(sv, old(State()), State(), true)
    {
      A.PerformKeeps(sv, State(), A.UpdateMemberRole(tenantID, principal, role), now);
      if !A.ValidRole(role) {
        return Some(A.InvalidRole);
      }
      var key := A.MemberKey(tenantID, principal);
      if key !in members {
        return Some(A.TenantDenied);
      }
      members := members[key := members[key].(role := role)];
      err := None;
    }

    method Snapshot() returns (snapshot: S.Snapshot)
      ensures S.IsSnapshot(State(), snapshot)
    {
      OrdersRank();
      var memberList := Listing(members, S.MemberBefore);
      var invitationList := Listing(invitations, S.InvitationBefore);
      var sessionList := Listing(sessions, S.SessionBefore);
      snapshot := S.Snapshot(memberList, invitationList, sessionList, decisions);
    }
  }

  lemma NextHash(decisions: seq<L.Decision>, i: nat)
    requires i < |decisions|
    ensures L.LastHash(decisions[..i + 1]) == decisions[i].hash
  {
  }

  lemma NoHashYet(decisions: seq<L.Decision>)
    ensures L.LastHash(decisions[..0]) == ""
  {
    assert decisions[..0] == [];
  }

  /** VerifyDecisions accepts exactly the logs whose chain holds. */
  method VerifyDecisions(sv: L.Services, decisions: seq<L.Decision>) returns (err: Option<A.AuthError>)
    ensures err == if L.Verifies(sv, decisions) then None else Some(A.AuditTampered)
  {
    hide L.HashOf, L.LastHash;
    var previous := "";
    NoHashYet(decisions);
    for i := 0 to |decisions|
      invariant previous == L.LastHash(decisions[..i])
      invariant forall j: nat | j < i :: L.LinkedAt(sv, decisions, j)
    {
      if decisions[i].record.previousHash != previous || decisions[i].hash != L.HashOf(sv, decisions[i].record) {
        assert !L.LinkedAt(sv, decisions, i);
        return Some(A.AuditTampered);
      }
      NextHash(decisions, i);
      previous := decisions[i].hash;
    }
    err := None;
  }

  /** One loop of NewPolicyFromSnapshot. */
  method LoadAll<T>(values: seq<T>, key: T -> string, check: T -> Option<A.AuthError>, duplicate: A.AuthError)
    returns (r: Result<map<string, T>, A.AuthError>)
    ensures r == S.Load(values, key, check, duplicate, map[])
  {
    var loaded: map<string, T> := map[];
    for i := 0 to |values|
      invariant S.Load(values, key, check, duplicate, map[]) == S.Load(values[i..], key, check, duplicate, loaded)
    {
      var bad := check(values[i]);
      if bad.Some? {
        return Err(bad.value);
      }
      if key(values[i]) in loaded {
        return Err(duplicate);
      }
      assert values[i..][0] == values[i] && values[i..][1..] == values[i + 1..];
      loaded := loaded[key(values[i]) := values[i]];
    }
    r := Ok(loaded);
  }

  method NewPolicyFromSnapshot(sv: L.Services, snapshot: S.Snapshot) returns (r: Result<A.State, A.AuthError>)
    ensures r == S.Reload(sv, snapshot)
  {
    var err := VerifyDecisions(sv, snapshot.decisions);
    if err.Some? {
      return Err(err.value);
    }
    var members := LoadAll(snapshot.members, S.KeyOfMember, S.CheckMember, A.TenantDenied);
    if members.Err? {
      return Err(members.error);
    }
    var invitations := LoadAll(snapshot.invitations, S.KeyOfInvitation, S.CheckInvitation, A.InvitationUsed);
    if invitations.Err? {
      return Err(invitations.error);
    }
    var sessions := LoadAll(snapshot.sessions, S.KeyOfSession, S.CheckSession, A.SessionMissing);
    if sessions.Err? {
      return Err(sessions.error);
    }
    r := Ok(A.State(members.value, invitations.value, sessions.value, snapshot.decisions));
  }
}
