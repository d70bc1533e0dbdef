/** Saving and reloading a policy (internal/authorization/snapshot.go). */
module PolicySnapshot {
  import opened Prelude
  import opened Ordering
  import opened AuditLog
  import opened Authorization

  datatype Snapshot = Snapshot(
    members: seq<Member>, invitations: seq<Invitation>, sessions: seq<Session>, decisions: seq<Decision>)

  predicate MemberBefore(a: Member, b: Member) {
    Less(a.tenantID, b.tenantID) || (a.tenantID == b.tenantID && Less(a.principal, b.principal))
  }

  predicate InvitationBefore(a: Invitation, b: Invitation) { Less(a.id, b.id) }

  predicate SessionBefore(a: Session, b: Session) { Less(a.id, b.id) }

  function ByValue<T>(before: (T, T) -> bool): ((string, T), (string, T)) -> bool {
    (a: (string, T), b: (string, T)) => before(a.1, b.1)
  }

  lemma ByValueRanks<T(!new)>(before: (T, T) -> bool)
    requires Ranks(before)
    ensures Ranks(ByValue(before))
  {
    var ranked := ByValue(before);
    forall a: (string, T), b: (string, T)
      ensures ranked(a, b) == before(a.1, b.1)
    {
    }
  }

  function Values<T>(entries: seq<(string, T)>): (values: seq<T>)
    ensures |values| == |entries| && forall i :: 0 <= i < |entries| ==> values[i] == entries[i].1
  {
    seq(|entries|, i requires 0 <= i < |entries| => entries[i].1)
  }

  /** The entries are those of the map, each once, in some order. */
  ghost predicate Enumerates<T(!new)>(entries: seq<(string, T)>, m: map<string, T>) {
    multiset(entries) == multiset(m.Items)
  }

  /** `values` lists the values of the map in the given order. */
  ghost predicate Lists<T(!new)>(values: seq<T>, m: map<string, T>, before: (T, T) -> bool) {
    exists entries :: Enumerates(entries, m) && Sorted(entries, ByValue(before)) && values == Values(entries)
  }

  ghost predicate IsSnapshot(s: State, snapshot: Snapshot) {
    && Lists(snapshot.members, s.members, MemberBefore)
    && Lists(snapshot.invitations, s.invitations, InvitationBefore)
    && Lists(snapshot.sessions, s.sessions, SessionBefore)
    && snapshot.decisions == s.decisions
  }

  // ------------------------------------------------------------ loading

  function CheckMember(m: Member): Option<AuthError> {
    if WellFormedMember(m) then None else Some(TenantDenied)
  }

  function CheckInvitation(i: Invitation): Option<AuthError> {
    if WellFormedInvitation(i) then None else Some(InvitationMissing)
  }

  function CheckSession(s: Session): Option<AuthError> {
    if s.id == "" || s.tenantID == "" || s.principal == "" then Some(SessionMissing)
    else if !EmergencyFits(s) then Some(EmergencyInvalid)
    else None
  }

  function KeyOfMember(m: Member): string { MemberKey(m.tenantID, m.principal) }

  function KeyOfInvitation(i: Invitation): string { i.id }

  function KeyOfSession(s: Session): string { s.id }

  /** Fills a map from a list, up to the first malformed or repeated record. */
  function Load<T>(values: seq<T>, key: T -> string, check: T -> Option<AuthError>, duplicate: AuthError,
      acc: map<string, T>)
    : Result<map<string, T>, AuthError>
    decreases |values|
  {
    if values == [] then Ok(acc)
    else if check(values[0]).Some? then Err(check(values[0]).value)
    else if key(values[0]) in acc then Err(duplicate)
    else Load(values[1..], key, check, duplicate, acc[key(values[0]) := values[0]])
  }

  /** NewPolicyFromSnapshot, which verifies the chain first. */
  ghost function Reload(sv: Services, snapshot: Snapshot): Result<State, AuthError> {
    if !Verifies(sv, snapshot.decisions) then Err(AuditTampered)
    else
      match Load(snapshot.members, KeyOfMember, CheckMember, TenantDenied, map[])
      case Err(e) => Err(e)
      case Ok(members) =>
        match Load(snapshot.invitations, KeyOfInvitation, CheckInvitation, InvitationUsed, map[])
        case Err(e) => Err(e)
        case Ok(invitations) =>
          match Load(snapshot.sessions, KeyOfSession, CheckSession, SessionMissing, map[])
          case Err(e) => Err(e)
          case Ok(sessions) => Ok(State(members, invitations, sessions, snapshot.decisions))
  }

  /** What a load that succeeds has found. */
  lemma {:induction false} LoadFinds<T>(values: seq<T>, key: T -> string, check: T -> Option<AuthError>,
      duplicate: AuthError, acc: map<string, T>)
    requires Load(values, key, check, duplicate, acc).Ok?
    ensures var m := Load(values, key, check, duplicate, acc).value;
      && (forall k :: k in m && k !in acc ==>
          exists i :: 0 <= i < |values| && key(values[i]) == k && values[i] == m[k] && check(values[i]).None?)
      && (forall k :: k in acc ==> k in m && m[k] == acc[k])
    decreases |values|
  {
    if values != [] {
      var k0 := key(values[0]);
      LoadFinds(values[1..], key, check, duplicate, acc[k0 := values[0]]);
      var m := Load(values, key, check, duplicate, acc).value;
      forall k | k in m && k !in acc
        ensures exists i :: 0 <= i < |values| && key(values[i]) == k && values[i] == m[k] && check(values[i]).None?
      {
        if k != k0 {
          var i :| 0 <= i < |values[1..]| && key(values[1..][i]) == k && values[1..][i] == m[k] &&
              check(values[1..][i]).None?;
          assert values[i + 1] == values[1..][i];
        }
      }
    }
  }

  lemma {:induction false} LoadSucceeds<T>(entries: seq<(string, T)>, key: T -> string, check: T -> Option<AuthError>,
      duplicate: AuthError, acc: map<string, T>, m: map<string, T>)
    requires forall i :: 0 <= i < |entries| ==>
      key(entries[i].1) == entries[i].0 && check(entries[i].1).None? && entries[i].0 !in acc && entries[i].0 in m &&
          m[entries[i].0] == entries[i].1
    requires forall i, j :: 0 <= i < j < |entries| ==> entries[i].0 != entries[j].0
    requires forall k :: k in m <==> k in acc || exists i :: 0 <= i < |entries| && entries[i].0 == k
    requires forall k :: k in acc ==> k in m && m[k] == acc[k]
    ensures Load(Values(entries), key, check, duplicate, acc) == Ok(m)
    decreases |entries|
  {
    if entries == [] {
      assert acc == m;
    } else {
      var next := acc[entries[0].0 := entries[0].1];
      assert Values(entries)[1..] == Values(entries[1..]);
      forall k
        ensures k in m <==> k in next || exists i :: 0 <= i < |entries[1..]| && entries[1..][i].0 == k
      {
        if k in m && k !in next {
          var i :| 0 <= i < |entries| && entries[i].0 == k;
          assert entries[1..][i - 1].0 == k;
        }
      }
      LoadSucceeds(entries[1..], key, check, duplicate, next, m);
    }
  }

  lemma CountedOnce<T(!new)>(entries: seq<(string, T)>, m: map<string, T>)
    requires Enumerates(entries, m)
    ensures forall i :: 0 <= i < |entries| ==> entries[i].0 in m && m[entries[i].0] == entries[i].1
    ensures forall i, j :: 0 <= i < j < |entries| ==> entries[i].0 != entries[j].0
    ensures forall k :: k in m ==> exists i :: 0 <= i < |entries| && entries[i].0 == k
  {
    forall i | 0 <= i < |entries|
      ensures entries[i] in m.Items
    {
      assert entries[i] in multiset(entries);
    }
    forall i, j | 0 <= i < j < |entries|
      ensures entries[i].0 != entries[j].0
    {
      if entries[i] == entries[j] {
        RepeatedCountsTwice(entries, i, j);
      }
    }
    forall k | k in m
      ensures exists i :: 0 <= i < |entries| && entries[i].0 == k
    {
      assert (k, m[k]) in multiset(entries);
      var i :| 0 <= i < |entries| && entries[i] == (k, m[k]);
    }
  }

  /** Every key matches its record and every record is well formed. */
  ghost predicate KeysMatch<T(!new)>(m: map<string, T>, key: T -> string, check: T -> Option<AuthError>) {
    forall k :: k in m ==> key(m[k]) == k && check(m[k]).None?
  }

  lemma MatchingLoads<T(!new)>(values: seq<T>, m: map<string, T>, before: (T, T) -> bool, key: T -> string,
      check: T -> Option<AuthError>, duplicate: AuthError)
    requires Lists(values, m, before) && KeysMatch(m, key, check)
    ensures Load(values, key, check, duplicate, map[]) == Ok(m)
  {
    hide Load, Sorted;
    var entries :| Enumerates(entries, m) && Sorted(entries, ByValue(before)) && values == Values(entries);
    CountedOnce(entries, m);
    LoadSucceeds(entries, key, check, duplicate, map[], m);
  }

  lemma LoadedMatches<T(!new)>(values: seq<T>, m: map<string, T>, key: T -> string, check: T -> Option<AuthError>,
      duplicate: AuthError)
    requires Load(values, key, check, duplicate, map[]) == Ok(m)
    ensures KeysMatch(m, key, check)
  {
    hide Load;
    LoadFinds(values, key, check, duplicate, map[]);
  }

  /** Loading a listing of a map gives the map back exactly when every key matches its record and
      every record is well formed. */
  lemma LoadReturnsIff<T(!new)>(values: seq<T>, m: map<string, T>, before: (T, T) -> bool, key: T -> string,
      check: T -> Option<AuthError>, duplicate: AuthError)
    requires Lists(values, m, before)
    ensures Load(values, key, check, duplicate, map[]) == Ok(m) <==> KeysMatch(m, key, check)
  {
    hide Load, KeysMatch;
    if KeysMatch(m, key, check) {
      MatchingLoads(values, m, before, key, check, duplicate);
    }
    if Load(values, key, check, duplicate, map[]) == Ok(m) {
      LoadedMatches(values, m, key, check, duplicate);
    }
  }

  /** Reloading succeeds with this policy exactly when the chain verifies and each list loads as its
      map. */
  lemma ReloadIsThreeLoads(sv: Services, s: State, snapshot: Snapshot)
    requires snapshot.decisions == s.decisions
    ensures Reload(sv, snapshot) == Ok(s) <==>
      && Verifies(sv, s.decisions)
      && Load(snapshot.members, KeyOfMember, CheckMember, TenantDenied, map[]) == Ok(s.members)
      && Load(snapshot.invitations, KeyOfInvitation, CheckInvitation, InvitationUsed, map[]) == Ok(s.invitations)
      && Load(snapshot.sessions, KeyOfSession, CheckSession, SessionMissing, map[]) == Ok(s.sessions)
  {
    hide Load, Verifies;
  }

  lemma FitIsChecked(s: State)
    ensures MembersFit(s.members) <==> KeysMatch(s.members, KeyOfMember, CheckMember)
    ensures InvitationsFit(s.invitations) <==> KeysMatch(s.invitations, KeyOfInvitation, CheckInvitation)
    ensures SessionsFit(s.sessions) <==> KeysMatch(s.sessions, KeyOfSession, CheckSession)
  {
  }

  /** A saved policy reloads as the same policy exactly when it is reloadable. */
  lemma ReloadReturnsIff(sv: Services, s: State, snapshot: Snapshot)
    requires IsSnapshot(s, snapshot)
    ensures Reload(sv, snapshot) == Ok(s) <==> Reloadable(sv, s)
  {
    hide Load, Reload, MembersFit, InvitationsFit, SessionsFit, Lists, Verifies, KeysMatch;
    ReloadIsThreeLoads(sv, s, snapshot);
    FitIsChecked(s);
    LoadReturnsIff(snapshot.members, s.members, MemberBefore, KeyOfMember, CheckMember, TenantDenied);
    LoadReturnsIff(snapshot.invitations, s.invitations, InvitationBefore, KeyOfInvitation, CheckInvitation,
        InvitationUsed);
    LoadReturnsIff(snapshot.sessions, s.sessions, SessionBefore, KeyOfSession, CheckSession, SessionMissing);
  }

  /** A policy reached from well-formed members by any operations, its sessions registered with
      fitting emergency fields, reloads from its snapshot as itself. */
  lemma EveryRunReloads(sv: Services, members: seq<Member>, ops: seq<Timed>, snapshot: Snapshot)
    requires forall m :: m in members ==> WellFormedMember(m)
    requires forall t :: t in ops && t.op.RegisterSession? ==> EmergencyFits(t.op.session)
    requires IsSnapshot(PerformAll(sv, State(FromMembers(members), map[], map[], []), ops), snapshot)
    ensures Reload(sv, snapshot) == Ok(PerformAll(sv, State(FromMembers(members), map[], map[], []), ops))
  {
    InitialIsReloadable(sv, members);
    EveryRunKeeps(sv, State(FromMembers(members), map[], map[], []), ops);
    ReloadReturnsIff(sv, PerformAll(sv, State(FromMembers(members), map[], map[], []), ops), snapshot);
  }

  // ------------------------------------------------------------ one snapshot per policy

  lemma ListingIsUnique<T(!new)>(a: seq<T>, b: seq<T>, m: map<string, T>, before: (T, T) -> bool)
    requires Lists(a, m, before) && Lists(b, m, before)
    requires forall j, k :: j in m && k in m && j != k ==> before(m[j], m[k]) || before(m[k], m[j])
    ensures a == b
  {
    var x :| Enumerates(x, m) && Sorted(x, ByValue(before)) && a == Values(x);
    var y :| Enumerates(y, m) && Sorted(y, ByValue(before)) && b == Values(y);
    SortedIsUnique(x, y, ByValue(before));
  }

  /** The snapshot of a reloadable policy does not depend on the order Go iterates its maps in. */
  lemma SnapshotIsCanonical(sv: Services, s: State, a: Snapshot, b: Snapshot)
    requires Reloadable(sv, s) && IsSnapshot(s, a) && IsSnapshot(s, b)
    ensures a == b
  {
    forall j, k | j in s.members && k in s.members && j != k
      ensures MemberBefore(s.members[j], s.members[k]) || MemberBefore(s.members[k], s.members[j])
    {
      LessIsTotal(s.members[j].tenantID, s.members[k].tenantID);
      LessIsTotal(s.members[j].principal, s.members[k].principal);
    }
    forall j: string, k: string | j != k
      ensures Less(j, k) || Less(k, j)
    {
      LessIsTotal(j, k);
    }
    ListingIsUnique(a.members, b.members, s.members, MemberBefore);
    ListingIsUnique(a.invitations, b.invitations, s.invitations, InvitationBefore);
    ListingIsUnique(a.sessions, b.sessions, s.sessions, SessionBefore);
  }
}
