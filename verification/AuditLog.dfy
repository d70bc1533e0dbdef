/**
 The hash-chained log of decisions (internal/authorization/policy.go). A decision's hash is the
 digest of one text in which the decision's fields are joined by NUL characters, unescaped: what the
 chain protects depends on which fields may hold a NUL themselves.
 */
module AuditLog {

  const NUL := '\U{0}'

  /** What a decision's hash covers. */
  datatype Record = Record(
    at: int, tenantID: string, principal: string, capability: string, allowed: bool,
    reason: string, previousHash: string)

  datatype Decision = Decision(record: Record, hash: string)

  /** The hexadecimal digest of a text, the text of an instant, and the redaction of a free text. */
  datatype Services = Services(digest: string -> string, stamp: int -> string, redact: string -> string)

  predicate NoNul(s: string) { NUL !in s }

  function Field(text: string, rest: string): string { text + [NUL] + rest }

  function Flag(b: bool): string { if b then "true" else "false" }

  /** The text that is hashed. */
  function Material(sv: Services, r: Record): string {
    Field(sv.stamp(r.at),
          Field(r.tenantID,
                Field(r.principal,
                      Field(r.capability,
                            Field(Flag(r.allowed),
                                  Field(r.reason, r.previousHash))))))
  }

  function Digest(sv: Services, text: string): string { sv.digest(text) }

  function Stamp(sv: Services, at: int): string { sv.stamp(at) }

  function HashOf(sv: Services, r: Record): string { Digest(sv, Material(sv, r)) }

  /** An ideal digest: collision-free, never empty, and a hexadecimal text, so free of NULs; instants
      have different texts, free of NULs. */
  ghost predicate Ideal(sv: Services) {
    && (forall a, b :: Digest(sv, a) == Digest(sv, b) ==> a == b)
    && (forall a :: Digest(sv, a) != "" && NoNul(Digest(sv, a)))
    && (forall a, b :: Stamp(sv, a) == Stamp(sv, b) ==> a == b)
    && (forall a :: NoNul(Stamp(sv, a)))
  }

  // ------------------------------------------------------------ the chain

  function LastHash(decisions: seq<Decision>): string {
    if decisions == [] then "" else decisions[|decisions| - 1].hash
  }

  function Append(sv: Services, decisions: seq<Decision>, record: Record): seq<Decision> {
    var sealed := record.(previousHash := LastHash(decisions));
    decisions + [Decision(sealed, HashOf(sv, sealed))]
  }

  /** A decision carries its own hash and the given hash of the decision before it. */
  predicate Linked(sv: Services, d: Decision, previous: string) {
    d.record.previousHash == previous && d.hash == HashOf(sv, d.record)
  }

  predicate LinkedAt(sv: Services, decisions: seq<Decision>, i: nat)
    requires i < |decisions|
  {
    Linked(sv, decisions[i], LastHash(decisions[..i]))
  }

  ghost predicate Verifies(sv: Services, decisions: seq<Decision>) {
    forall i: nat | i < |decisions| :: LinkedAt(sv, decisions, i)
  }

  lemma AppendKeepsChain(sv: Services, decisions: seq<Decision>, record: Record)
    requires Verifies(sv, decisions)
    ensures Verifies(sv, Append(sv, decisions, record))
    ensures decisions <= Append(sv, decisions, record)
  {
    var longer := Append(sv, decisions, record);
    forall i: nat | i < |longer|
      ensures LinkedAt(sv, longer, i)
    {
      assert longer[..i] == decisions[..i];
      assert i < |decisions| ==> LinkedAt(sv, decisions, i);
    }
  }

  ghost predicate ChainGrows(sv: Services, before: seq<Decision>, after: seq<Decision>) {
    Verifies(sv, after) && before <= after
  }

  lemma AppendGrows(sv: Services, decisions: seq<Decision>)
    requires Verifies(sv, decisions)
    ensures forall record :: ChainGrows(sv, decisions, Append(sv, decisions, record))
  {
    forall record
      ensures ChainGrows(sv, decisions, Append(sv, decisions, record))
    {
      AppendKeepsChain(sv, decisions, record);
    }
  }

  lemma ChainPrefix(sv: Services, decisions: seq<Decision>)
    requires Verifies(sv, decisions) && decisions != []
    ensures var n := |decisions| - 1;
      Verifies(sv, decisions[..n]) && Linked(sv, decisions[n], LastHash(decisions[..n]))
  {
    var n := |decisions| - 1;
    forall i: nat | i < n
      ensures LinkedAt(sv, decisions[..n], i)
    {
      assert LinkedAt(sv, decisions, i) && decisions[..n][..i] == decisions[..i];
    }
    assert LinkedAt(sv, decisions, n);
  }

  // ------------------------------------------------------------ reading the joined text back

  /** What stands between the NULs of a text. */
  function Pieces(s: string): (pieces: seq<string>)
    ensures pieces != []
  {
    if s == "" then [""]
    else
      var rest := Pieces(s[1..]);
      if s[0] == NUL then [""] + rest else [[s[0]] + rest[0]] + rest[1..]
  }

  function Join(pieces: seq<string>): string
    requires pieces != []
  {
    if |pieces| == 1 then pieces[0] else Field(pieces[0], Join(pieces[1..]))
  }

  lemma {:induction false} JoinPieces(s: string)
    ensures Join(Pieces(s)) == s
  {
    if s != "" {
      var rest := Pieces(s[1..]);
      JoinPieces(s[1..]);
      assert s == [s[0]] + s[1..];
      if s[0] == NUL {
        assert Pieces(s)[1..] == rest;
        assert Field("", s[1..]) == s;
      } else {
        assert Pieces(s)[1..] == rest[1..];
        assert |rest| > 1 ==> Field([s[0]] + rest[0], Join(rest[1..])) == [s[0]] + Field(rest[0], Join(rest[1..]));
      }
    }
  }

  lemma FieldAssociates(a: string, b: string, rest: string)
    ensures Field(Field(a, b), rest) == Field(a, Field(b, rest))
  {
  }

  lemma {:induction false} JoinConcat(a: seq<string>, b: seq<string>)
    requires a != [] && b != []
    ensures Join(a + b) == Field(Join(a), Join(b))
  {
    if |a| == 1 {
      assert (a + b)[1..] == b;
    } else {
      assert (a + b)[1..] == a[1..] + b;
      JoinConcat(a[1..], b);
      FieldAssociates(a[0], Join(a[1..]), Join(b));
    }
  }

  lemma {:induction false} PiecesField(a: string, b: string)
    ensures Pieces(Field(a, b)) == Pieces(a) + Pieces(b)
  {
    var text := Field(a, b);
    if a == "" {
      assert text == [NUL] + b && text[1..] == b;
    } else {
      assert text[0] == a[0] && text[1..] == Field(a[1..], b);
      PiecesField(a[1..], b);
    }
  }

  lemma {:induction false} PlainPieces(s: string)
    ensures NoNul(s) <==> |Pieces(s)| == 1
    ensures NoNul(s) ==> Pieces(s) == [s]
  {
    if s != "" {
      assert s == [s[0]] + s[1..];
      PlainPieces(s[1..]);
    }
  }

  lemma SamePieces(a: string, b: string)
    requires Pieces(a) == Pieces(b)
    ensures a == b
  {
    JoinPieces(a);
    JoinPieces(b);
  }

  /** The pieces of the fields before the flag, the instant left out. */
  function Head(r: Record): (pieces: seq<string>)
    ensures |pieces| >= 3
  {
    Pieces(r.tenantID) + Pieces(r.principal) + Pieces(r.capability)
  }

  lemma MaterialPieces(sv: Services, r: Record)
    requires Ideal(sv)
    ensures Pieces(Material(sv, r)) ==
            [Stamp(sv, r.at)] + Head(r) + [Flag(r.allowed)] + Pieces(r.reason) + Pieces(r.previousHash)
  {
    hide Pieces, Field;
    var e := Field(r.reason, r.previousHash);
    var d := Field(Flag(r.allowed), e);
    var c := Field(r.capability, d);
    var b := Field(r.principal, c);
    PiecesField(r.reason, r.previousHash);
    PiecesField(Flag(r.allowed), e);
    PiecesField(r.capability, d);
    PiecesField(r.principal, c);
    PiecesField(r.tenantID, b);
    PiecesField(sv.stamp(r.at), Field(r.tenantID, b));
    assert NoNul(Stamp(sv, r.at)) && NoNul(Flag(r.allowed));
    PlainPieces(Stamp(sv, r.at));
    PlainPieces(Flag(r.allowed));
  }

  predicate PlainReason(r: Record) { NoNul(r.reason) }

  /** A NUL where the boundaries between tenant, principal and capability can shift. */
  predicate Shifts(r: Record) { !(NoNul(r.tenantID) && NoNul(r.principal) && NoNul(r.capability)) }

  predicate IsFlag(piece: string) { piece == "true" || piece == "false" }

  /** A piece of the text, and not its last, can be taken for the flag. */
  predicate FlagInside(text: string) {
    var pieces := Pieces(text);
    exists j :: 0 <= j < |pieces| - 1 && IsFlag(pieces[j])
  }

  /** The record's text can be read as another record. */
  predicate Ambiguous(r: Record) { Shifts(r) || FlagInside(r.reason) }

  lemma PlainIsClear(r: Record)
    requires PlainReason(r)
    ensures Ambiguous(r) <==> Shifts(r)
  {
    PlainPieces(r.reason);
  }

  /** Where the identifiers hold no NUL, they are the head's pieces. */
  lemma HeadIsThree(r: Record)
    ensures |Head(r)| == 3 <==> !Shifts(r)
    ensures !Shifts(r) ==> Head(r) == [r.tenantID, r.principal, r.capability]
  {
    hide Pieces;
    PlainPieces(r.tenantID);
    PlainPieces(r.principal);
    PlainPieces(r.capability);
  }

  /** Another record with the same text, and a previous hash without NULs, has the same instant and
      previous hash, and its flag stands at a piece of the text. */
  lemma TwinAgrees(sv: Services, r: Record, q: Record)
    requires Ideal(sv) && Material(sv, r) == Material(sv, q) && NoNul(r.previousHash) && NoNul(q.previousHash)
    ensures r.at == q.at && r.previousHash == q.previousHash
    ensures Head(r) + [Flag(r.allowed)] + Pieces(r.reason) == Head(q) + [Flag(q.allowed)] + Pieces(q.reason)
  {
    hide Pieces, Head, Material;
    MaterialPieces(sv, r);
    MaterialPieces(sv, q);
    PlainPieces(r.previousHash);
    PlainPieces(q.previousHash);
    var all := Pieces(Material(sv, r));
    var a, b := Head(r) + [Flag(r.allowed)] + Pieces(r.reason), Head(q) + [Flag(q.allowed)] + Pieces(q.reason);
    assert all == [Stamp(sv, r.at)] + a + [r.previousHash] == [Stamp(sv, q.at)] + b + [q.previousHash];
    assert all[0] == Stamp(sv, r.at) == Stamp(sv, q.at);
    assert all[|all| - 1] == r.previousHash == q.previousHash;
    assert all[1..|all| - 1] == a == b;
  }

  lemma SameHead(r: Record, q: Record)
    requires !Shifts(r) && !Shifts(q) && r.at == q.at && r.previousHash == q.previousHash
    requires Head(r) + [Flag(r.allowed)] + Pieces(r.reason) == Head(q) + [Flag(q.allowed)] + Pieces(q.reason)
    ensures r == q
  {
    hide Pieces, Head;
    HeadIsThree(r);
    HeadIsThree(q);
    var a, b := Head(r) + [Flag(r.allowed)] + Pieces(r.reason), Head(q) + [Flag(q.allowed)] + Pieces(q.reason);
    assert a[0] == b[0] && a[1] == b[1] && a[2] == b[2] && a[3] == b[3];
    assert a[4..] == Pieces(r.reason) && b[4..] == Pieces(q.reason);
    SamePieces(r.reason, q.reason);
  }

  lemma TwinIsAmbiguous(sv: Services, r: Record, q: Record)
    requires Ideal(sv) && Material(sv, r) == Material(sv, q) && NoNul(r.previousHash) && NoNul(q.previousHash)
    requires q != r
    ensures Ambiguous(r)
  {
    hide Pieces, Head, Material, Shifts;
    if !Shifts(r) {
      TwinAgrees(sv, r, q);
      HeadIsThree(r);
      HeadIsThree(q);
      if !Shifts(q) {
        SameHead(r, q);
      } else {
        var a, k := Head(r) + [Flag(r.allowed)] + Pieces(r.reason), |Head(q)|;
        assert a[k] == Flag(q.allowed) && |Pieces(q.reason)| >= 1;
        assert a[k] == Pieces(r.reason)[k - 4];
      }
    }
  }

  // ------------------------------------------------------------ the other record

  function Index(s: string): (i: nat)
    requires !NoNul(s)
    ensures i < |s| && s[i] == NUL
  {
    if s[0] == NUL then 0
    else
      assert s == [s[0]] + s[1..];
      1 + Index(s[1..])
  }

  /** A boundary moved to a NUL inside an identifier. */
  function Shifted(r: Record): Record
    requires Shifts(r)
  {
    if !NoNul(r.tenantID) then
      var i := Index(r.tenantID);
      r.(tenantID := r.tenantID[..i], principal := Field(r.tenantID[i + 1..], r.principal))
    else if !NoNul(r.principal) then
      var i := Index(r.principal);
      r.(tenantID := Field(r.tenantID, r.principal[..i]), principal := r.principal[i + 1..])
    else
      var i := Index(r.capability);
      r.(principal := Field(r.principal, r.capability[..i]), capability := r.capability[i + 1..])
  }

  /** Two fields joined are three, and three are two, when a NUL stands at i. */
  lemma Rejoined(s: string, i: nat, rest: string)
    requires i < |s| && s[i] == NUL
    ensures Field(s, rest) == Field(s[..i], Field(s[i + 1..], rest))
  {
    assert s == s[..i] + [NUL] + s[i + 1..];
  }

  lemma ShiftedCollides(sv: Services, r: Record)
    requires Shifts(r)
    ensures Shifted(r) != r && Shifted(r).previousHash == r.previousHash
    ensures Material(sv, Shifted(r)) == Material(sv, r)
  {
    hide Field;
    var tail := Field(Flag(r.allowed), Field(r.reason, r.previousHash));
    var afterTenant := Field(r.principal, Field(r.capability, tail));
    if !NoNul(r.tenantID) {
      var i := Index(r.tenantID);
      Rejoined(r.tenantID, i, afterTenant);
      FieldAssociates(r.tenantID[i + 1..], r.principal, Field(r.capability, tail));
      assert |Shifted(r).tenantID| < |r.tenantID|;
    } else if !NoNul(r.principal) {
      var i := Index(r.principal);
      Rejoined(r.principal, i, Field(r.capability, tail));
      FieldAssociates(r.tenantID, r.principal[..i], Field(r.principal[i + 1..], Field(r.capability, tail)));
      assert |Shifted(r).principal| < |r.principal|;
    } else {
      var i := Index(r.capability);
      Rejoined(r.capability, i, tail);
      FieldAssociates(r.principal, r.capability[..i], Field(r.capability[i + 1..], tail));
      assert |Shifted(r).capability| < |r.capability|;
    }
  }

  /** The reason read up to a piece that can be taken for the flag, the old flag before it. */
  function Swallowed(r: Record, j: nat): string
    requires j < |Pieces(r.reason)|
  {
    if j == 0 then Field(r.capability, Flag(r.allowed))
    else Field(r.capability, Field(Flag(r.allowed), Join(Pieces(r.reason)[..j])))
  }

  /** The flag moved into the reason. */
  function Flagged(r: Record, j: nat): Record
    requires j < |Pieces(r.reason)| - 1
  {
    var pieces := Pieces(r.reason);
    r.(capability := Swallowed(r, j), allowed := pieces[j] == "true", reason := Join(pieces[j + 1..]))
  }

  /** A reason is what comes before such a piece, the piece, and what comes behind it. */
  lemma ReasonSplits(s: string, j: nat)
    requires j < |Pieces(s)| - 1
    ensures var pieces := Pieces(s);
      s == if j == 0 then Field(pieces[0], Join(pieces[1..]))
           else Field(Join(pieces[..j]), Field(pieces[j], Join(pieces[j + 1..])))
  {
    hide Pieces, Field;
    var pieces := Pieces(s);
    JoinPieces(s);
    if j > 0 {
      assert pieces == pieces[..j] + pieces[j..];
      JoinConcat(pieces[..j], pieces[j..]);
      assert pieces[j..][1..] == pieces[j + 1..];
    }
  }

  lemma Longer(r: Record, j: nat)
    requires j < |Pieces(r.reason)| - 1
    ensures |Swallowed(r, j)| > |r.capability|
  {
  }

  lemma FlaggedCollides(sv: Services, r: Record, j: nat)
    requires j < |Pieces(r.reason)| - 1 && IsFlag(Pieces(r.reason)[j])
    ensures Flagged(r, j) != r && Flagged(r, j).previousHash == r.previousHash
    ensures Material(sv, Flagged(r, j)) == Material(sv, r)
  {
    hide Field, Pieces, Join;
    var pieces, q := Pieces(r.reason), Flagged(r, j);
    ReasonSplits(r.reason, j);
    assert Flag(q.allowed) == pieces[j];
    var behind := Field(pieces[j], Field(q.reason, r.previousHash));
    FieldAssociates(pieces[j], q.reason, r.previousHash);
    if j == 0 {
      FieldAssociates(r.capability, Flag(r.allowed), behind);
    } else {
      var before := Join(pieces[..j]);
      FieldAssociates(before, Field(pieces[j], q.reason), r.previousHash);
      FieldAssociates(r.capability, Field(Flag(r.allowed), before), behind);
      FieldAssociates(Flag(r.allowed), before, behind);
    }
    Longer(r, j);
  }

  /** The end of the reason taken for a part of the previous hash. */
  lemma ReasonCollides(sv: Services, r: Record)
    requires !PlainReason(r)
    ensures exists q :: q != r && Material(sv, q) == Material(sv, r)
  {
    var i := Index(r.reason);
    var q := r.(reason := r.reason[..i], previousHash := Field(r.reason[i + 1..], r.previousHash));
    Rejoined(r.reason, i, r.previousHash);
    assert Material(sv, q) == Material(sv, r) && |q.reason| < |r.reason|;
  }

  /** A text of seven pieces gives each field one. */
  lemma PlainAgrees(sv: Services, r: Record, q: Record)
    requires Ideal(sv) && Material(sv, r) == Material(sv, q)
    requires !Shifts(r) && PlainReason(r) && NoNul(r.previousHash)
    ensures !Shifts(q) && NoNul(q.previousHash)
  {
    hide Pieces, Head, Material, NoNul, Shifts;
    MaterialPieces(sv, r);
    MaterialPieces(sv, q);
    HeadIsThree(r);
    HeadIsThree(q);
    PlainPieces(r.reason);
    PlainPieces(r.previousHash);
    PlainPieces(q.previousHash);
    assert |Pieces(Material(sv, q))| == 7;
  }

  /** A record's text can be read as another record with a NUL-free previous hash exactly when an
      identifier holds a NUL or a piece of the reason can be taken for the flag. */
  lemma TwinIff(sv: Services, r: Record)
    requires Ideal(sv) && NoNul(r.previousHash)
    ensures Ambiguous(r) <==>
            exists q :: q != r && NoNul(q.previousHash) && Material(sv, q) == Material(sv, r)
  {
    hide Material, Pieces, Shifts, NoNul, Shifted, Flagged;
    if Shifts(r) {
      ShiftedCollides(sv, r);
    } else if FlagInside(r.reason) {
      var j: nat :| j < |Pieces(r.reason)| - 1 && IsFlag(Pieces(r.reason)[j]);
      FlaggedCollides(sv, r, j);
    } else {
      forall q | q != r && NoNul(q.previousHash)
        ensures Material(sv, q) != Material(sv, r)
      {
        if Material(sv, q) == Material(sv, r) {
          TwinIsAmbiguous(sv, r, q);
        }
      }
    }
  }

  /** Nothing but NULs lets a text be read as another record: without any in the record's fields it is
      the only one with its text, with one it is not. */
  lemma MaterialDetermines(sv: Services, r: Record)
    requires Ideal(sv) && NoNul(r.previousHash)
    ensures !Shifts(r) && PlainReason(r) <==> forall q :: Material(sv, q) == Material(sv, r) ==> q == r
  {
    hide Material, Pieces, Shifts, NoNul, Shifted;
    if Shifts(r) {
      ShiftedCollides(sv, r);
    } else if !PlainReason(r) {
      ReasonCollides(sv, r);
    } else {
      forall q | Material(sv, q) == Material(sv, r)
        ensures q == r
      {
        PlainAgrees(sv, r, q);
        TwinAgrees(sv, r, q);
        SameHead(r, q);
      }
    }
  }

  // ------------------------------------------------------------ what the final hash fixes

  lemma LastHashIsPlain(sv: Services, decisions: seq<Decision>)
    requires Ideal(sv) && Verifies(sv, decisions)
    ensures NoNul(LastHash(decisions))
    ensures LastHash(decisions) == "" <==> decisions == []
  {
    if decisions != [] {
      assert LinkedAt(sv, decisions, |decisions| - 1);
    }
  }

  /** No record of the log can be read as another. */
  predicate Clear(decisions: seq<Decision>) {
    forall i :: 0 <= i < |decisions| ==> !Ambiguous(decisions[i].record)
  }

  /** A log of records that cannot be read as others equals every verifying log with the same final
      hash: none of its records can be edited, reordered, removed or added. */
  lemma {:induction false} FinalHashFixesTheLog(sv: Services, a: seq<Decision>, b: seq<Decision>)
    requires Ideal(sv) && Verifies(sv, a) && Verifies(sv, b) && LastHash(a) == LastHash(b) && Clear(a)
    ensures a == b
    decreases |a|
  {
    hide Verifies, Material, Ambiguous;
    LastHashIsPlain(sv, a);
    LastHashIsPlain(sv, b);
    if a != [] {
      var m, n := |a| - 1, |b| - 1;
      ChainPrefix(sv, a);
      ChainPrefix(sv, b);
      LastHashIsPlain(sv, a[..m]);
      LastHashIsPlain(sv, b[..n]);
      TwinIff(sv, a[m].record);
      FinalHashFixesTheLog(sv, a[..m], b[..n]);
      assert a == a[..m] + [a[m]] && b == b[..n] + [b[n]];
    }
  }

  /** Some other verifying log ends in the same hash. */
  ghost predicate Forgeable(sv: Services, decisions: seq<Decision>) {
    exists other :: other != decisions && Verifies(sv, other) && LastHash(other) == LastHash(decisions)
  }

  /** Replacing a record but not its hash leaves every prefix its last hash. */
  lemma SameLastHash(decisions: seq<Decision>, i: nat, r: Record, j: nat)
    requires i < |decisions| && j <= |decisions|
    ensures LastHash(decisions[i := Decision(r, decisions[i].hash)][..j]) == LastHash(decisions[..j])
  {
    if j > 0 {
      var other := decisions[i := Decision(r, decisions[i].hash)];
      assert other[..j][j - 1] == other[j - 1] && decisions[..j][j - 1] == decisions[j - 1];
    }
  }

  lemma ReplacedVerifies(sv: Services, decisions: seq<Decision>, i: nat, r: Record)
    requires Verifies(sv, decisions) && i < |decisions|
    requires r.previousHash == decisions[i].record.previousHash && HashOf(sv, r) == decisions[i].hash
    ensures var other := decisions[i := Decision(r, decisions[i].hash)];
      Verifies(sv, other) && LastHash(other) == LastHash(decisions)
  {
    hide HashOf, LastHash;
    var other := decisions[i := Decision(r, decisions[i].hash)];
    forall j: nat | j < |other|
      ensures LinkedAt(sv, other, j)
    {
      SameLastHash(decisions, i, r, j);
      assert LinkedAt(sv, decisions, j);
    }
    SameLastHash(decisions, i, r, |decisions|);
    assert other[..|decisions|] == other && decisions[..|decisions|] == decisions;
  }

  lemma PrefixVerifies(sv: Services, decisions: seq<Decision>, i: nat)
    requires Verifies(sv, decisions) && i <= |decisions|
    ensures Verifies(sv, decisions[..i])
  {
    forall j: nat | j < i
      ensures LinkedAt(sv, decisions[..i], j)
    {
      assert LinkedAt(sv, decisions, j) && decisions[..i][..j] == decisions[..j];
    }
  }

  lemma AmbiguousIsForgeable(sv: Services, decisions: seq<Decision>, i: nat)
    requires Ideal(sv) && Verifies(sv, decisions) && i < |decisions| && Ambiguous(decisions[i].record)
    ensures Forgeable(sv, decisions)
  {
    hide Material, LastHash, Ambiguous;
    var r := decisions[i].record;
    assert LinkedAt(sv, decisions, i);
    PrefixVerifies(sv, decisions, i);
    LastHashIsPlain(sv, decisions[..i]);
    TwinIff(sv, r);
    var forged :| forged != r && NoNul(forged.previousHash) && Material(sv, forged) == Material(sv, r);
    TwinAgrees(sv, r, forged);
    ReplacedVerifies(sv, decisions, i, forged);
    assert decisions[i := Decision(forged, decisions[i].hash)][i] != decisions[i];
  }

  /** The final hash of a log leaves another log possible exactly when some record of it holds a NUL in
      its tenant, principal or capability, or a reason in which a piece between NULs, and not its last,
      reads "true" or "false". */
  lemma ForgeableIff(sv: Services, decisions: seq<Decision>)
    requires Ideal(sv) && Verifies(sv, decisions)
    ensures Forgeable(sv, decisions) <==> !Clear(decisions)
  {
    hide Ideal, Verifies, LastHash, Ambiguous;
    if !Clear(decisions) {
      var i: nat :| i < |decisions| && Ambiguous(decisions[i].record);
      AmbiguousIsForgeable(sv, decisions, i);
    } else {
      forall other | Verifies(sv, other) && LastHash(other) == LastHash(decisions)
        ensures other == decisions
      {
        FinalHashFixesTheLog(sv, decisions, other);
      }
    }
  }

  // ------------------------------------------------------------ logs with plain reasons

  predicate PlainLog(decisions: seq<Decision>) {
    forall i :: 0 <= i < |decisions| ==> !Shifts(decisions[i].record) && PlainReason(decisions[i].record)
  }

  ghost predicate PlainReasons(decisions: seq<Decision>) {
    forall i :: 0 <= i < |decisions| ==> PlainReason(decisions[i].record)
  }

  predicate HasShift(decisions: seq<Decision>) {
    exists i :: 0 <= i < |decisions| && Shifts(decisions[i].record)
  }

  /** With plain reasons only the identifiers count. */
  lemma ClearIff(decisions: seq<Decision>)
    requires PlainReasons(decisions)
    ensures Clear(decisions) <==> !HasShift(decisions)
  {
    hide Ambiguous, Shifts, PlainReason;
    forall i | 0 <= i < |decisions|
      ensures Ambiguous(decisions[i].record) <==> Shifts(decisions[i].record)
    {
      PlainIsClear(decisions[i].record);
    }
  }

  lemma PlainLogIsClear(decisions: seq<Decision>)
    requires PlainLog(decisions)
    ensures Clear(decisions)
  {
    hide Shifts, PlainReason;
    ClearIff(decisions);
  }
}
