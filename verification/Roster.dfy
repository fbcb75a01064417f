/** Signed membership rosters (share_roster.go): the value-level operations, what one ingestion establishes,
    and why that does not depend on the order devices are admitted in. */
module Roster {
  import opened Identity
  import opened Circles

  /** What a roster response or a join acknowledgement carries. */
  datatype Proofs = Proofs(
    members: seq<Member>, admissions: map<DeviceId, Admission>, revocations: map<DeviceId, Revocation>)

  function SignAdmission(signer: PublicKey, circleId: Text, m: Member, inviter: DeviceId, now: Text): Admission {
    Admission(inviter, now, Signed(signer, AdmissionPayload(circleId, m.deviceId, m.publicKey, inviter, now)))
  }

  predicate VerifyAdmission(circleId: Text, m: Member, adm: Admission, inviterKey: PublicKey) {
    Verifies(inviterKey, AdmissionPayload(circleId, m.deviceId, m.publicKey, adm.invitedBy, adm.addedAt), adm.signature)
  }

  function SignRevocation(signer: PublicKey, circleId: Text, device: DeviceId, now: Text): Revocation {
    Revocation(now, Signed(signer, RevocationPayload(circleId, device, now)))
  }

  predicate VerifyRevocation(circleId: Text, device: DeviceId, rev: Revocation, creatorKey: PublicKey) {
    Verifies(creatorKey, RevocationPayload(circleId, device, rev.revokedAt), rev.signature)
  }

  /** An admission counts when an active member signed it, or when it is the creator's own. */
  predicate TrustsAdmission(c: Circle, m: Member, adm: Admission) {
    if adm.invitedBy == m.deviceId then
      m.deviceId == c.creator && VerifyAdmission(c.id, m, adm, m.publicKey)
    else
      var inviter := Active(c.members, adm.invitedBy);
      inviter.Some? && VerifyAdmission(c.id, m, adm, inviter.value.publicKey)
  }

  function Joined(m: Member, adm: Admission, revoked: bool): Member {
    m.(addedAt := adm.addedAt, revoked := revoked)
  }

  function Admit(c: Circle, m: Member, adm: Admission): Circle {
    var d := m.deviceId;
    c.(admissions := if d in c.admissions then c.admissions else c.admissions[d := adm],
       members := if Known(c.members, d) then c.members else c.members + [Joined(m, adm, d in c.revocations)])
  }

  function MarkRevoked(members: seq<Member>, device: DeviceId): (r: seq<Member>)
    ensures |r| == |members|
    ensures forall i :: 0 <= i < |r| ==>
      r[i] == if members[i].deviceId == device then members[i].(revoked := true) else members[i]
  {
    seq(|members|, i requires 0 <= i < |members| =>
      if members[i].deviceId == device then members[i].(revoked := true) else members[i])
  }

  /** The creator cannot be revoked; anything else needs the creator's signature. */
  predicate AcceptsRevocation(c: Circle, device: DeviceId, rev: Revocation) {
    var creator := Record(c.members, c.creator);
    creator.Some? && device != c.creator && VerifyRevocation(c.id, device, rev, creator.value.publicKey)
  }

  function ApplyRevocation(c: Circle, device: DeviceId, rev: Revocation): Circle {
    if !AcceptsRevocation(c, device, rev) then c
    else c.(revocations := if device in c.revocations then c.revocations else c.revocations[device := rev],
            members := MarkRevoked(c.members, device))
  }

  /** The candidates of an ingestion: the last listed record of each device whose key hashes to its id. */
  function Pending(members: seq<Member>): map<DeviceId, Member> {
    if members == [] then map[]
    else
      var m := members[|members| - 1];
      var before := Pending(members[..|members| - 1]);
      if m.deviceId != EMPTY && MemberKeyBound(m.deviceId, m.publicKey) then before[m.deviceId := m] else before
  }

  lemma {:induction false} PendingBound(members: seq<Member>, d: DeviceId)
    requires d in Pending(members)
    ensures Pending(members)[d].deviceId == d && d != EMPTY && MemberKeyBound(d, Pending(members)[d].publicKey)
    ensures Pending(members)[d] in members
  {
    var m := members[|members| - 1];
    if !(m.deviceId == d && d != EMPTY && MemberKeyBound(m.deviceId, m.publicKey)) {
      PendingBound(members[..|members| - 1], d);
    }
  }

  predicate Candidate(p: Proofs, d: DeviceId) {
    d in Pending(p.members) && d in p.admissions
  }

  /** The roster as it stands trusts this candidate's admission. */
  predicate Rooted(c: Circle, p: Proofs, d: DeviceId) {
    Candidate(p, d) && TrustsAdmission(c, Pending(p.members)[d], p.admissions[d])
  }

  /** A newly added device vouches for another candidate. */
  predicate NewVoucher(c: Circle, p: Proofs, inviter: DeviceId, d: DeviceId) {
    && Candidate(p, inviter) && Candidate(p, d)
    && inviter != d && p.admissions[d].invitedBy == inviter
    && !Known(c.members, inviter) && inviter !in c.revocations
    && VerifyAdmission(c.id, Pending(p.members)[d], p.admissions[d], Pending(p.members)[inviter].publicKey)
  }

  /** A finite chain of verified admissions: the first is trusted as the roster stands (an active member's, or
      the creator's own), each later one is signed by the device before it. */
  ghost predicate AdmissionChain(c: Circle, p: Proofs, path: seq<DeviceId>) {
    var k := |path| - 1;
    if k < 0 then false
    else if k == 0 then Rooted(c, p, path[0])
    else AdmissionChain(c, p, path[..k]) && NewVoucher(c, p, path[k - 1], path[k])
  }

  ghost predicate Admissible(c: Circle, p: Proofs, d: DeviceId) {
    exists path :: AdmissionChain(c, p, path) && path[|path| - 1] == d
  }

  lemma RootedAdmissible(c: Circle, p: Proofs, d: DeviceId)
    requires Rooted(c, p, d)
    ensures Admissible(c, p, d)
  {
    assert AdmissionChain(c, p, [d]) && [d][0] == d;
  }

  lemma VouchedAdmissible(c: Circle, p: Proofs, inviter: DeviceId, d: DeviceId)
    requires Admissible(c, p, inviter) && NewVoucher(c, p, inviter, d)
    ensures Admissible(c, p, d)
  {
    var path :| AdmissionChain(c, p, path) && path[|path| - 1] == inviter;
    var longer := path + [d];
    assert longer[..|path|] == path;
    assert AdmissionChain(c, p, longer) && longer[|longer| - 1] == d;
  }

  /** The devices an ingestion of p trusts. */
  ghost function Trusted(c: Circle, p: Proofs): iset<DeviceId> {
    iset d | Admissible(c, p, d)
  }

  /** The set holds every candidate the roster trusts as it stands or one of its new devices vouches for. */
  ghost predicate Closed(c: Circle, p: Proofs, reach: iset<DeviceId>) {
    && (forall d :: Rooted(c, p, d) ==> d in reach)
    && (forall i, d :: i in reach && NewVoucher(c, p, i, d) ==> d in reach)
  }

  lemma {:induction false} ChainInClosed(c: Circle, p: Proofs, reach: iset<DeviceId>, path: seq<DeviceId>)
    requires Closed(c, p, reach) && AdmissionChain(c, p, path)
    ensures path[|path| - 1] in reach
  {
    if |path| <= 1 {
    } else {
      ChainInClosed(c, p, reach, path[..|path| - 1]);
    }
  }

  /** The devices with a finite chain of verified admissions are the least set closed under trust. */
  lemma TrustedIsLeast(c: Circle, p: Proofs)
    ensures Closed(c, p, Trusted(c, p))
    ensures forall reach :: Closed(c, p, reach) ==> Trusted(c, p) <= reach
  {
    forall d | Rooted(c, p, d) {
      RootedAdmissible(c, p, d);
    }
    forall i, d | Admissible(c, p, i) && NewVoucher(c, p, i, d) {
      VouchedAdmissible(c, p, i, d);
    }
    forall reach, d | Closed(c, p, reach) && Admissible(c, p, d)
      ensures d in reach
    {
      var path :| AdmissionChain(c, p, path) && path[|path| - 1] == d;
      ChainInClosed(c, p, reach, path);
    }
  }

  /** The incoming revocation of a device, if the creator recorded in c signed it. */
  ghost predicate RevokedBy(c: Circle, p: Proofs, d: DeviceId) {
    d in p.revocations && AcceptsRevocation(c, d, p.revocations[d])
  }

  /** What one ingestion of p into c establishes, up to the order of the devices it adds. */
  ghost predicate Ingested(c: Circle, p: Proofs, r: Circle) {
    IngestedOver(c, p, Trusted(c, p), r)
  }

  ghost predicate IngestedOver(c: Circle, p: Proofs, reach: iset<DeviceId>, r: Circle) {
    && r == c.(members := r.members, admissions := r.admissions, revocations := r.revocations)
    && AdmissionsIngested(c, p, reach, r.admissions)
    && RevocationsIngested(c, p, r)
    && MembersIngested(c, p, reach, r)
  }

  ghost predicate AdmissionsIngested(c: Circle, p: Proofs, reach: iset<DeviceId>,
      admissions: map<DeviceId, Admission>) {
    && (forall d :: d in c.admissions ==> d in admissions && admissions[d] == c.admissions[d])
    && (forall d :: d in reach ==> d in admissions)
    && (forall d :: d in admissions && d !in c.admissions ==>
          d in reach && d in p.admissions && admissions[d] == p.admissions[d])
  }

  ghost predicate RevocationsIngested(c: Circle, p: Proofs, r: Circle) {
    && (forall d :: d in c.revocations ==> d in r.revocations && r.revocations[d] == c.revocations[d])
    && (forall d :: RevokedBy(r, p, d) ==> d in r.revocations)
    && (forall d :: d in r.revocations && d !in c.revocations ==>
          RevokedBy(r, p, d) && r.revocations[d] == p.revocations[d])
  }

  ghost predicate MembersIngested(c: Circle, p: Proofs, reach: iset<DeviceId>, r: Circle) {
    var n := |c.members|;
    && n <= |r.members|
    && (forall i :: 0 <= i < n ==>
          r.members[i] == c.members[i].(revoked := c.members[i].revoked || RevokedBy(r, p, c.members[i].deviceId)))
    && (forall i :: n <= i < |r.members| ==> Added(c, p, reach, r, r.members[i]))
    && (forall i, j :: 0 <= i < j < |r.members| && n <= j ==> r.members[i].deviceId != r.members[j].deviceId)
    && (forall d :: d in reach ==> Known(r.members, d))
  }

  ghost predicate Added(c: Circle, p: Proofs, reach: iset<DeviceId>, r: Circle, m: Member) {
    var d := m.deviceId;
    && !Known(c.members, d) && d in reach && Candidate(p, d)
    && m == Joined(Pending(p.members)[d], p.admissions[d], d in c.revocations || RevokedBy(r, p, d))
  }
}
