/** What the roster operations do, in terms of the records and proofs they are given. */
module RosterEffects {
  import opened Wrappers
  import opened Identity
  import opened Circles
  import opened Roster
  import opened RosterSteps

  /** A signed admission verifies for exactly the circle, device, key, inviter and date it was signed for, under the key
      that signed it. */
  lemma AdmissionBinds(signer: PublicKey, circleId: Text, m: Member, inviter: DeviceId, now: Text,
      otherId: Text, other: Member, adm: Admission, key: PublicKey)
    requires adm.signature == SignAdmission(signer, circleId, m, inviter, now).signature
    ensures VerifyAdmission(otherId, other, adm, key) <==>
      && key.DeviceKey? && key == signer && otherId == circleId && other.deviceId == m.deviceId
      && other.publicKey == m.publicKey && adm.invitedBy == inviter && adm.addedAt == now
  {
  }

  /** So does a signed revocation for its circle, device and date. */
  lemma RevocationBinds(signer: PublicKey, circleId: Text, d: DeviceId, now: Text, otherId: Text, other: DeviceId,
      rev: Revocation, key: PublicKey)
    requires rev.signature == SignRevocation(signer, circleId, d, now).signature
    ensures VerifyRevocation(otherId, other, rev, key) <==>
      key.DeviceKey? && key == signer && otherId == circleId && other == d && rev.revokedAt == now
  {
  }

  /** The record lists the device under a key that hashes to its id. */
  predicate Bound(m: Member, d: DeviceId) {
    m.deviceId == d && d != EMPTY && MemberKeyBound(d, m.publicKey)
  }

  /** The last such record of a list. */
  predicate LastBound(members: seq<Member>, d: DeviceId, i: int) {
    0 <= i < |members| && Bound(members[i], d) && forall j :: i < j < |members| ==> !Bound(members[j], d)
  }

  lemma {:induction false} LastOf(members: seq<Member>, d: DeviceId) returns (i: nat)
    requires exists k :: 0 <= k < |members| && Bound(members[k], d)
    ensures LastBound(members, d, i)
  {
    var n := |members| - 1;
    if Bound(members[n], d) {
      i := n;
    } else {
      i := LastOf(members[..n], d);
      assert members[..n][i] == members[i];
    }
  }

  /** A device is a candidate of an ingestion if and only if it is listed under a key that hashes to its id and the
      roster carries an admission of it; the record taken is the last such one. */
  lemma CandidateIff(p: Proofs, d: DeviceId)
    ensures Candidate(p, d) <==> d in p.admissions && exists i :: LastBound(p.members, d, i)
    ensures forall i :: LastBound(p.members, d, i) ==> d in Pending(p.members) && Pending(p.members)[d] == p.members[i]
  {
    PendingIs(p.members, d);
  }

  lemma {:induction false} PendingIs(members: seq<Member>, d: DeviceId)
    ensures d in Pending(members) <==> exists i :: LastBound(members, d, i)
    ensures forall i :: LastBound(members, d, i) ==> d in Pending(members) && Pending(members)[d] == members[i]
  {
    if members == [] {
    } else {
      var n := |members| - 1;
      var front := members[..n];
      PendingIs(front, d);
      if Bound(members[n], d) {
        assert LastBound(members, d, n);
      } else {
        forall i
          ensures LastBound(members, d, i) <==> LastBound(front, d, i)
        {
          assert 0 <= i < n ==> front[i] == members[i];
        }
      }
    }
  }

  /** Who stands behind a listed device's admission: an active member of the roster, the creator for itself, or a device
      this ingestion added that was not revoked before. */
  ghost predicate Trusts(c: Circle, p: Proofs, r: Circle, d: DeviceId, m: Member)
    requires d in p.admissions
  {
    var adm := p.admissions[d];
    var inviter := adm.invitedBy;
    || (inviter == d == c.creator && VerifyAdmission(c.id, m, adm, m.publicKey))
    || (inviter != d && Active(c.members, inviter).Some?
        && VerifyAdmission(c.id, m, adm, Active(c.members, inviter).value.publicKey))
    || (inviter != d && !Known(c.members, inviter) && inviter !in c.revocations && Known(r.members, inviter)
        && VerifyAdmission(c.id, m, adm, Record(r.members, inviter).value.publicKey))
  }

  ghost predicate Backed(c: Circle, p: Proofs, r: Circle, d: DeviceId) {
    d in p.admissions && exists i :: LastBound(p.members, d, i) && Trusts(c, p, r, d, p.members[i])
  }

  /** The record of a device the ingestion added, and the key it vouches with. */
  lemma AddedRecord(c: Circle, p: Proofs, reach: iset<DeviceId>, r: Circle, d: DeviceId)
    requires MembersIngested(c, p, reach, r) && !Known(c.members, d) && Known(r.members, d)
    ensures d in reach && Candidate(p, d)
    ensures Record(r.members, d)
      == Some(Joined(Pending(p.members)[d], p.admissions[d], d in c.revocations || RevokedBy(r, p, d)))
  {
    var i := RecordFound(r.members, d);
    if i < |c.members| {
      KnownAt(c.members, i);
    }
    assert Added(c, p, reach, r, r.members[i]);
  }

  /** One link of a chain is one way to be trusted. */
  lemma LinkTrusts(c: Circle, p: Proofs, r: Circle, d: DeviceId)
    requires Ingested(c, p, r) && d in Trusted(c, p)
    ensures Backed(c, p, r, d)
  {
    var path :| AdmissionChain(c, p, path) && path[|path| - 1] == d;
    var k := |path| - 1;
    if k == 0 {
      FirstTrusts(c, p, r, d);
    } else {
      assert AdmissionChain(c, p, path[..k]) && path[..k][|path[..k]| - 1] == path[k - 1];
      assert Admissible(c, p, path[k - 1]);
      NextTrusts(c, p, r, path[k - 1], d);
    }
  }

  lemma FirstTrusts(c: Circle, p: Proofs, r: Circle, d: DeviceId)
    requires Rooted(c, p, d)
    ensures Backed(c, p, r, d)
  {
    CandidateIff(p, d);
    var i :| LastBound(p.members, d, i);
    assert Trusts(c, p, r, d, p.members[i]);
  }

  lemma NextTrusts(c: Circle, p: Proofs, r: Circle, inviter: DeviceId, d: DeviceId)
    requires Ingested(c, p, r) && inviter in Trusted(c, p) && NewVoucher(c, p, inviter, d)
    ensures Backed(c, p, r, d)
  {
    CandidateIff(p, d);
    var i :| LastBound(p.members, d, i);
    AddedRecord(c, p, Trusted(c, p), r, inviter);
    assert Trusts(c, p, r, d, p.members[i]);
  }

  lemma TrustReaches(c: Circle, p: Proofs, r: Circle, d: DeviceId)
    requires Ingested(c, p, r) && Backed(c, p, r, d)
    ensures d in Trusted(c, p)
  {
    CandidateIff(p, d);
    var i :| LastBound(p.members, d, i) && Trusts(c, p, r, d, p.members[i]);
    var inviter := p.admissions[d].invitedBy;
    if Rooted(c, p, d) {
      RootedAdmissible(c, p, d);
    } else {
      AddedRecord(c, p, Trusted(c, p), r, inviter);
      assert NewVoucher(c, p, inviter, d);
      VouchedAdmissible(c, p, inviter, d);
    }
  }

  /** What the ingestion holds of a device whose admission it took. */
  ghost predicate TakenAs(c: Circle, p: Proofs, r: Circle, d: DeviceId, m: Member)
    requires d in p.admissions
  {
    && d in r.admissions && r.admissions[d] == (if d in c.admissions then c.admissions[d] else p.admissions[d])
    && Known(r.members, d)
    && (!Known(c.members, d) ==>
          Record(r.members, d) == Some(m.(addedAt := p.admissions[d].addedAt, revoked := d in r.revocations)))
  }

  /** A device not stored before is admitted if and only if it is listed, bound to its key, and its admission verifies
      under an active member's key, its own if it is the creator, or that of a device admitted along with it; its last
      such record is the one stored. */
  lemma AdmittedIff(c: Circle, p: Proofs, r: Circle, d: DeviceId)
    requires Ingested(c, p, r)
    ensures !Known(c.members, d) ==> (Known(r.members, d) <==> Backed(c, p, r, d))
    ensures d !in c.admissions ==> (d in r.admissions <==> Backed(c, p, r, d))
    ensures forall i :: LastBound(p.members, d, i) && Backed(c, p, r, d) ==> TakenAs(c, p, r, d, p.members[i])
  {
    CandidateIff(p, d);
    if Backed(c, p, r, d) {
      TrustReaches(c, p, r, d);
    }
    if d in Trusted(c, p) {
      LinkTrusts(c, p, r, d);
    }
    if !Known(c.members, d) && Known(r.members, d) {
      AddedRecord(c, p, Trusted(c, p), r, d);
    }
  }

  /** A revocation is stored if and only if it was or the incoming one is the creator's and not of the creator; every
      record of such a device is marked, and no other is. */
  lemma RevokedIff(c: Circle, p: Proofs, r: Circle, d: DeviceId)
    requires Ingested(c, p, r)
    ensures var comes := d in p.revocations && d != c.creator && Known(r.members, c.creator)
        && VerifyRevocation(c.id, d, p.revocations[d], Record(r.members, c.creator).value.publicKey);
      && (d in r.revocations <==> d in c.revocations || comes)
      && (d in c.revocations ==> r.revocations[d] == c.revocations[d])
      && (d in r.revocations && d !in c.revocations ==> r.revocations[d] == p.revocations[d])
      && forall i :: 0 <= i < |c.members| && c.members[i].deviceId == d ==>
           r.members[i] == c.members[i].(revoked := c.members[i].revoked || comes)
  {
    hide Trusted, AdmissionsIngested, Added;
  }

  /** Admitting a device leaves it with an admission and a record, each kept if there was one; a new record is the given
      one with the date of the admission, last in the list, revoked from the start if a revocation is stored. */
  lemma AdmitGives(c: Circle, m: Member, adm: Admission)
    ensures var d, r := m.deviceId, Admit(c, m, adm);
      && d in r.admissions && r.admissions[d] == (if d in c.admissions then c.admissions[d] else adm)
      && (forall x :: x != d ==> (x in r.admissions <==> x in c.admissions))
      && (forall x :: x in c.admissions ==> r.admissions[x] == c.admissions[x])
      && Known(r.members, d) && (Known(c.members, d) ==> r.members == c.members)
      && (!Known(c.members, d) ==>
            && |r.members| == |c.members| + 1 && r.members[..|c.members|] == c.members
            && r.members[|c.members|] == m.(addedAt := adm.addedAt, revoked := d in c.revocations))
      && r == c.(members := r.members, admissions := r.admissions)
  {
    var r := Admit(c, m, adm);
    KnownAt(r.members, if |r.members| > |c.members| then |c.members| else 0);
  }

  /** A core that is active vouches for what it can, as VouchingEstablishes says; any other changes nothing. */
  lemma VouchedIff(c: Circle, self: Self, now: Text)
    requires self.key.DeviceKey?
    ensures Active(c.members, self.device).Some? ==> VouchedFor(c, self, c.members, Vouched(c, self, now))
    ensures Active(c.members, self.device).None? ==> Vouched(c, self, now) == c
  {
    MembersKnown(c.members);
    VouchingEstablishes(c, self, c.members, now);
  }

  /** A removal succeeds if and only if the creator removes a listed other device; every record of that device is then
      marked, and a revocation that verifies under the creator's key is stored, unless there was one. */
  lemma RemovedIff(c: Circle, actor: Self, d: DeviceId, now: Text)
    requires actor.key.DeviceKey?
    ensures var result := Removed(c, actor, d, now);
      && (result.Ok? <==> c.creator == actor.device && d != c.creator && Known(c.members, d))
      && (result.Ok? ==>
            var r := result.value;
            && r == c.(members := r.members, revocations := r.revocations) && |r.members| == |c.members|
            && (forall i :: 0 <= i < |c.members| ==>
                  r.members[i] == c.members[i].(revoked := c.members[i].revoked || c.members[i].deviceId == d))
            && r.revocations.Keys == c.revocations.Keys + {d}
            && (forall x :: x in c.revocations ==> r.revocations[x] == c.revocations[x])
            && (d !in c.revocations ==>
                  r.revocations[d].revokedAt == now && VerifyRevocation(c.id, d, r.revocations[d], actor.key)))
  {
  }

  /** A record as listed, with every hint that is not empty taken from the incoming one. */
  predicate HintsTaken(before: Member, m: Member, after: Member) {
    && after.endpoint == (if m.endpoint != EMPTY then m.endpoint else before.endpoint)
    && after.remoteAddr == (if m.remoteAddr != EMPTY then m.remoteAddr else before.remoteAddr)
    && after.hostname == (if m.hostname != EMPTY then m.hostname else before.hostname)
    && after.lastSeen == (if m.lastSeen != EMPTY then m.lastSeen else before.lastSeen)
    && after.deviceId == before.deviceId && after.revoked == before.revoked
  }

  /** The record stored for a device, the first one listed. */
  predicate FirstRecord(members: seq<Member>, d: DeviceId, i: int) {
    0 <= i < |members| && members[i].deviceId == d && forall j :: 0 <= j < i ==> members[j].deviceId != d
  }

  lemma FirstKnown(members: seq<Member>, d: DeviceId)
    ensures Known(members, d) <==> exists i :: FirstRecord(members, d, i)
  {
    if Known(members, d) {
      var i := RecordFound(members, d);
      assert FirstRecord(members, d, i);
    }
    if i :| FirstRecord(members, d, i) {
      KnownAt(members, i);
    }
  }

  /** A peer's record with an id, not this core's, and without a key of another device gives its hints to the stored
      record of the device; key, date and flag stay. Any other record changes nothing. */
  lemma HintsGive(members: seq<Member>, self: Self, m: Member, now: Text)
    ensures var after := HintsMerged(members, self, [m], now);
      var taken := m.deviceId != EMPTY && m.deviceId != self.device
        && (m.publicKey == Undecodable(EMPTY) || MemberKeyBound(m.deviceId, m.publicKey));
      && (forall i :: taken && FirstRecord(members, m.deviceId, i) ==>
            |after| == |members| && HintsTaken(members[i], m, after[i]) && after == members[i := after[i]]
            && after[i].publicKey == members[i].publicKey && after[i].addedAt == members[i].addedAt)
      && (!taken || !Known(members, m.deviceId) ==> after == members)
  {
    FirstKnown(members, m.deviceId);
    assert [m][..0] == [] && HintsMerged(members, self, [m][..0], now) == members;
    if TakesHints(members, self, m) {
      var i := RecordFound(members, m.deviceId);
      UpsertAt(members, Hints(m), now, i);
      MergeOnlyHints(members, self, [m], now);
    }
  }

  /** A list of records gives its hints one record after the other. */
  lemma {:induction false} HintsInTurn(members: seq<Member>, self: Self, a: seq<Member>, b: seq<Member>, now: Text)
    ensures HintsMerged(members, self, a + b, now) == HintsMerged(HintsMerged(members, self, a, now), self, b, now)
  {
    if b == [] {
      assert a + b == a;
    } else {
      var n := |b| - 1;
      assert (a + b)[..|a + b| - 1] == a + b[..n];
      HintsInTurn(members, self, a, b[..n], now);
    }
  }

  /** A record with an id and no key of another device is merged into the first stored one of its device: hints as
      above, key and date only where there was none. An unknown device is appended if it comes with a key. Anything
      else changes nothing. */
  lemma UpsertGives(members: seq<Member>, m: Member, now: Text)
    ensures var after := Upsert(members, m, now);
      var usable := m.deviceId != EMPTY
        && (m.publicKey == Undecodable(EMPTY) || MemberKeyBound(m.deviceId, m.publicKey));
      && (forall i :: usable && FirstRecord(members, m.deviceId, i) ==>
            |after| == |members| && HintsTaken(members[i], m, after[i]) && after == members[i := after[i]]
            && after[i].publicKey
              == (if members[i].publicKey == Undecodable(EMPTY) then m.publicKey else members[i].publicKey)
            && after[i].addedAt == (if members[i].addedAt == EMPTY then m.addedAt else members[i].addedAt))
      && (usable && !Known(members, m.deviceId) && m.publicKey != Undecodable(EMPTY) ==>
            after == members + [m.(addedAt := if m.addedAt == EMPTY then now else m.addedAt)])
      && (!usable || (!Known(members, m.deviceId) && m.publicKey == Undecodable(EMPTY)) ==> after == members)
  {
    FirstKnown(members, m.deviceId);
    if m.deviceId != EMPTY && (m.publicKey == EMPTY_KEY || MemberKeyBound(m.deviceId, m.publicKey)) {
      if Known(members, m.deviceId) {
        var i := RecordFound(members, m.deviceId);
        UpsertAt(members, m, now, i);
      } else {
        forall k | 0 <= k < |members|
          ensures members[k].deviceId != m.deviceId
        {
          KnownAt(members, k);
        }
        UpsertAt(members, m, now, |members|);
      }
    } else {
      Unusable(members, m, now);
    }
  }

  /** Merging a peer's list ends with vouching, on a core that is active. */
  lemma MergeVouches(c: Circle, self: Self, incoming: seq<Member>, now: Text)
    requires self.key.DeviceKey? && Active(c.members, self.device).Some?
    ensures var members := HintsMerged(c.members, self, incoming, now);
      VouchedFor(c.(members := members), self, members, PeerRosterMerged(c, self, incoming, now))
  {
    var members := HintsMerged(c.members, self, incoming, now);
    MergeOnlyHints(c.members, self, incoming, now);
    var i := ActiveFound(c.members, self.device);
    ActiveAt(members, i);
    VouchedIff(c.(members := members), self, now);
  }

  lemma Unusable(members: seq<Member>, m: Member, now: Text)
    requires m.deviceId == EMPTY || (m.publicKey != EMPTY_KEY && !MemberKeyBound(m.deviceId, m.publicKey))
    ensures Upsert(members, m, now) == members
  {
  }
}
