/** Safety of a stored roster over whole runs of ingestion, vouching, removal, hint merging and pairing. */
module RosterRuns {
  import opened Wrappers
  import opened Identity
  import opened Circles
  import opened Roster
  import opened RosterLaws
  import opened RosterSteps

  datatype Step =
    | Ingest(proofs: Proofs)
    | Vouch(now: Text)
    | Remove(device: DeviceId, now: Text)
    | Merge(incoming: seq<Member>, now: Text)
    | Pair(joiner: Member, now: Text)

  /** One step of a core: ingestion is nondeterministic in the order of the devices it adds. */
  ghost predicate Next(self: Self, c: Circle, step: Step, r: Circle) {
    match step
    case Ingest(p) => Ingested(c, p, r)
    case Vouch(now) => r == Vouched(c, self, now)
    case Remove(d, now) => Removed(c, self, d, now) == Ok(r)
    case Merge(incoming, now) => r == PeerRosterMerged(c, self, incoming, now)
    case Pair(joiner, now) =>
      Active(c.members, self.device).Some? && MemberKeyBound(joiner.deviceId, joiner.publicKey) &&
      r == Vouched(Admit(c, joiner, SignAdmission(self.key, c.id, joiner, self.device, now)), self, now)
  }

  function CreatorKey(c: Circle): PublicKey
    requires Known(c.members, c.creator)
  {
    Record(c.members, c.creator).value.publicKey
  }

  /** Ids are distinct, the creator is listed and never revoked, a member is marked revoked exactly when a
      revocation is stored for it, and every stored revocation carries the creator's signature. */
  ghost predicate Sound(self: Self, c: Circle) {
    && DistinctIds(c.members) && Known(c.members, c.creator) && c.creator !in c.revocations
    && self.key.DeviceKey? && (self.device == c.creator ==> CreatorKey(c) == self.key)
    && (forall i :: 0 <= i < |c.members| ==> (c.members[i].revoked <==> c.members[i].deviceId in c.revocations))
    && (forall d :: d in c.revocations ==> VerifyRevocation(c.id, d, c.revocations[d], CreatorKey(c)))
  }

  /** No member record or proof is lost or replaced, and no revocation is undone. */
  ghost predicate Evolves(c: Circle, r: Circle) {
    && r.id == c.id && r.creator == c.creator
    && |c.members| <= |r.members|
    && (forall i :: 0 <= i < |c.members| ==> SameMember(c.members[i], r.members[i]))
    && (forall d :: d in c.admissions ==> d in r.admissions && r.admissions[d] == c.admissions[d])
    && (forall d :: d in c.revocations ==> d in r.revocations && r.revocations[d] == c.revocations[d])
  }

  predicate SameMember(a: Member, b: Member) {
    b.deviceId == a.deviceId && b.publicKey == a.publicKey && b.addedAt == a.addedAt && (a.revoked ==> b.revoked)
  }

  lemma EvolvesKeepsKeys(c: Circle, r: Circle, d: DeviceId)
    requires Evolves(c, r) && Known(c.members, d)
    ensures Known(r.members, d) && Record(r.members, d).value.publicKey == Record(c.members, d).value.publicKey
  {
    var n := |c.members|;
    assert r.members == r.members[..n] + r.members[n..];
    RecordAppend(r.members[..n], r.members[n..], d);
    SameKeys(c.members, r.members[..n], d);
  }

  lemma IngestKeepsSound(self: Self, c: Circle, p: Proofs, r: Circle)
    requires Sound(self, c) && Ingested(c, p, r)
    ensures Evolves(c, r) && Sound(self, r)
  {
    IngestKeepsSoundOver(self, c, p, Trusted(c, p), r);
  }

  lemma IngestKeepsSoundOver(self: Self, c: Circle, p: Proofs, reach: iset<DeviceId>, r: Circle)
    requires Sound(self, c) && IngestedOver(c, p, reach, r)
    ensures Evolves(c, r) && Sound(self, r)
  {
    EvolvesKeepsKeys(c, r, c.creator);
    forall i | 0 <= i < |r.members|
      ensures r.members[i].revoked <==> r.members[i].deviceId in r.revocations
    {
      assert i >= |c.members| ==> Added(c, p, reach, r, r.members[i]);
    }
    forall i, j | 0 <= i < j < |r.members|
      ensures r.members[i].deviceId != r.members[j].deviceId
    {
      if j < |c.members| {
        assert r.members[i].deviceId == c.members[i].deviceId && r.members[j].deviceId == c.members[j].deviceId;
      }
    }
  }

  lemma VouchKeepsSound(self: Self, c: Circle, now: Text)
    requires Sound(self, c)
    ensures Evolves(c, Vouched(c, self, now)) && Sound(self, Vouched(c, self, now))
  {
    if Active(c.members, self.device).Some? {
      MembersKnown(c.members);
      VouchingEstablishes(c, self, c.members, now);
      VouchedForKeepsSound(self, c, Vouched(c, self, now));
    }
  }

  lemma VouchedForKeepsSound(self: Self, c: Circle, r: Circle)
    requires Sound(self, c) && VouchedFor(c, self, c.members, r)
    ensures Evolves(c, r) && Sound(self, r)
  {
  }

  lemma RemoveKeepsSound(self: Self, c: Circle, d: DeviceId, now: Text)
    requires Sound(self, c) && Removed(c, self, d, now).Ok?
    ensures Evolves(c, Removed(c, self, d, now).value) && Sound(self, Removed(c, self, d, now).value)
  {
    var r := Removed(c, self, d, now).value;
    EvolvesKeepsKeys(c, r, c.creator);
  }

  lemma HintsKeepSound(self: Self, c: Circle, members: seq<Member>)
    requires Sound(self, c) && OnlyHintsDiffer(c.members, members)
    ensures Evolves(c, c.(members := members)) && Sound(self, c.(members := members))
  {
    EvolvesKeepsKeys(c, c.(members := members), c.creator);
  }

  lemma AdmitKeepsSound(self: Self, c: Circle, m: Member, adm: Admission)
    requires Sound(self, c)
    ensures Evolves(c, Admit(c, m, adm)) && Sound(self, Admit(c, m, adm))
  {
    MembersKnown(c.members);
    EvolvesKeepsKeys(c, Admit(c, m, adm), c.creator);
  }

  lemma EvolvesTransitive(a: Circle, b: Circle, c: Circle)
    requires Evolves(a, b) && Evolves(b, c)
    ensures Evolves(a, c)
  {
    forall i | 0 <= i < |a.members|
      ensures SameMember(a.members[i], c.members[i])
    {
      assert SameMember(a.members[i], b.members[i]) && SameMember(b.members[i], c.members[i]);
    }
  }

  /** Every step keeps the roster sound and loses or replaces nothing. */
  lemma StepKeepsSound(self: Self, c: Circle, step: Step, r: Circle)
    requires Sound(self, c) && Next(self, c, step, r)
    ensures Evolves(c, r) && Sound(self, r)
  {
    match step
    case Ingest(p) => IngestKeepsSound(self, c, p, r);
    case Vouch(now) => VouchKeepsSound(self, c, now);
    case Remove(d, now) => RemoveKeepsSound(self, c, d, now);
    case Merge(incoming, now) =>
      var members := HintsMerged(c.members, self, incoming, now);
      MergeOnlyHints(c.members, self, incoming, now);
      HintsKeepSound(self, c, members);
      VouchKeepsSound(self, c.(members := members), now);
      EvolvesTransitive(c, c.(members := members), r);
    case Pair(joiner, now) =>
      var admitted := Admit(c, joiner, SignAdmission(self.key, c.id, joiner, self.device, now));
      AdmitKeepsSound(self, c, joiner, SignAdmission(self.key, c.id, joiner, self.device, now));
      VouchKeepsSound(self, admitted, now);
      EvolvesTransitive(c, admitted, r);
  }

  /** A run: one more circle than steps. */
  ghost predicate Run(self: Self, run: seq<Circle>, steps: seq<Step>) {
    |run| == |steps| + 1 && forall i {:trigger steps[i]} :: 0 <= i < |steps| ==>
      Next(self, run[i], steps[i], run[i + 1])
  }

  lemma RunStep(self: Self, run: seq<Circle>, steps: seq<Step>, k: nat)
    requires Run(self, run, steps) && k < |steps| && Sound(self, run[k])
    ensures Sound(self, run[k + 1]) && Evolves(run[k], run[k + 1])
  {
    StepKeepsSound(self, run[k], steps[k], run[k + 1]);
  }

  /** Over every run from a sound roster: each roster is sound, and each later one only extends an earlier one. */
  lemma {:induction false} RunKeepsSound(self: Self, run: seq<Circle>, steps: seq<Step>, i: nat, j: nat)
    requires Run(self, run, steps) && Sound(self, run[0]) && i <= j < |run|
    ensures Sound(self, run[j]) && Evolves(run[i], run[j])
    decreases j
  {
    if j == 0 {
    } else {
      RunKeepsSound(self, run, steps, if i < j then i else j - 1, j - 1);
      RunStep(self, run, steps, j - 1);
      if i < j {
        EvolvesTransitive(run[i], run[j - 1], run[j]);
      }
    }
  }

  /** A device with a stored revocation is never an active member again, and the creator always is one. */
  lemma RevokedForever(self: Self, run: seq<Circle>, steps: seq<Step>, i: nat, j: nat, d: DeviceId)
    requires Run(self, run, steps) && Sound(self, run[0]) && i <= j < |run| && d in run[i].revocations
    ensures Active(run[j].members, d).None? && d in run[j].revocations && d != run[j].creator
    ensures Active(run[j].members, run[j].creator).Some?
  {
    RunKeepsSound(self, run, steps, i, j);
    RunKeepsSound(self, run, steps, 0, i);
    var members := run[j].members;
    if Active(members, d).Some? {
      var k := ActiveFound(members, d);
    }
    var k := RecordFound(members, run[j].creator);
    ActiveAt(members, k);
  }

  /** A device an ingestion adds has a finite chain of verified admissions, under a key that hashes to its id. */
  lemma AddedHasChain(c: Circle, p: Proofs, r: Circle, i: nat)
    requires Ingested(c, p, r) && |c.members| <= i < |r.members|
    ensures exists path :: AdmissionChain(c, p, path) && path[|path| - 1] == r.members[i].deviceId
    ensures !Known(c.members, r.members[i].deviceId) && MemberKeyBound(r.members[i].deviceId, r.members[i].publicKey)
  {
    assert Added(c, p, Trusted(c, p), r, r.members[i]);
    PendingBound(p.members, r.members[i].deviceId);
    assert Admissible(c, p, r.members[i].deviceId);
  }

  /** A circle its creator just made, before it vouches for itself. */
  function NewCircle(self: Self, id: Text, groupKey: Bytes, hostname: Text, now: Text): Circle {
    Circle(id, self.device, [Member(self.device, self.key, now, false, EMPTY, EMPTY, hostname, EMPTY)],
           map[], map[], groupKey, 0, None, None, map[])
  }

  lemma CreatedSound(self: Self, id: Text, groupKey: Bytes, hostname: Text, now: Text)
    requires MemberKeyBound(self.device, self.key)
    ensures var c := Vouched(NewCircle(self, id, groupKey, hostname, now), self, now);
      Sound(self, c) && self.device in c.admissions
  {
    var first := NewCircle(self, id, groupKey, hostname, now);
    KnownAt(first.members, 0);
    ActiveAt(first.members, 0);
    VouchKeepsSound(self, first, now);
    MembersKnown(first.members);
    VouchingEstablishes(first, self, first.members, now);
    assert Vouchable(first, self, first.members[0]);
  }

  function ProofsOf(c: Circle): Proofs {
    Proofs(c.members, c.admissions, c.revocations)
  }

  /** Two cores that agree on the creator and its key. */
  ghost predicate SameCreator(a: Circle, b: Circle) {
    && a.id == b.id && a.creator == b.creator
    && Known(a.members, a.creator) && Known(b.members, b.creator) && CreatorKey(a) == CreatorKey(b)
  }

  /** Ingesting a sound peer's roster takes over exactly its revocations. */
  lemma RevocationsUnited(self: Self, a: Circle, peer: Self, b: Circle, r: Circle)
    requires Sound(self, a) && Sound(peer, b) && SameCreator(a, b) && Ingested(a, ProofsOf(b), r)
    ensures r.revocations.Keys == a.revocations.Keys + b.revocations.Keys
    ensures SameCreator(r, b)
  {
    IngestKeepsSound(self, a, ProofsOf(b), r);
    EvolvesKeepsKeys(a, r, a.creator);
    assert forall d :: d in b.revocations ==> RevokedBy(r, ProofsOf(b), d);
  }

  /** Two cores that ingest each other's rosters, at once or one after the other, end with equal revoked sets,
      and agree on every device both list. */
  lemma RevokedSetsAgree(self: Self, a: Circle, peer: Self, b: Circle, a': Circle, b': Circle)
    requires Sound(self, a) && Sound(peer, b) && SameCreator(a, b)
    requires Ingested(a, ProofsOf(b), a')
    requires Ingested(b, ProofsOf(a), b') || Ingested(b, ProofsOf(a'), b')
    ensures a'.revocations.Keys == b'.revocations.Keys
    ensures forall m, n :: m in a'.members && n in b'.members && m.deviceId == n.deviceId ==> m.revoked == n.revoked
  {
    RevocationsUnited(self, a, peer, b, a');
    IngestKeepsSound(self, a, ProofsOf(b), a');
    if Ingested(b, ProofsOf(a), b') {
      RevocationsUnited(peer, b, self, a, b');
      IngestKeepsSound(peer, b, ProofsOf(a), b');
    } else {
      RevocationsUnited(peer, b, self, a', b');
      IngestKeepsSound(peer, b, ProofsOf(a'), b');
    }
    FlagsAgree(self, a', peer, b');
  }

  lemma FlagsAgree(self: Self, a: Circle, peer: Self, b: Circle)
    requires Sound(self, a) && Sound(peer, b) && a.revocations.Keys == b.revocations.Keys
    ensures forall m, n :: m in a.members && n in b.members && m.deviceId == n.deviceId ==> m.revoked == n.revoked
  {
    assert forall d :: d in a.revocations <==> d in b.revocations;
    assert forall m :: m in a.members ==> (m.revoked <==> m.deviceId in a.revocations);
    assert forall n :: n in b.members ==> (n.revoked <==> n.deviceId in b.revocations);
  }
}
