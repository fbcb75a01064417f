/** The roster operations as they update the stored record, and the ingestion loop. Go visits maps in a random
    order; here every visit picks an arbitrary remaining key. */
module RosterIngest {
  import opened Identity
  import opened Circles
  import opened Collections
  import opened Roster

  method AdmitMember(c: CircleRecord, m: Member, adm: Admission)
    modifies c
    ensures c.Value() == Admit(old(c.Value()), m, adm)
  {
    if m.deviceId !in c.admissions {
      c.admissions := c.admissions[m.deviceId := adm];
    }
    if Record(c.members, m.deviceId).Some? {
      return;
    }
    c.members := c.members + [Joined(m, adm, m.deviceId in c.revocations)];
  }

  method RevokeIfSigned(c: CircleRecord, device: DeviceId, rev: Revocation)
    modifies c
    ensures c.Value() == ApplyRevocation(old(c.Value()), device, rev)
  {
    var creator := Record(c.members, c.creator);
    if creator.None? || device == c.creator || !VerifyRevocation(c.id, device, rev, creator.value.publicKey) {
      return;
    }
    if device !in c.revocations {
      c.revocations := c.revocations[device := rev];
    }
    MarkRevokedInPlace(c, device);
  }

  method MarkRevokedInPlace(c: CircleRecord, device: DeviceId)
    modifies c`members
    ensures c.members == MarkRevoked(old(c.members), device)
  {
    ghost var was := c.members;
    for i := 0 to |c.members|
      invariant |c.members| == |was|
      invariant c.members[..i] == MarkRevoked(was, device)[..i] && c.members[i..] == was[i..]
    {
      assert c.members[i] == c.members[i..][0] == was[i..][0] == was[i];
      if c.members[i].deviceId == device {
        c.members := c.members[i := c.members[i].(revoked := true)];
      }
    }
  }

  method CollectPending(members: seq<Member>) returns (pending: map<DeviceId, Member>)
    ensures pending == Pending(members)
  {
    pending := map[];
    for i := 0 to |members|
      invariant pending == Pending(members[..i])
    {
      var m := members[i];
      assert members[..i + 1][..i] == members[..i];
      if m.deviceId != EMPTY && MemberKeyBound(m.deviceId, m.publicKey) {
        pending := pending[m.deviceId := m];
      }
    }
    assert members[..|members|] == members;
  }

  /** State of the admission loop: `done` are the devices trusted so far. */
  ghost predicate Admitting(c: Circle, p: Proofs, done: set<DeviceId>, cur: Circle) {
    && cur == c.(members := cur.members, admissions := cur.admissions)
    && (forall d :: d in done ==> Known(cur.members, d))
    && MembersGrown(c, p, done, cur.members)
    && AdmissionsGrown(c, p, done, cur.admissions)
  }

  ghost predicate MembersGrown(c: Circle, p: Proofs, done: set<DeviceId>, members: seq<Member>) {
    var n := |c.members|;
    && n <= |members| && members[..n] == c.members
    && (forall i :: n <= i < |members| ==> Newcomer(c, p, done, members[i]))
    && (forall i, j :: 0 <= i < j < |members| && n <= j ==> members[i].deviceId != members[j].deviceId)
  }

  ghost predicate AdmissionsGrown(c: Circle, p: Proofs, done: set<DeviceId>, admissions: map<DeviceId, Admission>) {
    && admissions.Keys == c.admissions.Keys + done
    && (forall d :: d in c.admissions ==> admissions[d] == c.admissions[d])
    && (forall d :: d in done && d !in c.admissions ==> d in p.admissions && admissions[d] == p.admissions[d])
  }

  ghost predicate Newcomer(c: Circle, p: Proofs, done: set<DeviceId>, m: Member) {
    var d := m.deviceId;
    && d in done && !Known(c.members, d) && d in Pending(p.members) && d in p.admissions
    && m == Joined(Pending(p.members)[d], p.admissions[d], d in c.revocations)
  }

  /** Whoever the grown roster trusts has a finite chain back to the roster it started from. */
  lemma TrustedHasChain(c: Circle, p: Proofs, done: set<DeviceId>, cur: Circle, d: DeviceId)
    requires MembersGrown(c, p, done, cur.members) && cur.id == c.id && cur.creator == c.creator
    requires Rooted(cur, p, d)
    requires p.admissions[d].invitedBy in done ==> Admissible(c, p, p.admissions[d].invitedBy)
    ensures Admissible(c, p, d)
  {
    var inviter := p.admissions[d].invitedBy;
    var n := |c.members|;
    var added := cur.members[n..];
    PendingBound(p.members, d);
    assert cur.members == c.members + added;
    ActiveAppend(c.members, added, inviter);
    if inviter == d || Active(c.members, inviter).Some? {
      RootedAdmissible(c, p, d);
    } else {
      var i := ActiveFound(added, inviter);
      assert added[i] == cur.members[n + i];
      assert Newcomer(c, p, done, cur.members[n + i]);
      VouchedAdmissible(c, p, inviter, d);
    }
  }

  lemma AdmitKeepsAdmitting(c: Circle, p: Proofs, done: set<DeviceId>, cur: Circle, d: DeviceId)
    requires Admitting(c, p, done, cur) && d !in done && Rooted(cur, p, d)
    ensures Admitting(c, p, done + {d}, Admit(cur, Pending(p.members)[d], p.admissions[d]))
  {
    PendingBound(p.members, d);
    var m, adm := Pending(p.members)[d], p.admissions[d];
    if !Known(cur.members, d) {
      AppendKeepsGrown(c, p, done, cur.members, d);
      forall x | x in done
        ensures Known(cur.members + [Joined(m, adm, d in c.revocations)], x)
      {
        RecordAppend(cur.members, [Joined(m, adm, d in c.revocations)], x);
      }
      RecordAppend(cur.members, [Joined(m, adm, d in c.revocations)], d);
    }
  }

  lemma AppendKeepsGrown(c: Circle, p: Proofs, done: set<DeviceId>, members: seq<Member>, d: DeviceId)
    requires MembersGrown(c, p, done, members) && Candidate(p, d) && !Known(members, d)
    requires Pending(p.members)[d].deviceId == d
    ensures MembersGrown(c, p, done + {d},
      members + [Joined(Pending(p.members)[d], p.admissions[d], d in c.revocations)])
  {
    var next := members + [Joined(Pending(p.members)[d], p.admissions[d], d in c.revocations)];
    var n, last := |c.members|, |members|;
    assert next[..n] == members[..n];
    assert members == c.members + members[n..];
    RecordAppend(c.members, members[n..], d);
    forall i | 0 <= i < last
      ensures next[i].deviceId != next[last].deviceId
    {
      KnownAt(members, i);
    }
    forall i | n <= i < |next|
      ensures Newcomer(c, p, done + {d}, next[i])
    {
      assert i < last ==> Newcomer(c, p, done, members[i]);
    }
  }

  /** When a whole pass trusts nobody new, every device with a chain is already in. */
  lemma {:induction false} ChainIsDone(c: Circle, p: Proofs, done: set<DeviceId>, cur: Circle, path: seq<DeviceId>)
    requires Admitting(c, p, done, cur)
    requires forall d :: Rooted(cur, p, d) ==> d in done
    requires AdmissionChain(c, p, path)
    ensures path[|path| - 1] in done
  {
    var k := |path| - 1;
    var d := path[k];
    var n := |c.members|;
    if k == 0 {
      assert cur.members == c.members + cur.members[n..];
      ActiveAppend(c.members, cur.members[n..], p.admissions[d].invitedBy);
      assert Rooted(cur, p, d);
    } else {
      ChainIsDone(c, p, done, cur, path[..k]);
      NewcomerVouches(c, p, done, cur, path[k - 1], d);
    }
  }

  lemma NewcomerVouches(c: Circle, p: Proofs, done: set<DeviceId>, cur: Circle, inviter: DeviceId, d: DeviceId)
    requires Admitting(c, p, done, cur) && inviter in done && NewVoucher(c, p, inviter, d)
    ensures Rooted(cur, p, d)
  {
    var n := |c.members|;
    var added := cur.members[n..];
    PendingBound(p.members, d);
    assert cur.members == c.members + added;
    RecordAppend(c.members, added, inviter);
    ActiveAppend(c.members, added, inviter);
    if Active(c.members, inviter).Some? {
      var k := ActiveFound(c.members, inviter);
      KnownAt(c.members, k);
    }
    var i := RecordFound(added, inviter);
    assert added[i] == cur.members[n + i];
    assert Newcomer(c, p, done, cur.members[n + i]);
    ActiveAt(added, i);
    var j := ActiveFound(added, inviter);
    assert added[j] == cur.members[n + j];
    assert i == j;
  }

  /** State of the revocation loop over the admitted roster `mid`: `seen` revocations were looked at. */
  ghost predicate Revoking(mid: Circle, p: Proofs, seen: set<DeviceId>, cur: Circle) {
    && cur == mid.(members := cur.members, revocations := cur.revocations)
    && (forall d :: d in mid.revocations ==> d in cur.revocations && cur.revocations[d] == mid.revocations[d])
    && (forall d :: d in seen && RevokedBy(mid, p, d) ==> d in cur.revocations)
    && (forall d :: d in cur.revocations && d !in mid.revocations ==>
          d in seen && RevokedBy(mid, p, d) && cur.revocations[d] == p.revocations[d])
    && |cur.members| == |mid.members|
    && (forall i :: 0 <= i < |mid.members| ==> cur.members[i] == mid.members[i].(revoked :=
          mid.members[i].revoked || (mid.members[i].deviceId in seen && RevokedBy(mid, p, mid.members[i].deviceId))))
  }

  /** Marking members revoked leaves every recorded key as it was. */
  lemma {:induction false} RevokingKeepsKeys(a: seq<Member>, b: seq<Member>, d: DeviceId)
    requires |a| == |b|
    requires forall i :: 0 <= i < |a| ==> a[i].deviceId == b[i].deviceId && a[i].publicKey == b[i].publicKey
    ensures Record(a, d).Some? <==> Record(b, d).Some?
    ensures Record(a, d).Some? ==> Record(a, d).value.publicKey == Record(b, d).value.publicKey
  {
    if a == [] || a[0].deviceId == d {
    } else {
      RevokingKeepsKeys(a[1..], b[1..], d);
    }
  }

  lemma RevokeKeepsRevoking(mid: Circle, p: Proofs, seen: set<DeviceId>, cur: Circle, d: DeviceId)
    requires Revoking(mid, p, seen, cur) && d in p.revocations && d !in seen
    ensures Revoking(mid, p, seen + {d}, ApplyRevocation(cur, d, p.revocations[d]))
  {
    RevokingKeepsKeys(mid.members, cur.members, mid.creator);
    assert AcceptsRevocation(cur, d, p.revocations[d]) <==> RevokedBy(mid, p, d);
  }

  ghost function ISet(s: set<DeviceId>): iset<DeviceId> {
    iset d | d in s
  }

  lemma IngestionComplete(c: Circle, p: Proofs, done: set<DeviceId>, mid: Circle, r: Circle)
    requires Admitting(c, p, done, mid) && Revoking(mid, p, p.revocations.Keys, r)
    ensures IngestedOver(c, p, ISet(done), r)
  {
    var n := |c.members|;
    RevokingKeepsKeys(mid.members, r.members, c.creator);
    assert forall d :: RevokedBy(mid, p, d) <==> RevokedBy(r, p, d);
    forall i | 0 <= i < n
      ensures r.members[i] == c.members[i].(revoked := c.members[i].revoked || RevokedBy(r, p, c.members[i].deviceId))
    {
      assert c.members[i] == mid.members[..n][i] == mid.members[i];
    }
    forall i | n <= i < |r.members|
      ensures Added(c, p, ISet(done), r, r.members[i])
    {
      assert Newcomer(c, p, done, mid.members[i]);
    }
    forall d | d in done
      ensures Known(r.members, d)
    {
      RevokingKeepsKeys(mid.members, r.members, d);
    }
  }

  /** Loop state of the admission passes: what is pending, and who was trusted so far. */
  ghost predicate Passing(start: Circle, p: Proofs, pending: map<DeviceId, Member>, done: set<DeviceId>, cur: Circle) {
    && Admitting(start, p, done, cur)
    && (forall d :: d in pending ==> d in Pending(p.members) && pending[d] == Pending(p.members)[d] && d !in done)
    && (forall d :: Candidate(p, d) ==> d in pending || d in done)
  }

  ghost predicate AllAdmissible(c: Circle, p: Proofs, done: set<DeviceId>) {
    forall d :: d in done ==> Admissible(c, p, d)
  }

  lemma PassAdmits(start: Circle, p: Proofs, pending: map<DeviceId, Member>, done: set<DeviceId>, cur: Circle,
      d: DeviceId)
    requires Passing(start, p, pending, done, cur) && d in pending && Rooted(cur, p, d)
    ensures Passing(start, p, pending - {d}, done + {d}, Admit(cur, pending[d], p.admissions[d]))
  {
    AdmitKeepsAdmitting(start, p, done, cur, d);
  }

  lemma AdmissibleGrows(start: Circle, p: Proofs, done: set<DeviceId>, cur: Circle, d: DeviceId)
    requires AllAdmissible(start, p, done) && Admitting(start, p, done, cur) && Rooted(cur, p, d)
    ensures AllAdmissible(start, p, done + {d})
  {
    TrustedHasChain(start, p, done, cur, d);
  }

  /** One pass over the pending devices, in any order. */
  method AdmissionPass(c: CircleRecord, p: Proofs, waiting: map<DeviceId, Member>, ghost start: Circle,
      ghost before: set<DeviceId>)
    returns (pending: map<DeviceId, Member>, progress: bool, ghost done: set<DeviceId>)
    requires Passing(start, p, waiting, before, c.Value()) && AllAdmissible(start, p, before)
    modifies c
    ensures Passing(start, p, pending, done, c.Value()) && AllAdmissible(start, p, done)
    ensures pending.Keys <= waiting.Keys
    ensures if progress then pending.Keys < waiting.Keys
            else c.Value() == old(c.Value()) && forall d :: d in pending ==> !Rooted(c.Value(), p, d)
  {
    pending, progress, done := waiting, false, before;
    var todo := pending.Keys;
    while todo != {}
      invariant Passing(start, p, pending, done, c.Value()) && AllAdmissible(start, p, done)
      invariant todo <= pending.Keys <= waiting.Keys
      invariant progress ==> pending.Keys < waiting.Keys
      invariant !progress ==>
        c.Value() == old(c.Value()) && forall d :: d in pending && d !in todo ==> !Rooted(c.Value(), p, d)
      decreases todo
    {
      var d :| d in todo;
      todo := todo - {d};
      if d !in p.admissions {
        pending := pending - {d};
      } else if TrustsAdmission(c.Value(), pending[d], p.admissions[d]) {
        PassAdmits(start, p, pending, done, c.Value(), d);
        AdmissibleGrows(start, p, done, c.Value(), d);
        AdmitMember(c, pending[d], p.admissions[d]);
        pending, done, progress := pending - {d}, done + {d}, true;
      }
    }
  }

  lemma PassesComplete(start: Circle, p: Proofs, pending: map<DeviceId, Member>, done: set<DeviceId>, cur: Circle)
    requires Passing(start, p, pending, done, cur) && AllAdmissible(start, p, done)
    requires forall d :: d in pending ==> !Rooted(cur, p, d)
    ensures ISet(done) == Trusted(start, p)
  {
    forall d | Admissible(start, p, d)
      ensures d in done
    {
      var path :| AdmissionChain(start, p, path) && path[|path| - 1] == d;
      ChainIsDone(start, p, done, cur, path);
    }
  }

  /** Admits the devices the incoming roster carries admissions for, then applies the creator's revocations. */
  method IngestRosterProofs(c: CircleRecord, p: Proofs)
    modifies c
    ensures Ingested(old(c.Value()), p, c.Value())
  {
    ghost var start := c.Value();
    var pending := CollectPending(p.members);
    ghost var done: set<DeviceId> := {};
    var progress := true;
    while progress
      invariant Passing(start, p, pending, done, c.Value()) && AllAdmissible(start, p, done)
      invariant !progress ==> forall d :: d in pending ==> !Rooted(c.Value(), p, d)
      decreases |pending.Keys| + if progress then 1 else 0
    {
      ghost var before := pending.Keys;
      pending, progress, done := AdmissionPass(c, p, pending, start, done);
      Shrunk(pending.Keys, before, progress);
    }
    PassesComplete(start, p, pending, done, c.Value());
    ghost var mid := c.Value();
    ApplyRevocations(c, p);
    IngestionComplete(start, p, done, mid, c.Value());
  }

  method ApplyRevocations(c: CircleRecord, p: Proofs)
    modifies c
    ensures Revoking(old(c.Value()), p, p.revocations.Keys, c.Value())
  {
    ghost var mid := c.Value();
    var todo := p.revocations.Keys;
    while todo != {}
      invariant todo <= p.revocations.Keys
      invariant Revoking(mid, p, p.revocations.Keys - todo, c.Value())
      decreases todo
    {
      var d :| d in todo;
      RevokeKeepsRevoking(mid, p, p.revocations.Keys - todo, c.Value(), d);
      assert p.revocations.Keys - (todo - {d}) == p.revocations.Keys - todo + {d};
      todo := todo - {d};
      RevokeIfSigned(c, d, p.revocations[d]);
    }
    assert p.revocations.Keys - todo == p.revocations.Keys;
  }

  lemma Shrunk<T>(after: set<T>, before: set<T>, strictly: bool)
    requires after <= before && (strictly ==> after < before)
    ensures |after| + (if strictly then 1 else 0) <= |before|
  {
    if strictly {
      var x :| x in before && x !in after;
      SubsetSize(after, before - {x});
    } else {
      SubsetSize(after, before);
    }
  }
}
