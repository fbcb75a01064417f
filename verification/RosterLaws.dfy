/** One ingestion does not depend on the visiting order, and a second one of the same input changes nothing. */
module RosterLaws {
  import opened Identity
  import opened Circles
  import opened Roster

  /** The key an ingested roster records for a device. */
  lemma KeyAfter(c: Circle, p: Proofs, reach: iset<DeviceId>, r: Circle, d: DeviceId)
    requires MembersIngested(c, p, reach, r)
    ensures Known(r.members, d) <==> Known(c.members, d) || d in reach
    ensures Known(c.members, d) ==> Record(r.members, d).value.publicKey == Record(c.members, d).value.publicKey
    ensures !Known(c.members, d) && Known(r.members, d) ==>
      d in Pending(p.members) && Record(r.members, d).value.publicKey == Pending(p.members)[d].publicKey
  {
    var n := |c.members|;
    var head, tail := r.members[..n], r.members[n..];
    assert r.members == head + tail;
    RecordAppend(head, tail, d);
    SameKeys(c.members, head, d);
    if Known(tail, d) {
      var i := RecordFound(tail, d);
      assert tail[i] == r.members[n + i];
      assert Added(c, p, reach, r, r.members[n + i]);
    }
  }

  lemma {:induction false} SameKeys(a: seq<Member>, b: seq<Member>, d: DeviceId)
    requires |a| == |b|
    requires forall i :: 0 <= i < |a| ==> a[i].deviceId == b[i].deviceId && a[i].publicKey == b[i].publicKey
    ensures Known(a, d) <==> Known(b, d)
    ensures Known(a, d) ==> Record(a, d).value.publicKey == Record(b, d).value.publicKey
  {
    if a == [] || a[0].deviceId == d {
    } else {
      SameKeys(a[1..], b[1..], d);
    }
  }

  lemma SameRevocations(c: Circle, p: Proofs, reach: iset<DeviceId>, r1: Circle, r2: Circle)
    requires IngestedOver(c, p, reach, r1) && IngestedOver(c, p, reach, r2)
    ensures forall d :: RevokedBy(r1, p, d) <==> RevokedBy(r2, p, d)
  {
    KeyAfter(c, p, reach, r1, c.creator);
    KeyAfter(c, p, reach, r2, c.creator);
  }

  lemma AddedInBoth(c: Circle, p: Proofs, reach: iset<DeviceId>, r1: Circle, r2: Circle, i: nat) returns (j: nat)
    requires MembersIngested(c, p, reach, r1) && MembersIngested(c, p, reach, r2)
    requires forall d :: RevokedBy(r1, p, d) <==> RevokedBy(r2, p, d)
    requires |c.members| <= i < |r1.members|
    ensures |c.members| <= j < |r2.members| && r2.members[j] == r1.members[i]
  {
    var n := |c.members|;
    assert Added(c, p, reach, r1, r1.members[i]);
    var d := r1.members[i].deviceId;
    var head, tail := r2.members[..n], r2.members[n..];
    assert r2.members == head + tail;
    RecordAppend(head, tail, d);
    SameKeys(c.members, head, d);
    j := RecordFound(tail, d);
    assert tail[j] == r2.members[n + j];
    j := n + j;
    assert Added(c, p, reach, r2, r2.members[j]);
  }

  lemma {:induction false} CountOfDistinct(s: seq<Member>, m: Member)
    requires DistinctIds(s)
    ensures multiset(s)[m] == if m in s then 1 else 0
  {
    if s == [] {
    } else {
      assert s == [s[0]] + s[1..];
      CountOfDistinct(s[1..], m);
      if m in s[1..] {
        var i :| 0 <= i < |s[1..]| && s[1..][i] == m;
        assert s[i + 1] == m;
      }
    }
  }

  lemma SameElements(a: seq<Member>, b: seq<Member>)
    requires DistinctIds(a) && DistinctIds(b)
    requires forall m :: m in a <==> m in b
    ensures multiset(a) == multiset(b)
  {
    forall m: Member
      ensures multiset(a)[m] == multiset(b)[m]
    {
      CountOfDistinct(a, m);
      CountOfDistinct(b, m);
    }
  }

  lemma AddedWithin(c: Circle, p: Proofs, reach: iset<DeviceId>, r1: Circle, r2: Circle)
    requires MembersIngested(c, p, reach, r1) && MembersIngested(c, p, reach, r2)
    requires forall d :: RevokedBy(r1, p, d) <==> RevokedBy(r2, p, d)
    ensures forall m :: m in r1.members[|c.members|..] ==> m in r2.members[|c.members|..]
  {
    var n := |c.members|;
    forall m | m in r1.members[n..]
      ensures m in r2.members[n..]
    {
      var i :| n <= i < |r1.members| && r1.members[i] == m;
      var j := AddedInBoth(c, p, reach, r1, r2, i);
      assert r2.members[n..][j - n] == m;
    }
  }

  lemma SameAdded(c: Circle, p: Proofs, reach: iset<DeviceId>, r1: Circle, r2: Circle)
    requires MembersIngested(c, p, reach, r1) && MembersIngested(c, p, reach, r2)
    requires forall d :: RevokedBy(r1, p, d) <==> RevokedBy(r2, p, d)
    ensures multiset(r1.members[|c.members|..]) == multiset(r2.members[|c.members|..])
  {
    AddedWithin(c, p, reach, r1, r2);
    AddedWithin(c, p, reach, r2, r1);
    SameElements(r1.members[|c.members|..], r2.members[|c.members|..]);
  }

  /** Confluence: whatever order the admissions and revocations were visited in, the admissions, the
      revocations, the members known before (in place) and the members added are the same. */
  lemma IngestionConfluent(c: Circle, p: Proofs, r1: Circle, r2: Circle)
    requires Ingested(c, p, r1) && Ingested(c, p, r2)
    ensures r1.admissions == r2.admissions && r1.revocations == r2.revocations
    ensures r1.members[..|c.members|] == r2.members[..|c.members|]
    ensures multiset(r1.members) == multiset(r2.members)
  {
    ConfluentOver(c, p, Trusted(c, p), r1, r2);
  }

  lemma ConfluentOver(c: Circle, p: Proofs, reach: iset<DeviceId>, r1: Circle, r2: Circle)
    requires IngestedOver(c, p, reach, r1) && IngestedOver(c, p, reach, r2)
    ensures r1.admissions == r2.admissions && r1.revocations == r2.revocations
    ensures r1.members[..|c.members|] == r2.members[..|c.members|]
    ensures multiset(r1.members) == multiset(r2.members)
  {
    var n := |c.members|;
    SameRevocations(c, p, reach, r1, r2);
    assert r1.admissions.Keys == r2.admissions.Keys;
    assert r1.revocations.Keys == r2.revocations.Keys;
    SameAdded(c, p, reach, r1, r2);
    assert r1.members == r1.members[..n] + r1.members[n..];
    assert r2.members == r2.members[..n] + r2.members[n..];
  }

  lemma {:induction false} ActiveSame(a: seq<Member>, b: seq<Member>, d: DeviceId)
    requires |a| == |b|
    requires forall i :: 0 <= i < |a| ==> a[i].deviceId == b[i].deviceId && (a[i].deviceId == d ==> a[i] == b[i])
    ensures Active(a, d) == Active(b, d)
  {
    if a == [] {
    } else {
      ActiveSame(a[1..], b[1..], d);
    }
  }

  /** Nobody is trusted after an ingestion who had no chain before it. */
  lemma RootedAfter(c: Circle, p: Proofs, reach: iset<DeviceId>, r: Circle, d: DeviceId)
    requires MembersIngested(c, p, reach, r) && Closed(c, p, reach)
    requires r.id == c.id && r.creator == c.creator && Rooted(r, p, d)
    ensures d in reach
  {
    var n := |c.members|;
    var inviter := p.admissions[d].invitedBy;
    var head, tail := r.members[..n], r.members[n..];
    PendingBound(p.members, d);
    assert r.members == head + tail;
    ActiveAppend(head, tail, inviter);
    if inviter == d {
      assert Rooted(c, p, d);
    } else if Active(head, inviter).Some? {
      var i := ActiveFound(head, inviter);
      assert head[i] == r.members[i];
      ActiveSame(c.members, head, inviter);
      assert Rooted(c, p, d);
    } else {
      var i := ActiveFound(tail, inviter);
      assert tail[i] == r.members[n + i];
      assert Added(c, p, reach, r, r.members[n + i]);
      assert NewVoucher(c, p, inviter, d);
    }
  }

  /** Closing the ingested roster again adds nobody. */
  lemma ClosedAfter(c: Circle, p: Proofs, reach: iset<DeviceId>, r: Circle)
    requires MembersIngested(c, p, reach, r) && Closed(c, p, reach) && r.id == c.id && r.creator == c.creator
    ensures Closed(r, p, reach)
  {
    forall d | Rooted(r, p, d)
      ensures d in reach
    {
      RootedAfter(c, p, reach, r, d);
    }
  }

  /** Idempotence: ingesting the same input again changes nothing, not even the order of the members. */
  lemma IngestionIdempotent(c: Circle, p: Proofs, r: Circle, again: Circle)
    requires Ingested(c, p, r) && Ingested(r, p, again)
    ensures again == r
  {
    var reach := Trusted(c, p);
    TrustedIsLeast(c, p);
    ClosedAfter(c, p, reach, r);
    TrustedIsLeast(r, p);
    IdempotentOver(c, p, reach, r, Trusted(r, p), again);
  }

  lemma AddedWasUnknown(c: Circle, p: Proofs, reach: iset<DeviceId>, r: Circle, i: nat)
    requires MembersIngested(c, p, reach, r) && |c.members| <= i < |r.members|
    ensures r.members[i].deviceId in reach && !Known(c.members, r.members[i].deviceId)
  {
    assert Added(c, p, reach, r, r.members[i]);
  }

  lemma IdempotentOver(c: Circle, p: Proofs, reach: iset<DeviceId>, r: Circle, reach': iset<DeviceId>, again: Circle)
    requires IngestedOver(c, p, reach, r) && IngestedOver(r, p, reach', again) && reach' <= reach
    ensures again == r
  {
    var n := |r.members|;
    if |again.members| > n {
      AddedWasUnknown(r, p, reach', again, n);
      assert false;
    }
    SameKeys(r.members, again.members, c.creator);
    assert forall d :: RevokedBy(again, p, d) <==> RevokedBy(r, p, d);
    assert again.admissions == r.admissions;
    assert again.revocations == r.revocations;
    forall i | 0 <= i < n
      ensures again.members[i] == r.members[i]
    {
      assert i >= |c.members| ==> Added(c, p, reach, r, r.members[i]);
    }
  }
}
