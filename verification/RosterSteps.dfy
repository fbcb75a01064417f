/** The other steps a stored roster takes (share_roster.go, share_circle.go, share_peers.go): vouching, removal,
    and merging a peer's hints. Each is given by value and as the loop that updates the stored record. */
module RosterSteps {
  import opened Wrappers
  import opened Identity
  import opened Circles
  import opened Roster
  import opened RosterIngest

  /** A core's own device id and signing key. */
  datatype Self = Self(device: DeviceId, key: PublicKey)

  const EMPTY_KEY := Undecodable(EMPTY)

  function SignRevocationFor(c: Circle, self: Self, d: DeviceId, now: Text): Circle {
    if d in c.revocations || d == c.creator then c
    else c.(revocations := c.revocations[d := SignRevocation(self.key, c.id, d, now)])
  }

  function VouchFor(c: Circle, self: Self, m: Member, now: Text): Circle {
    if m.revoked then
      if self.device == c.creator then SignRevocationFor(c, self, m.deviceId, now) else c
    else if m.deviceId in c.admissions || !MemberKeyBound(m.deviceId, m.publicKey) then c
    else if m.deviceId == self.device && self.device != c.creator then c
    else Admit(c, m, SignAdmission(self.key, c.id, m, self.device, now))
  }

  function VouchForAll(c: Circle, self: Self, members: seq<Member>, now: Text): Circle {
    if members == [] then c
    else VouchFor(VouchForAll(c, self, members[..|members| - 1], now), self, members[|members| - 1], now)
  }

  function Vouched(c: Circle, self: Self, now: Text): Circle {
    if Active(c.members, self.device).None? then c else VouchForAll(c, self, c.members, now)
  }

  method VouchMembers(c: CircleRecord, self: Self, now: Text)
    modifies c
    ensures c.Value() == Vouched(old(c.Value()), self, now)
  {
    if Active(c.members, self.device).None? {
      return;
    }
    var members := c.members;
    ghost var start := c.Value();
    for i := 0 to |members|
      invariant c.Value() == VouchForAll(start, self, members[..i], now)
    {
      var m := members[i];
      assert members[..i + 1][..i] == members[..i];
      if m.revoked {
        if self.device == c.creator && m.deviceId !in c.revocations && m.deviceId != c.creator {
          c.revocations := c.revocations[m.deviceId := SignRevocation(self.key, c.id, m.deviceId, now)];
        }
      } else if m.deviceId in c.admissions || !MemberKeyBound(m.deviceId, m.publicKey) {
      } else if m.deviceId == self.device && self.device != c.creator {
      } else {
        AdmitMember(c, m, SignAdmission(self.key, c.id, m, self.device, now));
      }
    }
    assert members[..|members|] == members;
  }

  /** The device is one this core vouches for: active, bound to its key, and not itself unless it is the creator. */
  predicate Vouchable(c: Circle, self: Self, m: Member) {
    !m.revoked && MemberKeyBound(m.deviceId, m.publicKey) && (m.deviceId != self.device || self.device == c.creator)
  }

  /** A new admission names this core, verifies under its key, and admits one of the members it vouches for. */
  ghost predicate VouchesMember(c: Circle, self: Self, members: seq<Member>, d: DeviceId, adm: Admission) {
    exists i :: 0 <= i < |members| && members[i].deviceId == d && Vouchable(c, self, members[i])
      && adm.invitedBy == self.device && VerifyAdmission(c.id, members[i], adm, self.key)
  }

  ghost predicate AdmissionsVouched(c: Circle, self: Self, members: seq<Member>, admissions: map<DeviceId, Admission>) {
    && (forall d :: d in c.admissions ==> d in admissions && admissions[d] == c.admissions[d])
    && (forall i :: 0 <= i < |members| && Vouchable(c, self, members[i]) ==> members[i].deviceId in admissions)
    && (forall d :: d in admissions && d !in c.admissions ==> VouchesMember(c, self, members, d, admissions[d]))
  }

  ghost predicate RevocationsVouched(c: Circle, self: Self, members: seq<Member>,
      revocations: map<DeviceId, Revocation>) {
    && (forall d :: d in c.revocations ==> d in revocations && revocations[d] == c.revocations[d])
    && (self.device == c.creator ==>
          forall m :: m in members && m.revoked && m.deviceId != c.creator ==> m.deviceId in revocations)
    && (forall d :: d in revocations && d !in c.revocations ==>
          && d != c.creator && self.device == c.creator && VerifyRevocation(c.id, d, revocations[d], self.key)
          && exists i :: 0 <= i < |members| && members[i].deviceId == d && members[i].revoked)
  }

  /** What vouching establishes: no member changes and no proof is replaced, whatever this core can vouch for
      has a proof afterwards, and every new proof verifies under this core's key. */
  ghost predicate VouchedFor(c: Circle, self: Self, members: seq<Member>, r: Circle) {
    && r == c.(admissions := r.admissions, revocations := r.revocations)
    && AdmissionsVouched(c, self, members, r.admissions)
    && RevocationsVouched(c, self, members, r.revocations)
  }

  lemma {:induction false} VouchingEstablishes(c: Circle, self: Self, members: seq<Member>, now: Text)
    requires forall i :: 0 <= i < |members| ==> Known(c.members, members[i].deviceId)
    requires self.key.DeviceKey?
    ensures VouchedFor(c, self, members, VouchForAll(c, self, members, now))
  {
    if members == [] {
    } else {
      var front, m := members[..|members| - 1], members[|members| - 1];
      VouchingEstablishes(c, self, front, now);
      var before := VouchForAll(c, self, front, now);
      assert members == front + [m];
      VouchAdmissions(c, self, front, m, before, now);
      VouchRevocations(c, self, front, m, before, now);
    }
  }

  lemma VouchesMore(c: Circle, self: Self, front: seq<Member>, m: Member, d: DeviceId, adm: Admission)
    requires VouchesMember(c, self, front, d, adm)
    ensures VouchesMember(c, self, front + [m], d, adm)
  {
    var i :| 0 <= i < |front| && front[i].deviceId == d && Vouchable(c, self, front[i])
      && adm.invitedBy == self.device && VerifyAdmission(c.id, front[i], adm, self.key);
    assert (front + [m])[i] == front[i];
  }

  lemma VouchAdmissions(c: Circle, self: Self, front: seq<Member>, m: Member, before: Circle, now: Text)
    requires AdmissionsVouched(c, self, front, before.admissions)
    requires before.members == c.members && before.id == c.id && before.creator == c.creator
    requires self.key.DeviceKey?
    ensures AdmissionsVouched(c, self, front + [m], VouchFor(before, self, m, now).admissions)
  {
    var r := VouchFor(before, self, m, now).admissions;
    var members := front + [m];
    assert members[|front|] == m;
    forall i | 0 <= i < |members| && Vouchable(c, self, members[i])
      ensures members[i].deviceId in r
    {
      assert i < |front| ==> members[i] == front[i];
    }
    forall d | d in r && d !in c.admissions
      ensures VouchesMember(c, self, members, d, r[d])
    {
      if d in before.admissions {
        VouchesMore(c, self, front, m, d, r[d]);
      } else {
        assert Vouchable(c, self, members[|front|]) && VerifyAdmission(c.id, members[|front|], r[d], self.key);
      }
    }
  }

  lemma VouchRevocations(c: Circle, self: Self, front: seq<Member>, m: Member, before: Circle, now: Text)
    requires RevocationsVouched(c, self, front, before.revocations)
    requires before.id == c.id && before.creator == c.creator && self.key.DeviceKey?
    ensures RevocationsVouched(c, self, front + [m], VouchFor(before, self, m, now).revocations)
  {
    var r := VouchFor(before, self, m, now);
    var members := front + [m];
    forall d | d in r.revocations && d !in c.revocations
      ensures exists i :: 0 <= i < |members| && members[i].deviceId == d && members[i].revoked
    {
      if d in before.revocations {
        var i :| 0 <= i < |front| && front[i].deviceId == d && front[i].revoked;
        assert members[i] == front[i];
      } else {
        assert members[|front|] == m;
      }
    }
  }

  lemma MembersKnown(members: seq<Member>)
    ensures forall i :: 0 <= i < |members| ==> Known(members, members[i].deviceId)
  {
    forall i | 0 <= i < |members| {
      KnownAt(members, i);
    }
  }

  /** A removal: only the creator may, nobody removes the creator, and the device must be listed. */
  function Removed(c: Circle, actor: Self, device: DeviceId, now: Text): Result<Circle> {
    if c.creator != actor.device then Err("only circle creator can revoke members")
    else if device == c.creator then Err("the circle creator cannot be revoked")
    else if !Known(c.members, device) then Err("member not found")
    else Ok(SignRevocationFor(c.(members := MarkRevoked(c.members, device)), actor, device, now))
  }

  method RevokeMember(c: CircleRecord, actor: Self, device: DeviceId, now: Text) returns (r: Result<()>)
    modifies c
    ensures match Removed(old(c.Value()), actor, device, now)
            case Err(e) => r == Err(e) && c.Value() == old(c.Value())
            case Ok(after) => r == Ok(()) && c.Value() == after
  {
    if c.creator != actor.device {
      return Err("only circle creator can revoke members");
    }
    if device == c.creator {
      return Err("the circle creator cannot be revoked");
    }
    ghost var was := c.members;
    var found := false;
    for i := 0 to |c.members|
      invariant |c.members| == |was|
      invariant c.members[..i] == MarkRevoked(was, device)[..i] && c.members[i..] == was[i..]
      invariant found <==> exists k :: 0 <= k < i && was[k].deviceId == device
      invariant c.Value() == old(c.Value()).(members := c.members)
      invariant !found ==> c.members == was
    {
      assert c.members[i] == c.members[i..][0] == was[i..][0] == was[i];
      if c.members[i].deviceId == device {
        c.members := c.members[i := c.members[i].(revoked := true)];
        found := true;
      }
    }
    if Known(was, device) {
      var k := RecordFound(was, device);
    }
    if !found {
      return Err("member not found");
    }
    ghost var k :| 0 <= k < |was| && was[k].deviceId == device;
    KnownAt(was, k);
    if device !in c.revocations && device != c.creator {
      c.revocations := c.revocations[device := SignRevocation(actor.key, c.id, device, now)];
    }
    r := Ok(());
  }

  function MergeMember(local: Member, incoming: Member): Member {
    local.(publicKey := if local.publicKey == EMPTY_KEY then incoming.publicKey else local.publicKey,
           endpoint := if incoming.endpoint != EMPTY then incoming.endpoint else local.endpoint,
           remoteAddr := if incoming.remoteAddr != EMPTY then incoming.remoteAddr else local.remoteAddr,
           hostname := if incoming.hostname != EMPTY then incoming.hostname else local.hostname,
           lastSeen := if incoming.lastSeen != EMPTY then incoming.lastSeen else local.lastSeen,
           addedAt := if local.addedAt == EMPTY then incoming.addedAt else local.addedAt)
  }

  /** Merges a record into the first one of its device, or appends it when it carries a key. */
  function Upsert(members: seq<Member>, m: Member, now: Text): seq<Member> {
    if m.deviceId == EMPTY || (m.publicKey != EMPTY_KEY && !MemberKeyBound(m.deviceId, m.publicKey)) then members
    else if members == [] then
      if m.publicKey == EMPTY_KEY then [] else [m.(addedAt := if m.addedAt == EMPTY then now else m.addedAt)]
    else if members[0].deviceId == m.deviceId then [MergeMember(members[0], m)] + members[1..]
    else [members[0]] + Upsert(members[1..], m, now)
  }

  method UpsertMember(c: CircleRecord, m: Member, now: Text)
    modifies c
    ensures c.Value() == old(c.Value()).(members := Upsert(old(c.members), m, now))
  {
    if m.deviceId == EMPTY || (m.publicKey != EMPTY_KEY && !MemberKeyBound(m.deviceId, m.publicKey)) {
      return;
    }
    var i := 0;
    while i < |c.members| && c.members[i].deviceId != m.deviceId
      invariant 0 <= i <= |c.members|
      invariant forall k :: 0 <= k < i ==> c.members[k].deviceId != m.deviceId
    {
      i := i + 1;
    }
    UpsertAt(c.members, m, now, i);
    if i < |c.members| {
      c.members := c.members[i := MergeMember(c.members[i], m)];
    } else if m.publicKey != EMPTY_KEY {
      c.members := c.members + [m.(addedAt := if m.addedAt == EMPTY then now else m.addedAt)];
    }
  }

  lemma {:induction false} UpsertAt(members: seq<Member>, m: Member, now: Text, i: nat)
    requires i <= |members| && forall k :: 0 <= k < i ==> members[k].deviceId != m.deviceId
    requires i < |members| ==> members[i].deviceId == m.deviceId
    requires m.deviceId != EMPTY && (m.publicKey == EMPTY_KEY || MemberKeyBound(m.deviceId, m.publicKey))
    ensures i < |members| ==> Upsert(members, m, now) == members[i := MergeMember(members[i], m)]
    ensures i == |members| && m.publicKey == EMPTY_KEY ==> Upsert(members, m, now) == members
    ensures i == |members| && m.publicKey != EMPTY_KEY ==>
      Upsert(members, m, now) == members + [m.(addedAt := if m.addedAt == EMPTY then now else m.addedAt)]
  {
    if i == 0 {
    } else {
      UpsertAt(members[1..], m, now, i - 1);
    }
  }

  /** The hints of an incoming record: everything but the key, the date and the revocation. */
  function Hints(m: Member): Member {
    Member(m.deviceId, EMPTY_KEY, EMPTY, false, m.endpoint, m.remoteAddr, m.hostname, m.lastSeen)
  }

  predicate TakesHints(members: seq<Member>, self: Self, m: Member) {
    && m.deviceId != EMPTY && m.deviceId != self.device && Known(members, m.deviceId)
    && (m.publicKey == EMPTY_KEY || MemberKeyBound(m.deviceId, m.publicKey))
  }

  function HintsMerged(members: seq<Member>, self: Self, incoming: seq<Member>, now: Text): seq<Member> {
    if incoming == [] then members
    else
      var before := HintsMerged(members, self, incoming[..|incoming| - 1], now);
      var m := incoming[|incoming| - 1];
      if TakesHints(before, self, m) then Upsert(before, Hints(m), now) else before
  }

  function PeerRosterMerged(c: Circle, self: Self, incoming: seq<Member>, now: Text): Circle {
    Vouched(c.(members := HintsMerged(c.members, self, incoming, now)), self, now)
  }

  method MergePeerRoster(c: CircleRecord, self: Self, incoming: seq<Member>, now: Text)
    modifies c
    ensures c.Value() == PeerRosterMerged(old(c.Value()), self, incoming, now)
  {
    for i := 0 to |incoming|
      invariant c.Value() == old(c.Value()).(members := HintsMerged(old(c.members), self, incoming[..i], now))
    {
      var m := incoming[i];
      assert incoming[..i + 1][..i] == incoming[..i];
      if TakesHints(c.members, self, m) {
        UpsertMember(c, Hints(m), now);
      }
    }
    assert incoming[..|incoming|] == incoming;
    VouchMembers(c, self, now);
  }

  /** Same devices, keys, dates and revocations in the same places: only hints may differ. */
  ghost predicate OnlyHintsDiffer(a: seq<Member>, b: seq<Member>) {
    |a| == |b| && forall i :: 0 <= i < |a| ==>
      a[i] == b[i].(endpoint := a[i].endpoint, remoteAddr := a[i].remoteAddr, hostname := a[i].hostname,
                    lastSeen := a[i].lastSeen)
  }

  lemma {:induction false} UpsertHints(members: seq<Member>, m: Member, now: Text)
    requires Known(members, m.deviceId)
    ensures OnlyHintsDiffer(members, Upsert(members, Hints(m), now))
  {
    if m.deviceId != EMPTY && members[0].deviceId != m.deviceId {
      UpsertHints(members[1..], m, now);
      assert forall i :: 0 < i < |members| ==> members[i] == members[1..][i - 1];
    }
  }

  /** A peer's unsigned member records never add, remove, rekey or revoke anyone. */
  lemma {:induction false} MergeOnlyHints(members: seq<Member>, self: Self, incoming: seq<Member>, now: Text)
    ensures OnlyHintsDiffer(members, HintsMerged(members, self, incoming, now))
  {
    if incoming == [] {
    } else {
      var front, m := incoming[..|incoming| - 1], incoming[|incoming| - 1];
      MergeOnlyHints(members, self, front, now);
      var before := HintsMerged(members, self, front, now);
      if TakesHints(before, self, m) {
        UpsertHints(before, m, now);
      }
    }
  }
}
