/** Removing a device (circle_manage.go, share_keys_exchange.go): the preview says exactly what the removal does. */
module Removal {
  import opened Wrappers
  import opened Identity
  import opened Circles
  import opened Collections
  import opened RosterSteps
  import opened Keys
  import opened Invitees

  datatype Plan = Plan(targets: seq<DeviceId>, invitees: seq<DeviceId>, cutOff: seq<DeviceId>, nextEpoch: nat)

  /** The preview's cut-off list, in roster order: recipients that stay and have no key-agreement record. */
  function PlannedCutOff(c: Circle, self: Self, targets: seq<DeviceId>, members: seq<Member>): seq<DeviceId> {
    if members == [] then []
    else
      var m := members[|members| - 1];
      PlannedCutOff(c, self, targets, members[..|members| - 1]) +
        if Recipient(self, m) && m.deviceId !in targets && m.deviceId !in c.kexKeys then [m.deviceId] else []
  }

  function ActiveOnly(c: Circle, devices: seq<DeviceId>): seq<DeviceId> {
    if devices == [] then []
    else
      var last := devices[|devices| - 1];
      ActiveOnly(c, devices[..|devices| - 1]) + if Active(c.members, last).Some? then [last] else []
  }

  lemma {:induction false} ActiveOnlyFilters(c: Circle, devices: seq<DeviceId>)
    ensures forall d :: d in ActiveOnly(c, devices) <==> d in devices && Active(c.members, d).Some?
    ensures NoDuplicates(devices) ==> NoDuplicates(ActiveOnly(c, devices))
  {
    if devices == [] {
    } else {
      var front, last := devices[..|devices| - 1], devices[|devices| - 1];
      ActiveOnlyFilters(c, front);
      assert devices == front + [last];
      assert forall d :: d in devices <==> d in front || d == last;
    }
  }

  /** Checks that this device may remove the target and says what removing it does. */
  method PlanRevoke(c: Circle, self: Self, target: DeviceId, withInvitees: bool) returns (r: Result<Plan>)
    ensures r.Err? <==> c.creator != self.device || target == c.creator || Active(c.members, target).None?
    ensures r.Ok? ==> NoDuplicates(r.value.invitees) && forall d :: d in r.value.invitees <==>
      d != target && Reaches(c, target, d) && Active(c.members, d).Some?
    ensures r.Ok? ==> r.value.targets == [target] + if withInvitees then r.value.invitees else []
    ensures r.Ok? ==> r.value.cutOff == PlannedCutOff(c, self, r.value.targets, c.members)
    ensures r.Ok? ==> r.value.nextEpoch == c.keyEpoch + 1
    ensures r.Ok? ==> Removable(c, self, r.value.targets)
  {
    if c.creator != self.device {
      return Err("only the circle creator can remove devices");
    }
    if target == c.creator {
      return Err("the circle creator cannot be removed");
    }
    if Active(c.members, target).None? {
      return Err("that device is not in this circle");
    }
    var brought := CircleInvitees(c, target);
    var invitees := KeepActive(c, brought);
    var targets := [target];
    if withInvitees {
      targets := targets + invitees;
    }
    var cutOff := PreviewCutOff(c, self, targets);
    ghost var at := ActiveFound(c.members, target);
    KnownAt(c.members, at);
    assert forall d :: d in targets ==> d == target || d in invitees;
    r := Ok(Plan(targets, invitees, cutOff, c.keyEpoch + 1));
  }

  method KeepActive(c: Circle, devices: seq<DeviceId>) returns (kept: seq<DeviceId>)
    ensures forall d :: d in kept <==> d in devices && Active(c.members, d).Some?
    ensures NoDuplicates(devices) ==> NoDuplicates(kept)
  {
    kept := [];
    for i := 0 to |devices|
      invariant kept == ActiveOnly(c, devices[..i])
    {
      assert devices[..i + 1][..i] == devices[..i];
      if Active(c.members, devices[i]).Some? {
        kept := kept + [devices[i]];
      }
    }
    assert devices[..|devices|] == devices;
    ActiveOnlyFilters(c, devices);
  }

  method PreviewCutOff(c: Circle, self: Self, targets: seq<DeviceId>) returns (cutOff: seq<DeviceId>)
    ensures cutOff == PlannedCutOff(c, self, targets, c.members)
  {
    cutOff := [];
    for i := 0 to |c.members|
      invariant cutOff == PlannedCutOff(c, self, targets, c.members[..i])
    {
      var m := c.members[i];
      assert c.members[..i + 1][..i] == c.members[..i];
      if !(m.revoked || m.deviceId == self.device || m.deviceId in targets) && m.deviceId !in c.kexKeys {
        cutOff := cutOff + [m.deviceId];
      }
    }
    assert c.members[..|c.members|] == c.members;
  }

  /** Every target can be removed by this actor. */
  ghost predicate Removable(c: Circle, self: Self, targets: seq<DeviceId>) {
    c.creator == self.device && forall d :: d in targets ==> d != c.creator && Known(c.members, d)
  }

  /** Removes each target in turn, then rotates the key once. */
  function AllRemoved(c: Circle, self: Self, targets: seq<DeviceId>, now: Text): Result<Circle> {
    if targets == [] then Ok(c)
    else
      var before := AllRemoved(c, self, targets[..|targets| - 1], now);
      if before.Err? then before else Removed(before.value, self, targets[|targets| - 1], now)
  }

  /** What is stored when a removal fails: every target before the one that failed stays removed. */
  ghost predicate StoppedAt(c: Circle, self: Self, targets: seq<DeviceId>, now: Text, n: nat, stored: Circle) {
    && n < |targets| && AllRemoved(c, self, targets[..n], now) == Ok(stored)
    && Removed(stored, self, targets[n], now).Err?
  }

  method RevokeAndRotate(c: CircleRecord, self: Self, targets: seq<DeviceId>, key: Bytes, now: Text)
    returns (r: Result<seq<DeviceId>>)
    modifies c
    ensures match AllRemoved(old(c.Value()), self, targets, now)
            case Err(e) => r.Err? && exists n :: StoppedAt(old(c.Value()), self, targets, now, n, c.Value())
            case Ok(mid) =>
              match Rekeyed(mid, self, key, now)
              case Err(e) => r == Err(e) && c.Value() == mid
              case Ok(after) => r == Ok(CutOff(mid, self, mid.members)) && c.Value() == after
  {
    for i := 0 to |targets|
      invariant AllRemoved(old(c.Value()), self, targets[..i], now) == Ok(c.Value())
    {
      assert targets[..i + 1][..i] == targets[..i];
      var done := RevokeMember(c, self, targets[i], now);
      if done.Err? {
        assert StoppedAt(old(c.Value()), self, targets, now, i, c.Value());
        FailureStays(old(c.Value()), self, targets, now, i + 1);
        return Err(done.reason);
      }
    }
    assert targets[..|targets|] == targets;
    r := RekeyCircle(c, self, key, now);
  }

  lemma {:induction false} FailureStays(c: Circle, self: Self, targets: seq<DeviceId>, now: Text, i: nat)
    requires i <= |targets| && AllRemoved(c, self, targets[..i], now).Err?
    ensures AllRemoved(c, self, targets, now).Err?
    decreases |targets| - i
  {
    if i == |targets| {
      assert targets[..i] == targets;
    } else {
      assert targets[..i + 1][..i] == targets[..i];
      FailureStays(c, self, targets, now, i + 1);
    }
  }

  /** The members after every target was marked revoked. */
  ghost predicate MarkedRevoked(members: seq<Member>, targets: seq<DeviceId>, after: seq<Member>) {
    |after| == |members| && forall i :: 0 <= i < |members| ==>
      after[i] == members[i].(revoked := members[i].revoked || members[i].deviceId in targets)
  }

  /** What removing the targets leaves: exactly them marked and revoked, the keys as they were. */
  ghost predicate TargetsRevoked(c: Circle, targets: seq<DeviceId>, r: Circle) {
    && MarkedRevoked(c.members, targets, r.members)
    && r == c.(members := r.members, revocations := r.revocations)
    && (forall d :: d in r.revocations <==> d in c.revocations || d in targets)
  }

  lemma RemoveOneMore(c: Circle, self: Self, front: seq<DeviceId>, before: Circle, last: DeviceId, now: Text)
    requires c.creator == self.device && last != c.creator && Known(c.members, last)
    requires TargetsRevoked(c, front, before)
    ensures Removed(before, self, last, now).Ok?
    ensures TargetsRevoked(c, front + [last], Removed(before, self, last, now).value)
  {
    var k := RecordFound(c.members, last);
    assert before.members[k].deviceId == last;
    KnownAt(before.members, k);
    assert forall d :: d in front + [last] <==> d in front || d == last;
  }

  /** Removing removable targets never fails, marks exactly them, and leaves the keys alone. */
  lemma {:induction false} RemovalSucceeds(c: Circle, self: Self, targets: seq<DeviceId>, now: Text)
    requires Removable(c, self, targets)
    ensures AllRemoved(c, self, targets, now).Ok?
    ensures TargetsRevoked(c, targets, AllRemoved(c, self, targets, now).value)
  {
    if targets == [] {
    } else {
      var front, last := targets[..|targets| - 1], targets[|targets| - 1];
      assert targets == front + [last];
      assert forall d :: d in targets <==> d in front || d == last;
      RemovalSucceeds(c, self, front, now);
      assert last in targets;
      RemoveOneMore(c, self, front, AllRemoved(c, self, front, now).value, last, now);
    }
  }

  /** Key-agreement records of the members that stay hold usable keys. */
  predicate RecordsUsable(c: Circle, self: Self, targets: seq<DeviceId>, members: seq<Member>) {
    forall m | m in members :: Recipient(self, m) && m.deviceId !in targets && m.deviceId in c.kexKeys ==>
      c.kexKeys[m.deviceId].publicKey.Kex?
  }

  /** The preview's cut-off list is the rotation's exactly when every record of a remaining member is usable. */
  lemma {:induction false} CutOffAgrees(c: Circle, mid: Circle, self: Self, targets: seq<DeviceId>,
      members: seq<Member>, after: seq<Member>)
    requires MarkedRevoked(members, targets, after) && mid.kexKeys == c.kexKeys
    ensures |PlannedCutOff(c, self, targets, members)| <= |CutOff(mid, self, after)|
    ensures PlannedCutOff(c, self, targets, members) == CutOff(mid, self, after) <==>
      RecordsUsable(c, self, targets, members)
  {
    if members == [] {
    } else {
      var n := |members| - 1;
      var front, last := members[..n], members[n];
      CutOffAgrees(c, mid, self, targets, front, after[..n]);
      assert members == front + [last];
      assert forall m :: m in members <==> m in front || m == last;
      var p, q, d := PlannedCutOff(c, self, targets, front), CutOff(mid, self, after[..n]), last.deviceId;
      if !Recipient(self, last) || d in targets {
        assert CutOff(mid, self, after) == q + [] == q && PlannedCutOff(c, self, targets, members) == p + [] == p;
      } else if d !in c.kexKeys {
        assert CutOff(mid, self, after) == q + [d] && PlannedCutOff(c, self, targets, members) == p + [d];
        assert p == (p + [d])[..|p|] && q == (q + [d])[..|q|];
      } else if c.kexKeys[d].publicKey.Kex? {
        assert CutOff(mid, self, after) == q + [] == q && PlannedCutOff(c, self, targets, members) == p + [] == p;
      } else {
        assert CutOff(mid, self, after) == q + [d] && PlannedCutOff(c, self, targets, members) == p + [] == p;
        assert !RecordsUsable(c, self, targets, members);
      }
    }
  }

  /** Preview equals result: on the same circle the removal of a plan's targets succeeds, revokes exactly those
      targets on top of what was revoked, moves to the planned epoch, and leaves exactly the planned members
      without the new key if and only if the records of the members that stay are usable. */
  lemma PreviewEqualsResult(c: Circle, self: Self, targets: seq<DeviceId>, key: Bytes, now: Text)
    requires Removable(c, self, targets)
    ensures AllRemoved(c, self, targets, now).Ok?
    ensures var mid := AllRemoved(c, self, targets, now).value;
      && Rekeyed(mid, self, key, now).Ok?
      && var after := Rekeyed(mid, self, key, now).value;
      && after.keyEpoch == c.keyEpoch + 1
      && MarkedRevoked(c.members, targets, after.members)
      && (forall d :: d in after.revocations <==> d in c.revocations || d in targets)
      && (CutOff(mid, self, mid.members) == PlannedCutOff(c, self, targets, c.members) <==>
            RecordsUsable(c, self, targets, c.members))
  {
    RemovalSucceeds(c, self, targets, now);
    var mid := AllRemoved(c, self, targets, now).value;
    CutOffAgrees(c, mid, self, targets, c.members, mid.members);
  }
}
