/** Broker election and recovery of a circle's chat (share_mqtt.go). The order of device ids is the order of the
    numbers that stand for them. */
module Election {
  import opened Wrappers
  import opened Identity
  import opened Circles
  import opened Collections

  /** The devices that may host: members that are not revoked. */
  function ActiveIds(members: seq<Member>): set<DeviceId> {
    set i | 0 <= i < |members| && !members[i].revoked && members[i].deviceId != EMPTY :: members[i].deviceId
  }

  lemma {:induction false} LeastExists(ids: set<DeviceId>) returns (low: DeviceId)
    requires ids != {}
    ensures low in ids && forall y :: y in ids ==> low <= y
  {
    var x :| x in ids;
    low := x;
    var rest := ids - {x};
    if rest == {} {
    } else {
      var y := LeastExists(rest);
      if y < x {
        low := y;
      }
    }
    assert forall z :: z in ids ==> z == x || z in rest;
  }

  lemma HasLeast(ids: set<DeviceId>)
    requires ids != {}
    ensures exists x :: x in ids && forall y :: y in ids ==> x <= y
  {
    var low := LeastExists(ids);
  }

  ghost function Least(ids: set<DeviceId>): (x: DeviceId)
    requires ids != {}
    ensures x in ids && forall y :: y in ids ==> x <= y
  {
    HasLeast(ids);
    var x :| x in ids && forall y :: y in ids ==> x <= y;
    x
  }

  ghost function Above(ids: set<DeviceId>, id: DeviceId): set<DeviceId> {
    set x | x in ids && x > id
  }

  /** The creator when it can host; otherwise, among the others that can, the next id after the creator, or the
      least one when there is none after it or the creator is not active. */
  ghost function Elected(active: set<DeviceId>, creator: DeviceId, gone: set<DeviceId>): Option<DeviceId> {
    var able := active - gone;
    if creator in able then Some(creator)
    else if able == {} then None
    else if creator in active && Above(able, creator) != {} then Some(Least(Above(able, creator)))
    else Some(Least(able))
  }

  function Insert(x: DeviceId, sorted: seq<DeviceId>): seq<DeviceId> {
    if sorted == [] || x <= sorted[0] then [x] + sorted else [sorted[0]] + Insert(x, sorted[1..])
  }

  /** What sorting the list of ids gives. */
  function Sorted(ids: seq<DeviceId>): seq<DeviceId> {
    if ids == [] then [] else Insert(ids[0], Sorted(ids[1..]))
  }

  ghost predicate Ascending(ids: seq<DeviceId>) {
    forall i, j :: 0 <= i < j < |ids| ==> ids[i] < ids[j]
  }

  lemma {:induction false} InsertSet(x: DeviceId, sorted: seq<DeviceId>)
    ensures Elements(Insert(x, sorted)) == Elements(sorted) + {x}
  {
    if sorted == [] {
    } else {
      assert sorted == [sorted[0]] + sorted[1..];
      InsertSet(x, sorted[1..]);
      var later := Insert(x, sorted[1..]);
      assert forall y :: y in later <==> y in Elements(later);
    }
  }

  lemma {:induction false} InsertAscends(x: DeviceId, sorted: seq<DeviceId>)
    requires Ascending(sorted) && x !in sorted
    ensures Ascending(Insert(x, sorted))
  {
    if sorted == [] || x <= sorted[0] {
    } else {
      InsertAscends(x, sorted[1..]);
      InsertSet(x, sorted[1..]);
      var later := Insert(x, sorted[1..]);
      forall i | 0 <= i < |later|
        ensures sorted[0] < later[i]
      {
        assert later[i] in Elements(later);
      }
    }
  }

  lemma {:induction false} SortedAscends(ids: seq<DeviceId>)
    requires NoDuplicates(ids)
    ensures Ascending(Sorted(ids)) && Elements(Sorted(ids)) == Elements(ids)
  {
    if ids == [] {
    } else {
      SortedAscends(ids[1..]);
      assert ids == [ids[0]] + ids[1..];
      assert ids[0] !in Elements(ids[1..]);
      InsertSet(ids[0], Sorted(ids[1..]));
      InsertAscends(ids[0], Sorted(ids[1..]));
    }
  }

  /** Collects the active ids once each, sorts them, and walks the ring from the creator. */
  method ElectBroker(c: Circle, gone: set<DeviceId>) returns (host: Option<DeviceId>)
    ensures host == Elected(ActiveIds(c.members), c.creator, gone)
  {
    var seen: set<DeviceId> := {};
    var active: seq<DeviceId> := [];
    var i := 0;
    while i < |c.members|
      invariant 0 <= i <= |c.members|
      invariant seen == ActiveIds(c.members[..i]) == Elements(active) && NoDuplicates(active)
    {
      var m := c.members[i];
      assert c.members[..i + 1] == c.members[..i] + [m];
      ActiveIdsGrow(c.members[..i], m);
      if !(m.revoked || m.deviceId == EMPTY || m.deviceId in seen) {
        seen := seen + {m.deviceId};
        active := active + [m.deviceId];
      }
      i := i + 1;
    }
    assert c.members[..i] == c.members;
    SortedAscends(active);
    active := Sorted(active);
    var creator := c.creator;
    if creator in seen && creator !in gone {
      return Some(creator);
    }
    host := NextHost(active, creator, gone);
  }

  lemma ActiveIdsGrow(members: seq<Member>, m: Member)
    ensures ActiveIds(members + [m])
      == ActiveIds(members) + if m.revoked || m.deviceId == EMPTY then {} else {m.deviceId}
  {
    var all := members + [m];
    forall id | id in ActiveIds(members)
      ensures id in ActiveIds(all)
    {
      var i :| 0 <= i < |members| && !members[i].revoked && members[i].deviceId != EMPTY && members[i].deviceId == id;
      assert all[i] == members[i];
    }
    assert all[|members|] == m;
  }

  lemma {:induction false} ActiveFew(members: seq<Member>)
    ensures |ActiveIds(members)| <= |members|
  {
    if members == [] {
    } else {
      var n := |members| - 1;
      assert members == members[..n] + [members[n]];
      ActiveFew(members[..n]);
      ActiveIdsGrow(members[..n], members[n]);
      assert ActiveIds(members) <= ActiveIds(members[..n]) + {members[n].deviceId};
      SubsetSize(ActiveIds(members), ActiveIds(members[..n]) + {members[n].deviceId});
    }
  }

  method NextHost(active: seq<DeviceId>, creator: DeviceId, gone: set<DeviceId>) returns (host: Option<DeviceId>)
    requires Ascending(active) && (creator in active ==> creator in gone)
    ensures host == Elected(Elements(active), creator, gone)
  {
    var start := 0;
    var i := 0;
    while i < |active|
      invariant 0 <= i <= |active|
      invariant start == 0 && forall k :: 0 <= k < i ==> active[k] != creator
    {
      if active[i] == creator {
        start := i + 1;
        break;
      }
      i := i + 1;
    }
    hide Elected, Elements;
    var n := 0;
    while n < |active|
      invariant 0 <= n <= |active|
      invariant forall k :: start <= k < start + n && k < |active| ==> active[k] in gone
      invariant forall k :: 0 <= k < start + n - |active| && k < |active| ==> active[k] in gone
    {
      RingIndex(start + n, |active|);
      var at := (start + n) % |active|;
      var id := active[at];
      if !(id == creator || id in gone) {
        FirstAble(active, creator, gone, start, at);
        return Some(id);
      }
      n := n + 1;
    }
    NoneAble(active, creator, gone);
    return None;
  }

  lemma RingIndex(i: nat, length: nat)
    requires i < 2 * length
    ensures i % length == if i < length then i else i - length
  {
  }

  lemma NoneAble(active: seq<DeviceId>, creator: DeviceId, gone: set<DeviceId>)
    requires forall k :: 0 <= k < |active| ==> active[k] in gone
    ensures Elected(Elements(active), creator, gone) == None
  {
    assert Elements(active) - gone == {};
  }

  /** The ring position found first is the elected one. */
  lemma FirstAble(active: seq<DeviceId>, creator: DeviceId, gone: set<DeviceId>, start: nat, at: nat)
    requires Ascending(active) && (creator in active ==> creator in gone)
    requires (start == 0 && creator !in active) || (0 < start <= |active| && active[start - 1] == creator)
    requires at < |active| && active[at] !in gone
    requires forall k :: start <= k < |active| && (k < at || at < start) ==> active[k] in gone
    requires at < start ==> forall k :: 0 <= k < at ==> active[k] in gone
    ensures Elected(Elements<DeviceId>(active), creator, gone) == Some(active[at])
  {
    var able := Elements<DeviceId>(active) - gone;
    var id := active[at];
    assert id in able;
    if creator in active && at >= start {
      assert id in Above(able, creator);
      forall x | x in Above(able, creator)
        ensures id <= x
      {
        var k :| 0 <= k < |active| && active[k] == x;
        assert k >= start;
      }
    } else {
      forall x | x in able
        ensures id <= x && !(creator in active && x > creator)
      {
        var k :| 0 <= k < |active| && active[k] == x;
      }
      assert creator in active ==> Above(able, creator) == {};
      assert creator !in able && able != {} && Least(able) == id;
    }
  }

  /** There is a broker if and only if some active member is not gone, and it is one of those. */
  lemma ElectsIff(active: set<DeviceId>, creator: DeviceId, gone: set<DeviceId>)
    ensures Elected(active, creator, gone).Some? <==> active - gone != {}
    ensures Elected(active, creator, gone).Some? ==> Elected(active, creator, gone).value in active - gone
  {
  }

  /** Neither the order of the list nor repeated or revoked records matter to the election. */
  lemma ElectionCanonical(c: Circle, d: Circle, gone: set<DeviceId>)
    requires c.creator == d.creator
    requires forall m: Member :: !m.revoked ==> (m in c.members <==> m in d.members)
    ensures Elected(ActiveIds(c.members), c.creator, gone) == Elected(ActiveIds(d.members), d.creator, gone)
  {
    SameActive(c.members, d.members);
    SameActive(d.members, c.members);
    assert ActiveIds(c.members) == ActiveIds(d.members);
  }

  lemma SameActive(a: seq<Member>, b: seq<Member>)
    requires forall m: Member :: !m.revoked && m in a ==> m in b
    ensures ActiveIds(a) <= ActiveIds(b)
  {
    forall id | id in ActiveIds(a)
      ensures id in ActiveIds(b)
    {
      var i :| 0 <= i < |a| && !a[i].revoked && a[i].deviceId != EMPTY && a[i].deviceId == id;
      assert a[i] in b;
      var j :| 0 <= j < |b| && b[j] == a[i];
    }
  }

  /** A host that fails is followed by another one, and one that is back wins again: with more hosts gone the
      election moves on only when the elected one is gone. */
  lemma ElectionStable(active: set<DeviceId>, creator: DeviceId, gone: set<DeviceId>, more: set<DeviceId>)
    requires gone <= more && Elected(active, creator, gone).Some? && Elected(active, creator, gone).value !in more
    ensures Elected(active, creator, more) == Elected(active, creator, gone)
  {
    var id := Elected(active, creator, gone).value;
    var able, less := active - gone, active - more;
    assert id in less && less <= able;
    if creator !in able && creator in active {
      assert Above(less, creator) <= Above(able, creator);
      if Above(able, creator) != {} {
        assert id in Above(less, creator);
      }
    }
  }
}
