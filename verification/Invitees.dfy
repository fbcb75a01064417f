/** The devices somebody brought in, directly or through their invitees (share_roster.go). */
module Invitees {
  import opened Identity
  import opened Circles
  import opened Collections

  predicate BroughtIn(c: Circle, inviter: DeviceId, d: DeviceId) {
    d != c.creator && Known(c.members, d) && d in c.admissions && c.admissions[d].invitedBy == inviter
  }

  /** A path of invitations from `device` that never enters the creator. */
  ghost predicate InvitePath(c: Circle, device: DeviceId, path: seq<DeviceId>) {
    var k := |path| - 1;
    if k < 0 then false
    else if k == 0 then path[0] == device
    else InvitePath(c, device, path[..k]) && BroughtIn(c, path[k - 1], path[k])
  }

  ghost predicate Reaches(c: Circle, device: DeviceId, d: DeviceId) {
    exists path :: InvitePath(c, device, path) && path[|path| - 1] == d
  }

  lemma ReachesFurther(c: Circle, device: DeviceId, inviter: DeviceId, d: DeviceId)
    requires Reaches(c, device, inviter) && BroughtIn(c, inviter, d)
    ensures Reaches(c, device, d)
  {
    var path :| InvitePath(c, device, path) && path[|path| - 1] == inviter;
    var longer := path + [d];
    assert longer[..|path|] == path;
    assert InvitePath(c, device, longer) && longer[|longer| - 1] == d;
  }

  lemma {:induction false} PathStaysIn(c: Circle, device: DeviceId, found: set<DeviceId>, path: seq<DeviceId>)
    requires device in found && forall x, d :: x in found && BroughtIn(c, x, d) ==> d in found
    requires InvitePath(c, device, path)
    ensures path[|path| - 1] in found
  {
    if |path| <= 1 {
    } else {
      PathStaysIn(c, device, found, path[..|path| - 1]);
    }
  }

  /** State of the walk: `out` was found, `queue` waits to be expanded, `expanded` was. */
  ghost predicate Walking(c: Circle, device: DeviceId, out: seq<DeviceId>, queue: seq<DeviceId>,
      seen: set<DeviceId>, expanded: set<DeviceId>) {
    && seen == Elements(out) + {device, c.creator}
    && device !in out && c.creator !in out && NoDuplicates(out)
    && (forall d :: d in out ==> Known(c.members, d))
    && (forall d :: d in queue ==> d == device || d in out)
    && (forall d :: d == device || d in out ==> d in queue || d in expanded)
    && (forall x, d :: x in expanded && BroughtIn(c, x, d) ==> d in seen)
  }

  ghost function Ids(members: seq<Member>): set<DeviceId> {
    set m | m in members :: m.deviceId
  }

  lemma OutFits(c: Circle, out: seq<DeviceId>)
    requires NoDuplicates(out) && forall d :: d in out ==> Known(c.members, d)
    ensures |out| <= |Ids(c.members)|
  {
    forall d | d in out
      ensures d in Ids(c.members)
    {
      var i := RecordFound(c.members, d);
    }
    FitsIn(out, Ids(c.members));
  }

  /** Exactly the members other than the device itself that its invitations reach without passing the creator. */
  method CircleInvitees(c: Circle, device: DeviceId) returns (out: seq<DeviceId>)
    ensures NoDuplicates(out)
    ensures forall d :: d in out <==> d != device && Reaches(c, device, d)
    ensures forall d :: d in out ==> Known(c.members, d) && d != c.creator
  {
    out := [];
    var queue := [device];
    var seen := {device, c.creator};
    ghost var expanded: set<DeviceId> := {};
    assert InvitePath(c, device, [device]) && [device][0] == device;
    while queue != []
      invariant Walking(c, device, out, queue, seen, expanded)
      invariant forall d :: d == device || d in out ==> Reaches(c, device, d)
      invariant |out| <= |Ids(c.members)|
      decreases 2 * (|Ids(c.members)| - |out|) + |queue|
    {
      var inviter := queue[0];
      ghost var before := out;
      var waiting := queue[1..];
      out, waiting, seen := Expand(c, device, inviter, out, waiting, seen, expanded);
      queue := waiting;
      expanded := expanded + {inviter};
      OutFits(c, out);
    }
    WalkDone(c, device, out, seen, expanded);
  }

  lemma WalkDone(c: Circle, device: DeviceId, out: seq<DeviceId>, seen: set<DeviceId>, expanded: set<DeviceId>)
    requires Walking(c, device, out, [], seen, expanded)
    ensures forall d :: Reaches(c, device, d) ==> d == device || d in out
  {
    var found := Elements(out) + {device};
    forall x, d | x in found && BroughtIn(c, x, d)
      ensures d in found
    {
      assert x in expanded;
    }
    forall d | Reaches(c, device, d)
      ensures d == device || d in out
    {
      var path :| InvitePath(c, device, path) && path[|path| - 1] == d;
      PathStaysIn(c, device, found, path);
    }
  }

  /** Expands one inviter: its unseen invitees, in roster order, join the result and the queue. */
  method Expand(c: Circle, device: DeviceId, inviter: DeviceId, found: seq<DeviceId>, waiting: seq<DeviceId>,
                known: set<DeviceId>, ghost expanded: set<DeviceId>)
    returns (out: seq<DeviceId>, queue: seq<DeviceId>, seen: set<DeviceId>)
    requires Walking(c, device, found, [inviter] + waiting, known, expanded)
    requires forall d :: d == device || d in found ==> Reaches(c, device, d)
    ensures Walking(c, device, out, queue, seen, expanded + {inviter})
    ensures forall d :: d == device || d in out ==> Reaches(c, device, d)
    ensures |out| - |found| == |queue| - |waiting| && |found| <= |out|
  {
    out, queue, seen := found, waiting, known;
    assert inviter in [inviter] + waiting;
    assert forall d :: d in [inviter] + waiting <==> d == inviter || d in waiting;
    for i := 0 to |c.members|
      invariant Walking(c, device, out, [inviter] + queue, seen, expanded)
      invariant forall d :: d == device || d in out ==> Reaches(c, device, d)
      invariant |out| - |found| == |queue| - |waiting| && |found| <= |out|
      invariant forall k :: 0 <= k < i && BroughtIn(c, inviter, c.members[k].deviceId) ==> c.members[k].deviceId in seen
    {
      var m := c.members[i];
      if m.deviceId in c.admissions && c.admissions[m.deviceId].invitedBy == inviter && m.deviceId !in seen {
        KnownAt(c.members, i);
        assert inviter in [inviter] + queue;
        ReachesFurther(c, device, inviter, m.deviceId);
        WalkAdds(c, device, out, queue, seen, expanded, inviter, m.deviceId);
        seen, out, queue := seen + {m.deviceId}, out + [m.deviceId], queue + [m.deviceId];
      }
    }
    forall d | BroughtIn(c, inviter, d)
      ensures d in seen
    {
      var k := RecordFound(c.members, d);
    }
    assert forall d :: d in [inviter] + queue <==> d == inviter || d in queue;
  }

  lemma WalkAdds(c: Circle, device: DeviceId, out: seq<DeviceId>, queue: seq<DeviceId>, seen: set<DeviceId>,
                 expanded: set<DeviceId>, inviter: DeviceId, d: DeviceId)
    requires Walking(c, device, out, [inviter] + queue, seen, expanded) && d !in seen && Known(c.members, d)
    ensures Walking(c, device, out + [d], [inviter] + (queue + [d]), seen + {d}, expanded)
  {
    assert forall x :: x in [inviter] + queue <==> x == inviter || x in queue;
    assert forall x :: x in [inviter] + (queue + [d]) <==> x == inviter || x in queue || x == d;
    assert Elements(out + [d]) == Elements(out) + {d};
  }
}
