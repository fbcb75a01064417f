/** What each operation on control leases leaves in the store and answers, in terms of the sessions and leases. */
module LeaseEffects {
  import opened Wrappers
  import opened Identity
  import opened Leases

  /** The lease found is the first unrevoked one of the session with the highest epoch; none is found if and only if the
      session has none. */
  lemma {:induction false} ActiveIs(leases: seq<Lease>, sid: Text)
    ensures match Active(leases, sid)
      case None => forall i :: 0 <= i < |leases| ==> leases[i].session != sid || leases[i].revoked
      case Some(l) => exists i :: 0 <= i < |leases| && leases[i] == l && FirstHighest(leases, sid, i)
  {
    if leases == [] {
    } else {
      var n := |leases| - 1;
      ActiveIs(leases[..n], sid);
      match Active(leases[..n], sid)
      case None =>
        assert forall i :: 0 <= i < n ==> leases[..n][i] == leases[i];
        if leases[n].session == sid && !leases[n].revoked {
          assert FirstHighest(leases, sid, n);
        }
      case Some(best) =>
        var i :| 0 <= i < n && leases[..n][i] == best && FirstHighest(leases[..n], sid, i);
        StillHighest(leases, sid, i);
    }
  }

  predicate FirstHighest(leases: seq<Lease>, sid: Text, i: int) {
    && 0 <= i < |leases| && leases[i].session == sid && !leases[i].revoked
    && forall j :: 0 <= j < |leases| && leases[j].session == sid && !leases[j].revoked ==>
         if j < i then leases[j].epoch < leases[i].epoch else leases[j].epoch <= leases[i].epoch
  }

  lemma StillHighest(leases: seq<Lease>, sid: Text, i: int)
    requires leases != [] && FirstHighest(leases[..|leases| - 1], sid, i)
    ensures var last := leases[|leases| - 1];
      var later := last.session == sid && !last.revoked && last.epoch > leases[i].epoch;
      FirstHighest(leases, sid, if later then |leases| - 1 else i)
  {
    var front := leases[..|leases| - 1];
    assert forall j :: 0 <= j < |front| ==> front[j] == leases[j];
  }

  /** Every unrevoked lease of the session is revoked; all others stay. */
  predicate LeasesEnded(before: seq<Lease>, sid: Text, after: seq<Lease>) {
    |after| >= |before| && forall i :: 0 <= i < |before| ==>
      after[i] == before[i].(revoked := before[i].revoked || before[i].session == sid)
  }

  /** The epoch a compare looks at: that of the session's unrevoked lease of the highest epoch, or 0. */
  ghost predicate EpochNow(leases: seq<Lease>, sid: Text, epoch: int) {
    || (epoch == 0 && forall i :: 0 <= i < |leases| ==> leases[i].session != sid || leases[i].revoked)
    || (exists i :: FirstHighest(leases, sid, i) && leases[i].epoch == epoch)
  }

  lemma EpochIs(s: Store, sid: Text, epoch: int)
    ensures ActiveEpoch(s, sid) == epoch <==> EpochNow(s.leases, sid, epoch)
  {
    ActiveIs(s.leases, sid);
    if Active(s.leases, sid).Some? {
      var i :| 0 <= i < |s.leases| && s.leases[i] == Active(s.leases, sid).value && FirstHighest(s.leases, sid, i);
      forall j | FirstHighest(s.leases, sid, j)
        ensures i == j
      {
      }
    }
  }

  /** A compare that does not match changes nothing. One that does revokes the session's leases; it then adds one of the
      next epoch and counts a change of the session, unless the session is unknown or the id is taken. */
  lemma CasIs(s: Store, sid: Text, holder: Text, expected: int, expires: Option<int>, id: Text)
    ensures var (after, answer) := Cas(s, sid, holder, expected, expires, id);
      var taken := exists l :: l in s.leases && l.id == id;
      && (!EpochNow(s.leases, sid, expected) ==> after == s && answer == Refused(InvalidLease))
      && (EpochNow(s.leases, sid, expected) && (sid !in s.sessions || taken) ==>
            && answer == Refused(NotStored) && after.sessions == s.sessions
            && |after.leases| == |s.leases| && LeasesEnded(s.leases, sid, after.leases))
      && (EpochNow(s.leases, sid, expected) && sid in s.sessions && !taken ==>
            && answer == Granted(Lease(id, sid, holder, expected + 1, expires, false))
            && after.sessions == s.sessions[sid := s.sessions[sid].(sequence := s.sessions[sid].sequence + 1)]
            && |after.leases| == |s.leases| + 1 && after.leases[|s.leases|] == answer.lease
            && LeasesEnded(s.leases, sid, after.leases))
  {
    EpochIs(s, sid, expected);
    UsedIff(s.leases, id);
    hide Active, FirstHighest;
  }

  lemma UsedIff(leases: seq<Lease>, id: Text)
    ensures Used(leases, id) <==> exists l :: l in leases && l.id == id
  {
    if l :| l in leases && l.id == id {
      var i :| 0 <= i < |leases| && leases[i] == l;
    }
  }

  /** Setting the mode of a known session sets it and counts a change; entering private mode revokes its leases, leaving
      it revokes none. An unknown session is left alone. */
  lemma PrivateIs(s: Store, sid: Text, enabled: bool)
    ensures var after := PrivateSet(s, sid, enabled);
      && (sid !in s.sessions ==> after == s)
      && (sid in s.sessions ==>
            && after.sessions == s.sessions[sid := Session(s.sessions[sid].owner, s.sessions[sid].host, enabled,
                                                           s.sessions[sid].sequence + 1)]
            && |after.leases| == |s.leases|
            && (if enabled then LeasesEnded(s.leases, sid, after.leases) else after.leases == s.leases))
  {
  }

  /** The device that opens a new session can grant control of it, and no other can. */
  lemma OpenerControls(s: Store, sid: Text, device: Text, actor: Text, holder: Text, expires: Option<int>, id: Text)
    requires sid !in s.sessions && forall l :: l in s.leases ==> l.session != sid && l.id != id
    ensures var (after, answer) := GrantedBy(Opened(s, sid, device), sid, actor, holder, 0, expires, id);
      && (answer.Granted? <==> actor == device)
      && (actor == device ==> answer == Granted(Lease(id, sid, holder, 1, expires, false)))
      && (actor != device ==> answer == Refused(AccessDenied) && after == Opened(s, sid, device))
  {
    CasIs(Opened(s, sid, device), sid, holder, 0, expires, id);
  }

  /** Opening a session again changes nothing; opening a new one leaves all others and all leases alone. */
  lemma OpenedElsewhere(s: Store, sid: Text, device: Text)
    ensures var after := Opened(s, sid, device);
      && after.leases == s.leases && after.sessions.Keys == s.sessions.Keys + {sid}
      && forall k :: k in s.sessions ==> after.sessions[k] == s.sessions[k]
  {
    if sid in s.sessions {
      assert s.sessions.Keys + {sid} == s.sessions.Keys;
    } else {
    }
  }

  /** Why a write is refused, in the order the code looks: no such session, private mode, no lease that matches, a
      device that is neither holder nor owner, a lease that has expired. */
  lemma RefusalIs(s: Store, sid: Text, device: Text, leaseId: Text, epoch: int, now: int, i: int)
    requires FirstHighest(s.leases, sid, i)
      || forall k :: 0 <= k < |s.leases| ==> s.leases[k].session != sid || s.leases[k].revoked
    ensures var why := Checked(s, sid, device, leaseId, epoch, now);
      && (why == Some(SessionNotFound) <==> sid !in s.sessions)
      && (why == Some(PrivateMode) <==> sid in s.sessions && s.sessions[sid].private)
      && why != Some(NotStored)
      && (sid in s.sessions && !s.sessions[sid].private && !FirstHighest(s.leases, sid, i) ==>
            why == Some(InvalidLease))
      && (sid in s.sessions && !s.sessions[sid].private && FirstHighest(s.leases, sid, i) ==>
            var l := s.leases[i];
            var named := l.id != EMPTY && (leaseId == EMPTY || leaseId == l.id) && epoch == l.epoch;
            var mine := device == l.holder || device == s.sessions[sid].owner;
            var over := l.expires.Some? && now > l.expires.value;
            && (why.None? <==> named && mine && !over)
            && (why == Some(AccessDenied) <==> named && !mine)
            && (why == Some(InvalidLease) <==> !named || (mine && over)))
  {
    ActiveIs(s.leases, sid);
  }

  /** Why control is not granted, released or revoked. */
  lemma ControlRefusals(s: Store, sid: Text, actor: Text, holder: Text, leaseId: Text, epoch: int,
      expires: Option<int>, id: Text)
    ensures var (after, answer) := GrantedBy(s, sid, actor, holder, epoch, expires, id);
      && (sid !in s.sessions ==> answer == Refused(SessionNotFound) && after == s)
      && (sid in s.sessions && actor != s.sessions[sid].owner && actor != s.sessions[sid].host ==>
            answer == Refused(AccessDenied) && after == s)
      && (sid in s.sessions && (actor == s.sessions[sid].owner || actor == s.sessions[sid].host) ==>
            if s.sessions[sid].private then answer == Refused(PrivateMode) && after == s
            else (after, answer) == Cas(s, sid, holder, epoch, expires, id))
    ensures var (after, answer) := RevokedBy(s, sid, actor, holder, expires, id);
      && (sid !in s.sessions ==> answer == Refused(SessionNotFound) && after == s)
      && (sid in s.sessions && actor != s.sessions[sid].owner && actor != s.sessions[sid].host ==>
            answer == Refused(AccessDenied) && after == s)
    ensures var (after, answer) := Released(s, sid, holder, leaseId, epoch, expires, id);
      !answer.Granted? ==>
        || answer == Refused(InvalidLease) || answer == Refused(NotStored)
        || (answer == Refused(SessionNotFound) && after == s)
  {
    hide Cas;
    CasRefuses(s, sid, if sid in s.sessions then s.sessions[sid].owner else EMPTY, epoch, expires, id);
  }

  lemma CasRefuses(s: Store, sid: Text, holder: Text, expected: int, expires: Option<int>, id: Text)
    ensures var answer := Cas(s, sid, holder, expected, expires, id).1;
      answer.Granted? || answer == Refused(InvalidLease) || answer == Refused(NotStored)
  {
    hide Active;
  }
}
