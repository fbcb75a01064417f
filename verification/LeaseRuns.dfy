/** What every run of the lease store keeps, and when a write stays accepted. */
module LeaseRuns {
  import opened Wrappers
  import opened Identity
  import opened Leases

  /** One call of the store. A control operation is a check and then at most one Compare; between the two any
      other events may happen. */
  datatype Event =
    | Open(sid: Text, device: Text)
    | Compare(sid: Text, holder: Text, expected: int, expires: Option<int>, id: Text)
    | Private(sid: Text, enabled: bool)

  function Next(s: Store, e: Event): Store {
    match e
    case Open(sid, device) => Opened(s, sid, device)
    case Compare(sid, holder, expected, expires, id) => Cas(s, sid, holder, expected, expires, id).0
    case Private(sid, enabled) => PrivateSet(s, sid, enabled)
  }

  function Run(s: Store, events: seq<Event>): Store
    decreases |events|
  {
    if events == [] then s else Run(Next(s, events[0]), events[1..])
  }

  predicate Orderly(s: Store) {
    && (forall i, j :: 0 <= i < j < |s.leases| ==> s.leases[i].id != s.leases[j].id)
    && (forall i, j :: 0 <= i < j < |s.leases| && !s.leases[i].revoked && !s.leases[j].revoked ==>
      s.leases[i].session != s.leases[j].session)
    && (forall i :: 0 <= i < |s.leases| ==> s.leases[i].session in s.sessions && s.leases[i].epoch >= 1)
  }

  lemma {:induction false} ActiveFound(leases: seq<Lease>, sid: Text)
    ensures match Active(leases, sid)
      case None => forall i :: 0 <= i < |leases| ==> !Live(leases[i], sid)
      case Some(l) => l in leases && Live(l, sid)
  {
    if leases == [] {
    } else {
      ActiveFound(leases[..|leases| - 1], sid);
    }
  }

  /** The active lease is the one unrevoked lease of the session. */
  lemma ActiveIff(s: Store, sid: Text, l: Lease)
    requires Orderly(s)
    ensures Active(s.leases, sid) == Some(l) <==> l in s.leases && Live(l, sid)
  {
    ActiveFound(s.leases, sid);
  }

  lemma NoneActive(s: Store, sid: Text)
    requires Orderly(s) && forall i :: 0 <= i < |s.leases| ==> !Live(s.leases[i], sid)
    ensures Active(s.leases, sid).None?
  {
    ActiveFound(s.leases, sid);
  }

  lemma CasKeepsOrder(s: Store, sid: Text, holder: Text, expected: int, expires: Option<int>, id: Text)
    requires Orderly(s)
    ensures Orderly(Cas(s, sid, holder, expected, expires, id).0)
  {
  }

  lemma StepKeepsOrder(s: Store, e: Event)
    requires Orderly(s)
    ensures Orderly(Next(s, e))
  {
    match e {
      case Compare(sid, holder, expected, expires, id) => CasKeepsOrder(s, sid, holder, expected, expires, id);
      case Open(_, _) =>
      case Private(_, _) =>
    }
  }

  /** Over every run no session has two unrevoked leases, and no lease id is used twice. */
  lemma {:induction false} RunKeepsOrder(s: Store, events: seq<Event>)
    requires Orderly(s)
    ensures Orderly(Run(s, events))
    decreases |events|
  {
    if events == [] {
    } else {
      StepKeepsOrder(s, events[0]);
      RunKeepsOrder(Next(s, events[0]), events[1..]);
    }
  }

  /** The event entered private mode. */
  predicate Enters(s: Store, e: Event, sid: Text) {
    e.Private? && e.sid == sid && e.enabled && sid in s.sessions
  }

  predicate Grants(s: Store, e: Event, sid: Text) {
    e.Compare? && e.sid == sid && Cas(s, sid, e.holder, e.expected, e.expires, e.id).1.Granted?
  }

  /** The event ended the session's leases: its compare held, or it entered private mode. */
  predicate Ends(s: Store, e: Event, sid: Text) {
    Enters(s, e, sid) || (e.Compare? && e.sid == sid && sid in s.sessions && ActiveEpoch(s, sid) == e.expected)
  }

  predicate Fresh(s: Store, e: Event) {
    e.Compare? ==> !Used(s.leases, e.id) && e.id != EMPTY
  }

  predicate FreshRun(s: Store, events: seq<Event>)
    decreases |events|
  {
    events == [] || (Fresh(s, events[0]) && FreshRun(Next(s, events[0]), events[1..]))
  }

  /** Successful grants since the last entry into private mode, starting from n. */
  function GrantCount(s: Store, events: seq<Event>, sid: Text, n: nat): nat
    decreases |events|
  {
    if events == [] then n
    else
      var e := events[0];
      GrantCount(Next(s, e), events[1..], sid, if Enters(s, e, sid) then 0 else if Grants(s, e, sid) then n + 1 else n)
  }

  lemma GrantedIsActive(s: Store, sid: Text, holder: Text, expires: Option<int>, id: Text)
    requires Orderly(s) && sid in s.sessions && !Used(s.leases, id)
    ensures var lease := Lease(id, sid, holder, ActiveEpoch(s, sid) + 1, expires, false);
      Active(Ended(s.leases, sid) + [lease], sid) == Some(lease)
  {
    var (after, answer) := Cas(s, sid, holder, ActiveEpoch(s, sid), expires, id);
    assert after.leases == Ended(s.leases, sid) + [answer.lease];
    CasKeepsOrder(s, sid, holder, ActiveEpoch(s, sid), expires, id);
    assert after.leases[|after.leases| - 1] == answer.lease;
    ActiveIff(after, sid, answer.lease);
  }

  lemma UnknownSession(s: Store, sid: Text)
    requires Orderly(s) && sid !in s.sessions
    ensures Ended(s.leases, sid) == s.leases
  {
  }

  /** A grant succeeds exactly on the active epoch of a known session, and installs the next epoch. */
  lemma GrantInstalls(s: Store, sid: Text, holder: Text, expected: int, expires: Option<int>, id: Text)
    requires Orderly(s) && !Used(s.leases, id)
    ensures var (after, answer) := Cas(s, sid, holder, expected, expires, id);
      && (answer.Granted? <==> sid in s.sessions && expected == ActiveEpoch(s, sid))
      && (answer.Granted? ==>
            Active(after.leases, sid) == Some(Lease(id, sid, holder, ActiveEpoch(s, sid) + 1, expires, false)))
      && (!answer.Granted? ==> after == s)
  {
    hide Orderly, Ended, Active, Used;
    if sid in s.sessions {
      GrantedIsActive(s, sid, holder, expires, id);
    } else {
      UnknownSession(s, sid);
    }
  }

  /** The session's leases after an event that ends nothing. */
  lemma LeasesStay(s: Store, e: Event, sid: Text)
    requires Orderly(s) && !Ends(s, e, sid)
    ensures var t := Next(s, e);
      && |s.leases| <= |t.leases|
      && (forall i :: 0 <= i < |s.leases| && s.leases[i].session == sid ==> t.leases[i] == s.leases[i])
      && (forall i :: 0 <= i < |t.leases| && Live(t.leases[i], sid) ==> i < |s.leases| && Live(s.leases[i], sid))
  {
    hide Active;
  }

  lemma OtherSession(s: Store, e: Event, sid: Text)
    requires Orderly(s) && !Ends(s, e, sid)
    ensures Active(Next(s, e).leases, sid) == Active(s.leases, sid)
  {
    var t := Next(s, e);
    StepKeepsOrder(s, e);
    LeasesStay(s, e, sid);
    hide Next, Ends, Active;
    match Active(s.leases, sid) {
      case Some(l) =>
        ActiveIff(s, sid, l);
        var i :| 0 <= i < |s.leases| && s.leases[i] == l;
        assert t.leases[i] == l;
        ActiveIff(t, sid, l);
      case None =>
        ActiveFound(s.leases, sid);
        NoneActive(t, sid);
    }
  }

  lemma EntryClears(s: Store, sid: Text)
    requires Orderly(s) && sid in s.sessions
    ensures Active(PrivateSet(s, sid, true).leases, sid).None?
  {
    StepKeepsOrder(s, Private(sid, true));
    NoneActive(PrivateSet(s, sid, true), sid);
  }

  lemma StepCounts(s: Store, e: Event, sid: Text)
    requires Orderly(s) && Fresh(s, e)
    ensures ActiveEpoch(Next(s, e), sid) ==
      if Enters(s, e, sid) then 0 else if Grants(s, e, sid) then ActiveEpoch(s, sid) + 1 else ActiveEpoch(s, sid)
  {
    if Enters(s, e, sid) {
      EntryClears(s, sid);
    } else if Grants(s, e, sid) {
      GrantInstalls(s, sid, e.holder, e.expected, e.expires, e.id);
    } else {
      OtherSession(s, e, sid);
    }
  }

  /** Epochs count 1, 2, 3, ... the successful grants since private mode was last entered. */
  lemma {:induction false} EpochCountsGrants(s: Store, events: seq<Event>, sid: Text)
    requires Orderly(s) && FreshRun(s, events)
    ensures ActiveEpoch(Run(s, events), sid) == GrantCount(s, events, sid, ActiveEpoch(s, sid))
    decreases |events|
  {
    if events == [] {
    } else {
      StepCounts(s, events[0], sid);
      StepKeepsOrder(s, events[0]);
      EpochCountsGrants(Next(s, events[0]), events[1..], sid);
    }
  }

  /** Some event of the run ended the session's leases. */
  predicate Disturbed(s: Store, events: seq<Event>, sid: Text)
    decreases |events|
  {
    events != [] && (Ends(s, events[0], sid) || Disturbed(Next(s, events[0]), events[1..], sid))
  }

  predicate EntersEver(s: Store, events: seq<Event>, sid: Text)
    decreases |events|
  {
    events != [] && (Enters(s, events[0], sid) || EntersEver(Next(s, events[0]), events[1..], sid))
  }

  /** The lease of this id is revoked, or of another session. */
  predicate Spent(s: Store, id: Text, sid: Text) {
    exists i :: 0 <= i < |s.leases| && s.leases[i].id == id && (s.leases[i].revoked || s.leases[i].session != sid)
  }

  lemma {:induction false} SpentForever(s: Store, events: seq<Event>, id: Text, sid: Text)
    requires Orderly(s) && Spent(s, id, sid)
    ensures Spent(Run(s, events), id, sid)
    decreases |events|
  {
    if events == [] {
    } else {
      var i :| 0 <= i < |s.leases| && s.leases[i].id == id && (s.leases[i].revoked || s.leases[i].session != sid);
      var t := Next(s, events[0]);
      assert i < |t.leases| && t.leases[i].id == id && (t.leases[i].revoked || t.leases[i].session != sid);
      StepKeepsOrder(s, events[0]);
      SpentForever(t, events[1..], id, sid);
    }
  }

  lemma SpentRefuses(s: Store, sid: Text, device: Text, id: Text, epoch: int, now: int)
    requires Orderly(s) && Spent(s, id, sid) && id != EMPTY
    ensures !Accepts(s, sid, device, id, epoch, now)
  {
    ActiveFound(s.leases, sid);
  }

  lemma EndingSpends(s: Store, e: Event, sid: Text, l: Lease)
    requires Orderly(s) && Ends(s, e, sid) && l in s.leases && l.session == sid
    ensures Spent(Next(s, e), l.id, sid)
  {
    var i :| 0 <= i < |s.leases| && s.leases[i] == l;
    assert Next(s, e).leases[i].id == l.id && Next(s, e).leases[i].revoked;
  }

  /** The session's mode and owner after events that end nothing. */
  lemma UndisturbedStep(s: Store, e: Event, sid: Text)
    requires Orderly(s) && !Ends(s, e, sid) && sid in s.sessions && !s.sessions[sid].private
    ensures var t := Next(s, e);
      && sid in t.sessions && !t.sessions[sid].private && t.sessions[sid].owner == s.sessions[sid].owner
      && Active(t.leases, sid) == Active(s.leases, sid)
  {
    OtherSession(s, e, sid);
  }

  /** A write naming its lease, once accepted, is accepted after a run if and only if nothing ended the
      session's leases in between and the lease has not expired. */
  lemma {:induction false} LeasedWriteIff(s: Store, events: seq<Event>, sid: Text, device: Text, id: Text,
      epoch: int, now: int, later: int)
    requires Orderly(s) && id != EMPTY && Accepts(s, sid, device, id, epoch, now)
    ensures Accepts(Run(s, events), sid, device, id, epoch, later) <==>
      !Disturbed(s, events, sid) && Accepts(s, sid, device, id, epoch, later)
    decreases |events|
  {
    if events == [] {
    } else {
      var e := events[0];
      StepKeepsOrder(s, e);
      if Ends(s, e, sid) {
        var l := Active(s.leases, sid).value;
        ActiveIff(s, sid, l);
        EndingSpends(s, e, sid, l);
        SpentForever(Next(s, e), events[1..], id, sid);
        RunKeepsOrder(Next(s, e), events[1..]);
        SpentRefuses(Run(s, events), sid, device, id, epoch, later);
      } else {
        UndisturbedStep(s, e, sid);
        LeasedWriteIff(Next(s, e), events[1..], sid, device, id, epoch, now, later);
      }
    }
  }

  lemma {:induction false} EpochGrows(s: Store, events: seq<Event>, sid: Text)
    requires Orderly(s) && FreshRun(s, events) && !EntersEver(s, events, sid)
    ensures ActiveEpoch(Run(s, events), sid) >= ActiveEpoch(s, sid)
    ensures ActiveEpoch(Run(s, events), sid) == ActiveEpoch(s, sid) ==> !Disturbed(s, events, sid)
    decreases |events|
  {
    if events == [] {
    } else {
      var e := events[0];
      StepCounts(s, e, sid);
      StepKeepsOrder(s, e);
      if Ends(s, e, sid) {
        GrantInstalls(s, sid, e.holder, e.expected, e.expires, e.id);
      }
      EpochGrows(Next(s, e), events[1..], sid);
    }
  }

  lemma {:induction false} UndisturbedLease(s: Store, events: seq<Event>, sid: Text)
    requires Orderly(s) && !Disturbed(s, events, sid)
    ensures Active(Run(s, events).leases, sid) == Active(s.leases, sid)
    decreases |events|
  {
    if events == [] {
    } else {
      OtherSession(s, events[0], sid);
      StepKeepsOrder(s, events[0]);
      UndisturbedLease(Next(s, events[0]), events[1..], sid);
    }
  }

  /** Check now, compare later: unless private mode was entered in between, an epoch that still matches means
      the lease that was checked is still the active one. */
  lemma CompareNoticesChange(s: Store, events: seq<Event>, sid: Text)
    requires Orderly(s) && FreshRun(s, events) && !EntersEver(s, events, sid)
    requires ActiveEpoch(Run(s, events), sid) == ActiveEpoch(s, sid)
    ensures Active(Run(s, events).leases, sid) == Active(s.leases, sid)
  {
    EpochGrows(s, events, sid);
    UndisturbedLease(s, events, sid);
  }

  /** A write naming only its epoch is as safe as one naming its lease while private mode is not entered. */
  lemma EpochWriteIff(s: Store, events: seq<Event>, sid: Text, device: Text, epoch: int, now: int, later: int)
    requires Orderly(s) && FreshRun(s, events) && !EntersEver(s, events, sid)
      && Accepts(s, sid, device, EMPTY, epoch, now)
    ensures Accepts(Run(s, events), sid, device, EMPTY, epoch, later) <==>
      !Disturbed(s, events, sid) && Accepts(s, sid, device, EMPTY, epoch, later)
  {
    var id := Active(s.leases, sid).value.id;
    var after := Run(s, events);
    LeasedWriteIff(s, events, sid, device, id, epoch, now, later);
    if Accepts(after, sid, device, EMPTY, epoch, later) {
      CompareNoticesChange(s, events, sid);
      assert Accepts(after, sid, device, id, epoch, later);
    }
  }

  /** Entering private mode restarts the epochs, so an epoch alone can match a lease granted afterwards. */
  lemma PrivateModeReusesEpochs(sid: Text, owner: Text, viewer: Text, a: Text, b: Text)
    requires a != b && a != EMPTY && b != EMPTY && owner != viewer
    ensures var s := Run(Store(map[], []), [Open(sid, owner), Compare(sid, viewer, 0, None, a)]);
      var events := [Private(sid, true), Private(sid, false), Compare(sid, viewer, 0, None, b)];
      && FreshRun(s, events) && Disturbed(s, events, sid)
      && Accepts(s, sid, viewer, EMPTY, 1, 0) && Accepts(Run(s, events), sid, viewer, EMPTY, 1, 0)
      && Accepts(s, sid, viewer, a, 1, 0) && !Accepts(Run(s, events), sid, viewer, a, 1, 0)
  {
    var la, lb := Lease(a, sid, viewer, 1, None, false), Lease(b, sid, viewer, 1, None, false);
    var empty := Store(map[], []);
    var s1 := Next(empty, Open(sid, owner));
    var s := Next(s1, Compare(sid, viewer, 0, None, a));
    assert s.leases == [] + [la];
    LastActive([], la, sid);
    var p1 := Next(s, Private(sid, true));
    var p2 := Next(p1, Private(sid, false));
    assert p2.leases == [] + [la.(revoked := true)] && [la.(revoked := true)][..0] == [];
    assert Active(p2.leases, sid) == None;
    var t := Next(p2, Compare(sid, viewer, 0, None, b));
    assert t.leases == p2.leases + [lb];
    LastActive(p2.leases, lb, sid);
    Unroll(empty, Open(sid, owner), [Compare(sid, viewer, 0, None, a)], sid);
    Unroll(s1, Compare(sid, viewer, 0, None, a), [], sid);
    Unroll(s, Private(sid, true), [Private(sid, false), Compare(sid, viewer, 0, None, b)], sid);
    Unroll(p1, Private(sid, false), [Compare(sid, viewer, 0, None, b)], sid);
    Unroll(p2, Compare(sid, viewer, 0, None, b), [], sid);
  }

  lemma LastActive(leases: seq<Lease>, l: Lease, sid: Text)
    requires Active(leases, sid) == None && Live(l, sid)
    ensures Active(leases + [l], sid) == Some(l)
  {
    assert (leases + [l])[..|leases|] == leases;
  }

  lemma Unroll(s: Store, e: Event, rest: seq<Event>, sid: Text)
    ensures Run(s, [e] + rest) == Run(Next(s, e), rest)
    ensures FreshRun(s, [e] + rest) == (Fresh(s, e) && FreshRun(Next(s, e), rest))
    ensures Disturbed(s, [e] + rest, sid) == (Ends(s, e, sid) || Disturbed(Next(s, e), rest, sid))
  {
    assert ([e] + rest)[1..] == rest;
  }

  predicate Permits(l: Lease, owner: Text, device: Text, id: Text, epoch: int, now: int) {
    && l.id != EMPTY && (id == EMPTY || id == l.id) && epoch == l.epoch && (device == l.holder || device == owner)
    && (l.expires.None? || now <= l.expires.value)
  }

  /** A write is accepted if and only if the session is not private and has an unrevoked lease that permits it. */
  lemma AcceptsIff(s: Store, sid: Text, device: Text, id: Text, epoch: int, now: int)
    requires Orderly(s)
    ensures Accepts(s, sid, device, id, epoch, now) <==>
      sid in s.sessions && !s.sessions[sid].private &&
      exists l :: l in s.leases && Live(l, sid) && Permits(l, s.sessions[sid].owner, device, id, epoch, now)
  {
    match Active(s.leases, sid) {
      case None => ActiveFound(s.leases, sid);
      case Some(l) => ActiveIff(s, sid, l);
    }
    forall l | l in s.leases && Live(l, sid)
      ensures Active(s.leases, sid) == Some(l)
    {
      ActiveIff(s, sid, l);
    }
  }

  /** At any moment at most one device besides the owner can write. */
  lemma OneWriter(s: Store, sid: Text, a: Text, b: Text, ida: Text, idb: Text, ea: int, eb: int, now: int)
    requires Accepts(s, sid, a, ida, ea, now) && Accepts(s, sid, b, idb, eb, now)
    ensures ea == eb && (a == b || a == s.sessions[sid].owner || b == s.sessions[sid].owner)
  {
  }

  predicate MayGrant(s: Store, sid: Text, actor: Text) {
    sid in s.sessions && Hosts(s.sessions[sid], actor) && !s.sessions[sid].private
  }

  predicate OtherHolder(active: Option<Lease>, holder: Text) {
    holder != EMPTY && active.Some? && active.value.holder != EMPTY && active.value.holder != holder
  }

  /** Each control operation is one Compare of the store, or changes nothing. */
  lemma ControlIsCompare(s: Store, sid: Text, actor: Text, holder: Text, leaseId: Text, epoch: int,
      expires: Option<int>, id: Text)
    requires Orderly(s) && !Used(s.leases, id)
    ensures var (after, answer) := GrantedBy(s, sid, actor, holder, epoch, expires, id);
      && (answer.Granted? <==> MayGrant(s, sid, actor) && epoch == ActiveEpoch(s, sid))
      && after == if answer.Granted? then Next(s, Compare(sid, holder, epoch, expires, id)) else s
    ensures var (after, answer) := Released(s, sid, holder, leaseId, epoch, expires, id);
      && (answer.Granted? <==> sid in s.sessions && Names(Active(s.leases, sid), holder, leaseId, epoch))
      && after == if answer.Granted? then Next(s, Compare(sid, s.sessions[sid].owner, epoch, expires, id)) else s
    ensures var (after, answer) := RevokedBy(s, sid, actor, holder, expires, id);
      && (answer.Granted? <==>
            sid in s.sessions && Hosts(s.sessions[sid], actor) && !OtherHolder(Active(s.leases, sid), holder))
      && after
        == if answer.Granted? then Next(s, Compare(sid, s.sessions[sid].owner, ActiveEpoch(s, sid), expires, id)) else s
  {
    if sid in s.sessions {
      var owner := s.sessions[sid].owner;
      GrantInstalls(s, sid, holder, epoch, expires, id);
      GrantInstalls(s, sid, owner, epoch, expires, id);
      GrantInstalls(s, sid, owner, ActiveEpoch(s, sid), expires, id);
    }
  }
}
