/** Two runs from creation on which pairing undoes something: a removed device comes back past the epoch of its removal,
    and a welcome stored late puts a device back to an epoch before the one it held. */
module KeyReturns {
  import opened Identity
  import opened Circles
  import opened Roster
  import opened RosterSteps
  import opened RosterRuns
  import opened Keys
  import opened KeyMoves
  import opened KeyProtocol
  import opened KeyRuns
  import opened KeyCatchUp

  lemma NewCircleAdmitsItself(self: Self, id: Text, groupKey: Bytes, hostname: Text, now: Text, d: DeviceId)
    requires MemberKeyBound(self.device, self.key) && d != self.device
    ensures d !in Vouched(NewCircle(self, id, groupKey, hostname, now), self, now).admissions
  {
    var first := NewCircle(self, id, groupKey, hostname, now);
    MembersKnown(first.members);
    VouchingEstablishes(first, self, first.members, now);
  }

  function StartWorld(self: Self, id: Text, groupKey: Bytes, hostname: Text, now: Text): World {
    World(map[self.device := Vouched(NewCircle(self, id, groupKey, hostname, now), self, now)],
          map[self.device := self], {}, map[0 := groupKey], map[])
  }

  /** Every listed device is admitted, so vouching has nothing to add. */
  predicate AllVouched(c: Circle) {
    forall i :: 0 <= i < |c.members| ==> c.members[i].deviceId in c.admissions
  }

  lemma {:induction false} VouchIdle(c: Circle, self: Self, members: seq<Member>, now: Text)
    requires forall m :: m in members ==> m.deviceId in c.admissions && (m.revoked ==> m.deviceId in c.revocations)
    ensures VouchForAll(c, self, members, now) == c
  {
    if members == [] {
    } else {
      VouchIdle(c, self, members[..|members| - 1], now);
    }
  }

  lemma Started(self: Self, id: Text, groupKey: Bytes, hostname: Text, now: Text, joiner: Member)
    requires MemberKeyBound(self.device, self.key) && |groupKey| == KEY_LENGTH && joiner.deviceId != self.device
    ensures var w := StartWorld(self, id, groupKey, hostname, now);
      && Agreed(Setup(id, self), w) && w.cores.Keys == {self.device} && Invitable(Setup(id, self), w, joiner)
      && w.offers == map[] && w.cores[self.device].keyEpoch == 0
  {
    StartAgreed(self, id, groupKey, hostname, now);
    NewCircleAdmitsItself(self, id, groupKey, hostname, now, joiner.deviceId);
    CreatedSound(self, id, groupKey, hostname, now);
    var first := NewCircle(self, id, groupKey, hostname, now);
    VouchForAllKeepsKeys(first, self, first.members, now);
    MembersKnown(first.members);
    VouchingEstablishes(first, self, first.members, now);
    hide Agreed;
  }

  /** The creator admitted this device itself, or nobody did, and has nothing left to vouch for. */
  ghost predicate Invitable(s: Setup, w: World, joiner: Member)
    requires s.creator.device in w.cores
  {
    var c := w.cores[s.creator.device];
    && AllVouched(c)
    && (joiner.deviceId in c.admissions ==>
          && c.admissions[joiner.deviceId].invitedBy == s.creator.device
          && VerifyAdmission(s.circleId, joiner, c.admissions[joiner.deviceId], s.creator.key))
  }

  /** The device's roster is the creator's, short of revocations. */
  ghost predicate Behind(c: Circle, b: Circle) {
    && c.id == b.id && c.creator == b.creator && c.admissions == b.admissions && |c.members| == |b.members|
    && (forall i :: 0 <= i < |c.members| ==> b.members[i].(revoked := c.members[i].revoked) == c.members[i])
    && (forall d :: d in c.revocations ==> d in b.revocations && b.revocations[d] == c.revocations[d])
  }

  /** The roster with the creator's revocations taken over. */
  function Learned(c: Circle, b: Circle): Circle {
    c.(members := b.members, revocations := b.revocations)
  }

  lemma {:induction false} SameRecords(c: seq<Member>, b: seq<Member>, d: DeviceId)
    requires |c| == |b| && forall i :: 0 <= i < |c| ==> b[i].(revoked := c[i].revoked) == c[i]
    ensures Known(c, d) == Known(b, d)
    ensures Known(c, d) ==> Record(b, d).value.publicKey == Record(c, d).value.publicKey
  {
    if c == [] {
      assert b == [];
    } else {
      SameRecords(c[1..], b[1..], d);
    }
  }

  /** What ingesting the creator's roster gives. */
  lemma IngestsLearned(self: Self, c: Circle, peer: Self, b: Circle)
    requires Sound(self, c) && Sound(peer, b) && Behind(c, b)
    ensures Ingested(c, ProofsOf(b), Learned(c, b))
  {
    var p, r := ProofsOf(b), Learned(c, b);
    SameRecords(c.members, b.members, c.creator);
    assert forall d :: d in b.revocations ==> RevokedBy(r, p, d);
    forall d | Admissible(c, p, d)
      ensures Candidate(p, d) && Known(r.members, d)
    {
      var path :| AdmissionChain(c, p, path) && path[|path| - 1] == d;
      PendingBound(p.members, d);
      MembersKnown(b.members);
    }
  }

  lemma CreatorHolds(s: Setup, w: World)
    requires Agreed(s, w)
    ensures s.creator.device in w.cores && s.creator.device in w.ids && w.ids[s.creator.device] == s.creator
    ensures var c := w.cores[s.creator.device];
      Sound(s.creator, c) && c.creator == s.creator.device && c.id == s.circleId && |c.groupKey| == KEY_LENGTH
  {
    assert InStep(s, w, s.creator.device, Top(s, w));
  }

  /** The welcome of a session, as the creator built it from this circle. */
  ghost predicate Waits(s: Setup, w: World, session: Text, joiner: Member, c: Circle) {
    && session in w.offers && w.offers[session] == Offer(s.creator, joiner, Gift(c))
    && Welcomes(w.offers[session].circle, s.creator, joiner)
  }

  lemma AdmitVouched(self: Self, c: Circle, joiner: Member, adm: Admission, now: Text)
    requires Sound(self, c) && AllVouched(c)
    ensures var r := Admit(c, joiner, adm);
      AllVouched(r) && Vouched(r, self, now) == r && Known(r.members, joiner.deviceId)
  {
    var r := Admit(c, joiner, adm);
    AdmitKeepsSound(self, c, joiner, adm);
    if !Known(c.members, joiner.deviceId) {
      RecordAppend(c.members, r.members[|c.members|..], joiner.deviceId);
    }
    forall m | m in r.members
      ensures m.deviceId in r.admissions && (m.revoked ==> m.deviceId in r.revocations)
    {
      var i :| 0 <= i < |r.members| && r.members[i] == m;
    }
    VouchIdle(r, self, r.members, now);
  }

  /** The creator builds a welcome. */
  lemma InviteStep(s: Setup, w: World, session: Text, joiner: Member, now: Text) returns (e: Event, w': World)
    requires Agreed(s, w) && MemberKeyBound(joiner.deviceId, joiner.publicKey) && session !in w.offers
    requires Invitable(s, w, joiner)
    ensures Moves(s, w, e, w') && Agreed(s, w') && s.creator.device in w'.cores && Invitable(s, w', joiner)
    ensures session in w'.offers && BuiltBy(w, e, session, w'.offers[session])
    ensures var r := w'.cores[s.creator.device];
      && w'.cores == w.cores[s.creator.device := r] && w'.offers == w.offers[session := w'.offers[session]]
      && Waits(s, w', session, joiner, r) && Known(r.members, joiner.deviceId)
      && r.keyEpoch == w.cores[s.creator.device].keyEpoch
  {
    hide *;
    e, w' := InviteIs(s, w, session, joiner, now);
    MoveAgreed(s, w, e, w');
  }

  lemma InviteIs(s: Setup, w: World, session: Text, joiner: Member, now: Text) returns (e: Event, w': World)
    requires Agreed(s, w) && MemberKeyBound(joiner.deviceId, joiner.publicKey) && session !in w.offers
    requires Invitable(s, w, joiner)
    ensures Moves(s, w, e, w') && s.creator.device in w'.cores && Invitable(s, w', joiner)
    ensures session in w'.offers && BuiltBy(w, e, session, w'.offers[session])
    ensures var r := w'.cores[s.creator.device];
      && w'.cores == w.cores[s.creator.device := r] && w'.offers == w.offers[session := w'.offers[session]]
      && Waits(s, w', session, joiner, r) && Known(r.members, joiner.deviceId)
      && r.keyEpoch == w.cores[s.creator.device].keyEpoch
  {
    var d := s.creator.device;
    CreatorHolds(s, w);
    CreatorInvites(s, w, session, joiner, now);
    hide Agreed, Moves, Sound, Welcomes;
    AdmitVouched(s.creator, w.cores[d], joiner, SignAdmission(s.creator.key, s.circleId, joiner, d, now), now);
    hide AllVouched, Vouched;
    e, w' := Invite(session, d, joiner, now), Invited(s, w, session, d, joiner, now);
  }

  /** The device stores the welcome of a session: its roster is the creator's as it was then. */
  lemma JoinStep(s: Setup, w: World, session: Text, joiner: Member, c: Circle) returns (e: Event, w': World)
    requires Agreed(s, w) && Waits(s, w, session, joiner, c) && joiner.deviceId != s.creator.device
    requires joiner.deviceId in w.cores ==> Active(w.cores[joiner.deviceId].members, joiner.deviceId).None?
    ensures e == Join(session, joiner.deviceId)
    ensures Moves(s, w, e, w') && Agreed(s, w') && w'.cores == w.cores[joiner.deviceId := Gift(c)]
    ensures w'.offers == w.offers - {session} && Behind(w'.cores[joiner.deviceId], c)
    ensures w'.cores[joiner.deviceId].keyEpoch == c.keyEpoch
    ensures s.creator.device in w'.cores && w'.cores[s.creator.device] == w.cores[s.creator.device]
  {
    hide *;
    e := Join(session, joiner.deviceId);
    CreatorHolds(s, w);
    w' := JoinIs(s, w, session, joiner, c);
    MoveAgreed(s, w, e, w');
  }

  lemma JoinIs(s: Setup, w: World, session: Text, joiner: Member, c: Circle) returns (w': World)
    requires Waits(s, w, session, joiner, c)
    requires joiner.deviceId in w.cores ==> Active(w.cores[joiner.deviceId].members, joiner.deviceId).None?
    ensures Moves(s, w, Join(session, joiner.deviceId), w') && w'.cores == w.cores[joiner.deviceId := Gift(c)]
    ensures w'.offers == w.offers - {session} && Behind(Gift(c), c) && Gift(c).keyEpoch == c.keyEpoch
  {
    hide Welcomes, Active;
    w' := AfterJoin(w, session);
  }

  lemma RemovedBehind(self: Self, c: Circle, b: Circle, d: DeviceId, now: Text)
    requires b.creator == self.device && d != self.device && Known(b.members, d) && Behind(c, b) && AllVouched(b)
    ensures var r := Removed(b, self, d, now);
      && r.Ok? && Behind(c, r.value) && r.value.admissions == b.admissions && d in r.value.revocations
      && r.value.keyEpoch == b.keyEpoch && AllVouched(r.value)
  {
  }

  /** The creator removes the device. */
  lemma RemoveStep(s: Setup, w: World, joiner: Member, now: Text) returns (e: Event, w': World)
    requires Agreed(s, w) && Invitable(s, w, joiner) && joiner.deviceId != s.creator.device
    requires Known(w.cores[s.creator.device].members, joiner.deviceId)
    requires joiner.deviceId in w.cores && Behind(w.cores[joiner.deviceId], w.cores[s.creator.device])
    ensures Moves(s, w, e, w') && Agreed(s, w') && s.creator.device in w'.cores && Invitable(s, w', joiner)
    ensures w'.cores == w.cores[s.creator.device := w'.cores[s.creator.device]] && w'.offers == w.offers
    ensures Behind(w'.cores[joiner.deviceId], w'.cores[s.creator.device])
    ensures w'.cores[s.creator.device].keyEpoch == w.cores[s.creator.device].keyEpoch
    ensures joiner.deviceId in w'.cores[s.creator.device].revocations
  {
    var me, d := s.creator.device, joiner.deviceId;
    CreatorHolds(s, w);
    RemovedBehind(s.creator, w.cores[d], w.cores[me], d, now);
    hide Agreed, Removed, Behind, Sound, Known, AllVouched;
    e := RosterStep(me, Remove(d, now));
    w' := w.(cores := w.cores[me := Removed(w.cores[me], s.creator, d, now).value]);
    MoveAgreed(s, w, e, w');
  }

  /** The creator rotates the key; its roster stays. */
  lemma RotateStep(s: Setup, w: World, key: Bytes, now: Text) returns (e: Event, w': World)
    requires Agreed(s, w) && |key| == KEY_LENGTH
    ensures Moves(s, w, e, w') && Agreed(s, w') && s.creator.device in w'.cores && w'.offers == w.offers
    ensures var c, r := w.cores[s.creator.device], w'.cores[s.creator.device];
      && w'.cores == w.cores[s.creator.device := r] && r.keyEpoch == c.keyEpoch + 1 && r.id == c.id
      && r.creator == c.creator && r.members == c.members && r.admissions == c.admissions
      && r.revocations == c.revocations
  {
    var me := s.creator.device;
    CreatorHolds(s, w);
    var r := Rekeyed(w.cores[me], s.creator, key, now).value;
    e := Rotate(key, now);
    w' := w.(cores := w.cores[me := r], issued := w.issued + IssuedBy(r), keyAt := w.keyAt[r.keyEpoch := key]);
    hide Agreed, Sound;
    MoveAgreed(s, w, e, w');
  }

  /** The removed device ingests the creator's roster and from then on lists itself as revoked. */
  lemma LearnStep(s: Setup, w: World, d: DeviceId) returns (e: Event, w': World)
    requires Agreed(s, w) && d in w.cores && d != s.creator.device && d in w.cores[s.creator.device].revocations
    requires Behind(w.cores[d], w.cores[s.creator.device])
    ensures Moves(s, w, e, w') && Agreed(s, w') && w'.cores[s.creator.device] == w.cores[s.creator.device]
    ensures d in w'.cores && Active(w'.cores[d].members, d).None? && w'.offers == w.offers
  {
    var c, b := w.cores[d], w.cores[s.creator.device];
    assert InStep(s, w, d, Top(s, w)) && InStep(s, w, s.creator.device, Top(s, w));
    IngestsLearned(w.ids[d], c, s.creator, b);
    e, w' := RosterStep(d, Ingest(ProofsOf(b))), w.(cores := w.cores[d := Learned(c, b)]);
    MoveAgreed(s, w, e, w');
    if Active(b.members, d).Some? {
      var k := ActiveFound(b.members, d);
    }
  }

  lemma InvitableStays(s: Setup, w: World, w': World, joiner: Member)
    requires s.creator.device in w.cores && s.creator.device in w'.cores && Invitable(s, w, joiner)
    requires var c, r := w.cores[s.creator.device], w'.cores[s.creator.device];
      r.members == c.members && r.admissions == c.admissions
    ensures Invitable(s, w', joiner)
  {
  }

  lemma BehindStays(c: Circle, b: Circle, r: Circle)
    requires Behind(c, b) && r.id == b.id && r.creator == b.creator && r.members == b.members
    requires r.admissions == b.admissions && r.revocations == b.revocations
    ensures Behind(c, r)
  {
  }

  /** The key is rotated, and the removed device learns of its removal. */
  lemma RotateAndLearn(s: Setup, w: World, joiner: Member, key: Bytes, now: Text)
    returns (e: Event, w': World, e': Event, v: World)
    requires Agreed(s, w) && |key| == KEY_LENGTH && joiner.deviceId != s.creator.device && Invitable(s, w, joiner)
    requires joiner.deviceId in w.cores && Behind(w.cores[joiner.deviceId], w.cores[s.creator.device])
    requires joiner.deviceId in w.cores[s.creator.device].revocations
    ensures Moves(s, w, e, w') && Moves(s, w', e', v) && Agreed(s, v) && Invitable(s, v, joiner)
    ensures s.creator.device in v.cores && joiner.deviceId in v.cores && v.offers == w.offers
    ensures v.cores[s.creator.device].keyEpoch == w.cores[s.creator.device].keyEpoch + 1
    ensures Active(v.cores[joiner.deviceId].members, joiner.deviceId).None?
  {
    hide *;
    var me, d := s.creator.device, joiner.deviceId;
    CreatorHolds(s, w);
    e, w' := RotateStep(s, w, key, now);
    InvitableStays(s, w, w', joiner);
    BehindStays(w.cores[d], w.cores[me], w'.cores[me]);
    e', v := LearnStep(s, w', d);
    InvitableStays(s, w', v, joiner);
  }

  /** A removed device ends with a key of an epoch after its removal: invited and joined, removed, the key rotated, the
      removal learned from the creator's roster, invited and joined again. */
  lemma RemovedReturns(self: Self, id: Text, groupKey: Bytes, hostname: Text, now: Text, joiner: Member, key: Bytes,
      first: Text, second: Text) returns (s: Setup, run: seq<World>, events: seq<Event>)
    requires MemberKeyBound(self.device, self.key) && |groupKey| == KEY_LENGTH == |key|
    requires MemberKeyBound(joiner.deviceId, joiner.publicKey) && joiner.deviceId != self.device
    ensures Runs(s, run, events) && |events| == 7 && Agreed(s, run[0]) && s == Setup(id, self)
    ensures s.creator.device in run[3].cores && joiner.deviceId in run[3].cores[s.creator.device].revocations
    ensures joiner.deviceId in run[7].cores
    ensures run[7].cores[joiner.deviceId].keyEpoch > run[3].cores[s.creator.device].keyEpoch
  {
    hide *;
    s := Setup(id, self);
    var me, d := self.device, joiner.deviceId;
    var w0 := StartWorld(self, id, groupKey, hostname, now);
    Started(self, id, groupKey, hostname, now, joiner);
    var e0, w1 := InviteStep(s, w0, first, joiner, now);
    var e1, w2 := JoinStep(s, w1, first, joiner, w1.cores[me]);
    InvitableStays(s, w1, w2, joiner);
    var e2, w3 := RemoveStep(s, w2, joiner, now);
    var e3, w4, e4, w5 := RotateAndLearn(s, w3, joiner, key, now);
    var e5, w6 := InviteStep(s, w5, second, joiner, now);
    var e6, w7 := JoinStep(s, w6, second, joiner, w6.cores[me]);
    run, events := [w0, w1, w2, w3, w4, w5, w6, w7], [e0, e1, e2, e3, e4, e5, e6];
    SevenMoves(s, run, events);
  }

  lemma SevenMoves(s: Setup, run: seq<World>, events: seq<Event>)
    requires |events| == 7 && |run| == 8
    requires Moves(s, run[0], events[0], run[1]) && Moves(s, run[1], events[1], run[2])
    requires Moves(s, run[2], events[2], run[3]) && Moves(s, run[3], events[3], run[4])
    requires Moves(s, run[4], events[4], run[5]) && Moves(s, run[5], events[5], run[6])
    requires Moves(s, run[6], events[6], run[7])
    ensures Runs(s, run, events)
  {
    hide Moves;
  }

  /** An epoch goes back although the member was never behind: two welcomes are built, the key rotated in between, the
      later one is stored, the device is removed and learns it, and then stores the earlier one. */
  lemma OldWelcomeLowers(self: Self, id: Text, groupKey: Bytes, hostname: Text, now: Text, joiner: Member, key: Bytes,
      first: Text, second: Text) returns (s: Setup, run: seq<World>, events: seq<Event>)
    requires MemberKeyBound(self.device, self.key) && |groupKey| == KEY_LENGTH == |key| && first != second
    requires MemberKeyBound(joiner.deviceId, joiner.publicKey) && joiner.deviceId != self.device
    ensures Runs(s, run, events) && |events| == 7 && Agreed(s, run[0]) && s == Setup(id, self)
    ensures LowerAt(run, 4, 7, joiner.deviceId)
    ensures events[6] == Join(first, joiner.deviceId) && first in run[6].offers
    ensures joiner.deviceId !in run[0].cores && BuiltBy(run[0], events[0], first, run[6].offers[first])
  {
    hide *;
    s := Setup(id, self);
    var me, d := self.device, joiner.deviceId;
    var w0 := StartWorld(self, id, groupKey, hostname, now);
    Started(self, id, groupKey, hostname, now, joiner);
    var e0, w1 := InviteStep(s, w0, first, joiner, now);
    var e1, w2 := RotateStep(s, w1, key, now);
    InvitableStays(s, w1, w2, joiner);
    var e2, w3 := InviteStep(s, w2, second, joiner, now);
    var e3, w4 := JoinStep(s, w3, second, joiner, w3.cores[me]);
    InvitableStays(s, w3, w4, joiner);
    var e4, w5 := RemoveStep(s, w4, joiner, now);
    var e5, w6 := LearnStep(s, w5, d);
    StillWaits(s, w1, w6, first, joiner, w1.cores[me]);
    var e6, w7 := JoinStep(s, w6, first, joiner, w1.cores[me]);
    run, events := [w0, w1, w2, w3, w4, w5, w6, w7], [e0, e1, e2, e3, e4, e5, e6];
    SevenMoves(s, run, events);
    EpochLower(run, 4, 7, d);
  }

  lemma EpochLower(run: seq<World>, a: nat, b: nat, d: DeviceId)
    requires a < |run| && b < |run| && d in run[a].cores && d in run[b].cores
    requires run[b].cores[d].keyEpoch < run[a].cores[d].keyEpoch
    ensures LowerAt(run, a, b, d)
  {
  }

  lemma StillWaits(s: Setup, w: World, w': World, session: Text, joiner: Member, c: Circle)
    requires Waits(s, w, session, joiner, c) && session in w'.offers && w'.offers[session] == w.offers[session]
    ensures Waits(s, w', session, joiner, c)
  {
  }
}
