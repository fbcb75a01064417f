/** Key agreement over whole runs: a fixed creator, any number of cores, and a network that loses, repeats and
    reorders what was sent. Nothing but the creator makes the creator's signatures. */
module KeyProtocol {
  import opened Wrappers
  import opened Identity
  import opened Circles
  import opened Roster
  import opened RosterSteps
  import opened RosterRuns
  import opened Keys

  /** The circle's fixed creator. */
  datatype Setup = Setup(circleId: Text, creator: Self)

  /** A welcome that was built and not stored yet: who built it, for whom, and the circle in it. */
  datatype Offer = Offer(via: Self, joiner: Member, circle: Circle)

  /** Every core's stored circle, its identity, every update the creator ever signed, the key of each epoch, and the
      welcomes on their way, by pairing session. */
  datatype World = World(
    cores: map<DeviceId, Circle>, ids: map<DeviceId, Self>, issued: set<KeyUpdate>, keyAt: map<nat, Bytes>,
    offers: map<Text, Offer>)

  datatype Event =
    | Rotate(key: Bytes, now: Text)
    | RosterStep(device: DeviceId, step: Step)
    | Deliver(device: DeviceId, records: seq<KexRecord>, update: Option<KeyUpdate>, now: Text)
    | Invite(session: Text, via: DeviceId, joiner: Member, now: Text)
    | Join(session: Text, device: DeviceId)
    | Forget(device: DeviceId)

  function IssuedBy(c: Circle): set<KeyUpdate> {
    if c.keyUpdate.Some? then {c.keyUpdate.value} else {}
  }

  /** What a delivery may carry: any records, and any update, as long as the creator's signature is genuine. */
  ghost predicate Genuine(w: World, s: Setup, update: Option<KeyUpdate>) {
    update.Some? && VerifyKeyUpdate(update.value, s.creator.key) ==> update.value in w.issued
  }

  /** The circle a welcome seals to a joiner: the member's, with nothing of past rotations. */
  function Gift(c: Circle): Circle {
    c.(previousKey := None, keyUpdate := None)
  }

  /** A welcome built from this circle opens for the joiner: the member is active in it, its key is one, and the
      joiner's admission there is that member's. */
  predicate Welcomes(c: Circle, via: Self, joiner: Member) {
    && Active(c.members, via.device).Some? && |c.groupKey| == KEY_LENGTH
    && joiner.deviceId in c.admissions && c.admissions[joiner.deviceId].invitedBy == via.device
    && VerifyAdmission(c.id, joiner, c.admissions[joiner.deviceId], via.key)
  }

  /** The circle with the joiner admitted, as the welcome carries it. */
  function Paired(s: Setup, w: World, via: DeviceId, joiner: Member, now: Text): Circle
    requires via in w.cores && via in w.ids
  {
    Admit(w.cores[via], joiner, SignAdmission(w.ids[via].key, s.circleId, joiner, via, now))
  }

  /** The member confirms: it builds the welcome, and stores the admission and what it vouches for besides. */
  function Invited(s: Setup, w: World, session: Text, via: DeviceId, joiner: Member, now: Text): World
    requires via in w.cores && via in w.ids
  {
    var admitted := Paired(s, w, via, joiner, now);
    w.(cores := w.cores[via := Vouched(admitted, w.ids[via], now)],
       offers := w.offers[session := Offer(w.ids[via], joiner, Gift(admitted))])
  }

  /** The joiner stores the welcome of a session, whenever that is. */
  function AfterJoin(w: World, session: Text): World
    requires session in w.offers
  {
    var o := w.offers[session];
    w.(cores := w.cores[o.joiner.deviceId := o.circle], offers := w.offers - {session},
       ids := w.ids[o.joiner.deviceId := Self(o.joiner.deviceId, o.joiner.publicKey)])
  }

  /** At most one record is not revoked: a circle that an idle core may delete. */
  predicate FewActive(members: seq<Member>) {
    forall i, j :: 0 <= i < j < |members| ==> members[i].revoked || members[j].revoked
  }

  /** A device joins unless its own stored circle still lists it as active; any device but the creator may delete a
      stored circle that lists no second active member. */
  ghost predicate Moves(s: Setup, w: World, e: Event, w': World) {
    match e
    case Rotate(key, now) =>
      && s.creator.device in w.cores && |key| == KEY_LENGTH
      && var r := Rekeyed(w.cores[s.creator.device], s.creator, key, now);
      && r.Ok?
      && w' == w.(cores := w.cores[s.creator.device := r.value], issued := w.issued + IssuedBy(r.value),
                  keyAt := w.keyAt[r.value.keyEpoch := key])
    case RosterStep(d, step) =>
      && d in w.cores && d in w.ids && d in w'.cores
      && Next(w.ids[d], w.cores[d], step, w'.cores[d])
      && w' == w.(cores := w.cores[d := w'.cores[d]])
    case Deliver(d, records, update, now) =>
      && d in w.cores && d in w.ids && Genuine(w, s, update)
      && var r := KeysApplied(w.cores[d], w.ids[d], records, update, now);
      && w' == w.(cores := w.cores[d := r], issued := w.issued + if d == s.creator.device then IssuedBy(r) else {})
    case Invite(session, via, joiner, now) =>
      && via in w.cores && via in w.ids && Active(w.cores[via].members, via).Some? && session !in w.offers
      && MemberKeyBound(joiner.deviceId, joiner.publicKey)
      && w' == Invited(s, w, session, via, joiner, now)
    case Join(session, d) =>
      && session in w.offers && w.offers[session].joiner.deviceId == d
      && (d in w.cores ==> Active(w.cores[d].members, d).None?)
      && Welcomes(w.offers[session].circle, w.offers[session].via, w.offers[session].joiner)
      && w' == AfterJoin(w, session)
    case Forget(d) =>
      d in w.cores && d != s.creator.device && FewActive(w.cores[d].members) && w' == w.(cores := w.cores - {d})
  }

  /** A core stands in this circle: sound, naming the creator and its key, holding the key of its epoch. */
  ghost predicate InStep(s: Setup, w: World, d: DeviceId, top: nat)
    requires d in w.cores && d in w.ids
  {
    var c := w.cores[d];
    && w.ids[d].device == d && Sound(w.ids[d], c)
    && c.id == s.circleId && c.creator == s.creator.device && CreatorKey(c) == s.creator.key
    && c.keyEpoch <= top && c.keyEpoch in w.keyAt && w.keyAt[c.keyEpoch] == c.groupKey
    && (c.keyUpdate.Some? ==> c.keyUpdate.value in w.issued && c.keyUpdate.value.epoch == c.keyEpoch)
  }

  /** An entry that hands its device the key of the update's epoch. */
  predicate EntryHolds(s: Setup, u: KeyUpdate, d: DeviceId, key: Bytes)
    requires d in u.entries
  {
    u.entries[d].HpkeSealed? && u.entries[d].plain == key && u.entries[d].info == EntryInfo(s.circleId, u.epoch, d)
  }

  ghost predicate IssuedFine(s: Setup, w: World, u: KeyUpdate, top: nat) {
    && u.epoch <= top && u.epoch in w.keyAt && s.creator.device !in u.entries
    && forall d :: d in u.entries ==> EntryHolds(s, u, d, w.keyAt[u.epoch])
  }

  /** The creator's own update always covers its current epoch, and seals each entry to the recorded key. */
  ghost predicate CreatorReady(s: Setup, c: Circle) {
    && |c.groupKey| == KEY_LENGTH
    && (c.keyUpdate.None? ==> c.keyEpoch == 0)
    && (c.keyUpdate.Some? ==>
          var u := c.keyUpdate.value;
          && u.circleId == s.circleId && VerifyKeyUpdate(u, s.creator.key)
          && forall d :: d in u.entries ==> EntrySealedTo(s, c, u, d))
  }

  predicate EntrySealedTo(s: Setup, c: Circle, u: KeyUpdate, d: DeviceId)
    requires d in u.entries
  {
    d in c.kexKeys &&
    u.entries[d] == HpkeSealed(c.kexKeys[d].publicKey, EntryInfo(s.circleId, u.epoch, d), c.groupKey)
  }

  /** A welcome carries a circle of this kind: it hands over the key of an epoch the creator reached. */
  ghost predicate OfferFine(s: Setup, w: World, o: Offer, top: nat) {
    var c := o.circle;
    && Sound(o.via, c) && c.id == s.circleId && c.creator == s.creator.device && CreatorKey(c) == s.creator.key
    && c.keyEpoch <= top && c.keyEpoch in w.keyAt && w.keyAt[c.keyEpoch] == c.groupKey
    && c.keyUpdate.None? && c.previousKey.None? && MemberKeyBound(o.joiner.deviceId, o.joiner.publicKey)
  }

  ghost predicate Agreed(s: Setup, w: World) {
    && s.creator.device in w.cores && w.cores.Keys <= w.ids.Keys && w.ids[s.creator.device] == s.creator
    && CreatorReady(s, w.cores[s.creator.device])
    && var top := w.cores[s.creator.device].keyEpoch;
    && (forall d :: d in w.cores ==> InStep(s, w, d, top))
    && (forall u :: u in w.issued ==> IssuedFine(s, w, u, top))
    && (forall session :: session in w.offers ==> OfferFine(s, w, w.offers[session], top))
    && (forall e :: e in w.keyAt ==> e <= top)
  }

  /** Roster steps leave the key material alone. */
  predicate SameKeyMaterial(c: Circle, r: Circle) {
    && r.groupKey == c.groupKey && r.keyEpoch == c.keyEpoch && r.previousKey == c.previousKey
    && r.keyUpdate == c.keyUpdate && r.kexKeys == c.kexKeys
  }

  lemma {:induction false} VouchForAllKeepsKeys(c: Circle, self: Self, members: seq<Member>, now: Text)
    ensures SameKeyMaterial(c, VouchForAll(c, self, members, now))
  {
    if members == [] {
    } else {
      VouchForAllKeepsKeys(c, self, members[..|members| - 1], now);
    }
  }

  lemma RosterKeepsKeys(self: Self, c: Circle, step: Step, r: Circle)
    requires Next(self, c, step, r)
    ensures SameKeyMaterial(c, r)
  {
    match step
    case Vouch(now) => VouchForAllKeepsKeys(c, self, c.members, now);
    case Merge(incoming, now) =>
      var merged := c.(members := HintsMerged(c.members, self, incoming, now));
      VouchForAllKeepsKeys(merged, self, merged.members, now);
    case Pair(joiner, now) =>
      var admitted := Admit(c, joiner, SignAdmission(self.key, c.id, joiner, self.device, now));
      VouchForAllKeepsKeys(admitted, self, admitted.members, now);
    case _ =>
  }

  /** A sound circle stays sound when only its key material changes. */
  lemma KeysKeepSound(self: Self, c: Circle, r: Circle)
    requires Sound(self, c) && r == c.(groupKey := r.groupKey, keyEpoch := r.keyEpoch, previousKey := r.previousKey,
                                       keyUpdate := r.keyUpdate, kexKeys := r.kexKeys)
    ensures Sound(self, r) && Evolves(c, r)
  {
  }

  lemma RecipientsActive(self: Self, c: Circle, d: DeviceId)
    requires Sound(self, c) && d in Recipients(self, c.members)
    ensures d !in c.revocations && d != self.device && Known(c.members, d)
  {
    var m :| m in c.members && Recipient(self, m) && m.deviceId == d;
    var i :| 0 <= i < |c.members| && c.members[i] == m;
    KnownAt(c.members, i);
  }

  /** What KeysApplied does, in one step on the key material: records only grow, the creator may extend its
      update, and the epoch and key move only by adopting an update. */
  ghost predicate Delivered(s: Setup, self: Self, c: Circle, update: Option<KeyUpdate>, r: Circle) {
    && Evolves(c, r) && Sound(self, r)
    && (forall d :: d in c.kexKeys ==> d in r.kexKeys && r.kexKeys[d] == c.kexKeys[d])
    && (  (r.keyEpoch == c.keyEpoch && r.groupKey == c.groupKey &&
           (r.keyUpdate == c.keyUpdate || (self.device == s.creator.device && ExtendedFrom(s, c, r))))
       || (update.Some? && r.keyUpdate == update && r.keyEpoch == update.value.epoch && c.keyEpoch < r.keyEpoch
           && VerifyKeyUpdate(update.value, s.creator.key) && self.device in update.value.entries
           && OpenEntry(self, s.circleId, update.value.epoch, update.value.entries[self.device]) == Some(r.groupKey)))
  }

  /** The creator's update of the same epoch, with more entries: each new one for an active member, sealed to
      its recorded key-agreement key. */
  ghost predicate ExtendedFrom(s: Setup, c: Circle, r: Circle) {
    && c.keyUpdate.Some? && r.keyUpdate.Some? && c.keyUpdate.value.epoch == c.keyEpoch
    && var u, v := c.keyUpdate.value, r.keyUpdate.value;
    && v == SignKeyUpdate(s.creator.key, u.circleId, u.epoch, u.createdAt, v.entries)
    && (forall d :: d in u.entries ==> d in v.entries && v.entries[d] == u.entries[d])
    && (forall d :: d in v.entries && d !in u.entries ==>
          d !in c.revocations && d != s.creator.device && EntrySealedTo(s, r, v, d))
  }

  lemma ExtensionFine(s: Setup, self: Self, c: Circle)
    requires Sound(self, c) && c.id == s.circleId && c.creator == s.creator.device && CreatorKey(c) == s.creator.key
    ensures var r := Extended(c, self);
      r == c.(keyUpdate := r.keyUpdate) && (r == c || (self.device == s.creator.device && ExtendedFrom(s, c, r)))
  {
    var r := Extended(c, self);
    if r != c {
      var u := c.keyUpdate.value;
      forall d | d in r.keyUpdate.value.entries && d !in u.entries
        ensures d !in c.revocations && d != s.creator.device && d in r.kexKeys
      {
        RecipientsActive(self, c, d);
      }
    }
  }

  /** Records before an extension change nothing about it. */
  lemma ExtensionOfKnown(s: Setup, c: Circle, known: Circle, r: Circle)
    requires known == c.(kexKeys := known.kexKeys) && ExtendedFrom(s, known, r)
    ensures ExtendedFrom(s, c, r)
  {
  }

  /** The delivery up to the extension. */
  lemma ReadyFine(s: Setup, self: Self, c: Circle, records: seq<KexRecord>, update: Option<KeyUpdate>)
    requires Sound(self, c) && c.id == s.circleId && c.creator == s.creator.device && CreatorKey(c) == s.creator.key
    ensures var r := Extended(KexAllIngested(c, records), self);
      && r == c.(keyUpdate := r.keyUpdate, kexKeys := r.kexKeys)
      && Delivered(s, self, c, update, r)
  {
    var known := KexAllIngested(c, records);
    var r := Extended(known, self);
    KexOnlyGrows(c, records);
    KeysKeepSound(self, c, known);
    ExtensionFine(s, self, known);
    KeysKeepSound(self, c, r);
    if r != known {
      ExtensionOfKnown(s, c, known, r);
    }
  }

  lemma AdoptionFine(s: Setup, self: Self, c: Circle, ready: Circle, u: KeyUpdate)
    requires Sound(self, c) && c.id == s.circleId && c.creator == s.creator.device && CreatorKey(c) == s.creator.key
    requires ready == c.(keyUpdate := ready.keyUpdate, kexKeys := ready.kexKeys)
    requires forall d :: d in c.kexKeys ==> d in ready.kexKeys && ready.kexKeys[d] == c.kexKeys[d]
    requires Adopted(ready, u, self).Some?
    ensures Delivered(s, self, c, Some(u), Adopted(ready, u, self).value)
  {
    KeysKeepSound(self, c, Adopted(ready, u, self).value);
  }

  lemma VouchedDelivery(s: Setup, self: Self, c: Circle, update: Option<KeyUpdate>, r: Circle, now: Text)
    requires Delivered(s, self, c, update, r)
    ensures Delivered(s, self, c, update, Vouched(r, self, now))
  {
    VouchKeepsSound(self, r, now);
    VouchForAllKeepsKeys(r, self, r.members, now);
    EvolvesTransitive(c, r, Vouched(r, self, now));
  }

  lemma DeliveryFine(s: Setup, self: Self, c: Circle, records: seq<KexRecord>, update: Option<KeyUpdate>, now: Text)
    requires Sound(self, c) && c.id == s.circleId && c.creator == s.creator.device && CreatorKey(c) == s.creator.key
    ensures Delivered(s, self, c, update, KeysApplied(c, self, records, update, now))
  {
    var ready := Extended(KexAllIngested(c, records), self);
    ReadyFine(s, self, c, records, update);
    var moved := if update.None? then None else Adopted(ready, update.value, self);
    if moved.Some? {
      AdoptionFine(s, self, c, ready, update.value);
    }
    VouchedDelivery(s, self, c, update, if moved.Some? then moved.value else ready, now);
  }
}
