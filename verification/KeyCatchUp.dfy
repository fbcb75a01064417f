/** One keys exchange with the creator (handleKeys and applyPeerKeys of share_keys_exchange.go). */
module KeyCatchUp {
  import opened Wrappers
  import opened Identity
  import opened Circles
  import opened RosterSteps
  import opened RosterRuns
  import opened Keys
  import opened KeyProtocol

  /** The creator's circle after a member's request: its record, and the update it holds. */
  function Answered(s: Setup, creator: Circle, c: Circle, self: Self, now: Text): Circle {
    KeysApplied(creator, s.creator, [SelfKexRecord(self)], c.keyUpdate, now)
  }

  /** The member's circle after the answer: the creator's own record first, then the records it keeps. */
  function CaughtUp(s: Setup, answered: Circle, c: Circle, self: Self, others: seq<KexRecord>, now: Text): Circle {
    KeysApplied(c, self, [SelfKexRecord(s.creator)] + others, answered.keyUpdate, now)
  }

  /** The key-agreement key the creator will seal to. */
  function SealsTo(creator: Circle, self: Self): KexKey {
    if self.device in creator.kexKeys then creator.kexKeys[self.device].publicKey else Kex(self.key)
  }

  lemma RecordKept(s: Setup, creator: Circle, self: Self)
    requires Known(creator.members, self.device) && self.key.DeviceKey?
    requires Record(creator.members, self.device).value.publicKey == self.key
    ensures var r := KexAllIngested(creator, [SelfKexRecord(self)]);
      && r == creator.(kexKeys := r.kexKeys) && self.device in r.kexKeys
      && r.kexKeys[self.device].publicKey == SealsTo(creator, self)
      && forall d :: d in creator.kexKeys ==> d in r.kexKeys && r.kexKeys[d] == creator.kexKeys[d]
  {
    var records := [SelfKexRecord(self)];
    assert KexAllIngested(creator, records[..0]) == creator;
    assert KexAllIngested(creator, records) == KexIngested(creator, SelfKexRecord(self));
  }

  lemma ActiveRecipient(self: Self, members: seq<Member>, d: DeviceId)
    requires Active(members, d).Some? && d != self.device
    ensures d in Recipients(self, members)
  {
    var i := ActiveFound(members, d);
    assert Recipient(self, members[i]) && members[i] in members;
  }

  /** What agreement says of a member's update and of the creator's circle. */
  lemma AgreedParts(s: Setup, w: World, d: DeviceId)
    requires Agreed(s, w) && d in w.cores
    ensures var cc, c := w.cores[s.creator.device], w.cores[d];
      && CreatorReady(s, cc) && cc.id == s.circleId && cc.creator == s.creator.device
      && (cc.keyUpdate.Some? ==> cc.keyUpdate.value.epoch == cc.keyEpoch)
      && (c.keyUpdate.Some? ==> c.keyUpdate.value.epoch <= cc.keyEpoch)
      && w.ids[d].device == d && w.ids[d].key.DeviceKey? && s.creator.key.DeviceKey?
  {
    var cc, c := w.cores[s.creator.device], w.cores[d];
    assert InStep(s, w, d, cc.keyEpoch) && InStep(s, w, s.creator.device, cc.keyEpoch);
    if c.keyUpdate.Some? {
      assert IssuedFine(s, w, c.keyUpdate.value, cc.keyEpoch);
    }
  }

  /** The creator does not move; past epoch 0 its answer carries its epoch's update, where the member's entry,
      if there is one, is sealed to the recorded key, and there is one whenever that record is a key. */
  lemma CreatorAnswers(s: Setup, w: World, d: DeviceId, now: Text)
    requires Agreed(s, w) && d in w.cores && d != s.creator.device
    requires Active(w.cores[s.creator.device].members, d).Some?
    requires Known(w.cores[s.creator.device].members, d)
    requires Record(w.cores[s.creator.device].members, d).value.publicKey == w.ids[d].key
    ensures var cc := w.cores[s.creator.device];
      var r := Answered(s, cc, w.cores[d], w.ids[d], now);
      && r.keyEpoch == cc.keyEpoch && r.groupKey == cc.groupKey
      && (r.keyUpdate.Some? ==> r.keyUpdate.value.epoch <= cc.keyEpoch)
      && (cc.keyEpoch > 0 ==> r.keyUpdate.Some? && AnswerFor(s, cc, w.ids[d], r.keyUpdate.value))
  {
    var cc, c, self := w.cores[s.creator.device], w.cores[d], w.ids[d];
    AgreedParts(s, w, d);
    hide Agreed, InStep, IssuedFine, CreatorReady, Active, Record, Vouched;
    RecordKept(s, cc, self);
    var known := KexAllIngested(cc, [SelfKexRecord(self)]);
    ActiveRecipient(s.creator, known.members, d);
    var ready := Extended(known, s.creator);
    VouchForAllKeepsKeys(ready, s.creator, ready.members, now);
    if cc.keyEpoch > 0 {
      ExtensionReaches(s, cc, known, self);
    }
  }

  ghost predicate AnswerFor(s: Setup, cc: Circle, self: Self, v: KeyUpdate) {
    && v.circleId == s.circleId && v.epoch == cc.keyEpoch && VerifyKeyUpdate(v, s.creator.key)
    && (self.device in v.entries ==>
          v.entries[self.device]
            == HpkeSealed(SealsTo(cc, self), EntryInfo(s.circleId, v.epoch, self.device), cc.groupKey))
    && (SealsTo(cc, self).Kex? ==> self.device in v.entries)
  }

  lemma ExtensionReaches(s: Setup, cc: Circle, known: Circle, self: Self)
    requires known == cc.(kexKeys := known.kexKeys) && cc.id == s.circleId && cc.creator == s.creator.device
    requires CreatorReady(s, cc) && cc.keyUpdate.Some? && cc.keyUpdate.value.epoch == cc.keyEpoch
    requires self.device in known.kexKeys && known.kexKeys[self.device].publicKey == SealsTo(cc, self)
    requires self.device in Recipients(s.creator, cc.members) && s.creator.key.DeviceKey?
    ensures var r := Extended(known, s.creator);
      r.keyUpdate.Some? && AnswerFor(s, cc, self, r.keyUpdate.value)
  {
    var u := cc.keyUpdate.value;
    var late := LateEntries(known, s.creator, u, known.members);
    if self.device in u.entries {
      assert EntrySealedTo(s, cc, u, self.device);
      assert self.device !in late;
    } else if SealsTo(cc, self).Kex? {
      assert self.device in late;
    }
  }

  /** Catch-up: one exchange with the creator brings an active member to the creator's epoch and key, however
      many rotations it missed, exactly when it was there already or the record the creator keeps for it (or, if
      it keeps none, the one just sent) is the member's own key-agreement key. */
  lemma OneExchangeCatchesUp(s: Setup, w: World, d: DeviceId, others: seq<KexRecord>, now: Text)
    requires Agreed(s, w) && d in w.cores && d != s.creator.device
    requires Active(w.cores[s.creator.device].members, d).Some? && Known(w.cores[s.creator.device].members, d)
    requires Record(w.cores[s.creator.device].members, d).value.publicKey == w.ids[d].key
    ensures var cc, c, self := w.cores[s.creator.device], w.cores[d], w.ids[d];
      var answered := Answered(s, cc, c, self, now);
      var after := CaughtUp(s, answered, c, self, others, now);
      && answered.keyEpoch == cc.keyEpoch && answered.groupKey == cc.groupKey
      && (after.keyEpoch == cc.keyEpoch && after.groupKey == cc.groupKey <==>
            c.keyEpoch == cc.keyEpoch || SealsTo(cc, self) == Kex(self.key))
  {
    var cc, c, self := w.cores[s.creator.device], w.cores[d], w.ids[d];
    CreatorAnswers(s, w, d, now);
    var answered := Answered(s, cc, c, self, now);
    assert InStep(s, w, d, cc.keyEpoch) && InStep(s, w, s.creator.device, cc.keyEpoch);
    var records := [SelfKexRecord(s.creator)] + others;
    KexOnlyGrows(c, records);
    MemberAdopts(s, cc, c, KexAllIngested(c, records), self, answered.keyUpdate, now);
  }

  lemma MemberAdopts(s: Setup, cc: Circle, c: Circle, known: Circle, self: Self, update: Option<KeyUpdate>, now: Text)
    requires known == c.(kexKeys := known.kexKeys) && c.id == s.circleId && c.creator == s.creator.device != self.device
    requires Known(c.members, c.creator) && CreatorKey(c) == s.creator.key && |cc.groupKey| == KEY_LENGTH
    requires c.keyEpoch <= cc.keyEpoch && (c.keyEpoch == cc.keyEpoch ==> c.groupKey == cc.groupKey)
    requires update.Some? ==> update.value.epoch <= cc.keyEpoch
    requires cc.keyEpoch > 0 ==> update.Some? && AnswerFor(s, cc, self, update.value)
    ensures var moved := if update.None? then None else Adopted(Extended(known, self), update.value, self);
      var after := Vouched(if moved.Some? then moved.value else Extended(known, self), self, now);
      after.keyEpoch == cc.keyEpoch && after.groupKey == cc.groupKey <==>
        c.keyEpoch == cc.keyEpoch || SealsTo(cc, self) == Kex(self.key)
  {
    var moved := if update.None? then None else Adopted(known, update.value, self);
    var kept := if moved.Some? then moved.value else known;
    VouchForAllKeepsKeys(kept, self, kept.members, now);
  }

  /** A circle its creator just made is a world in agreement. */
  lemma StartAgreed(self: Self, id: Text, groupKey: Bytes, hostname: Text, now: Text)
    requires MemberKeyBound(self.device, self.key) && |groupKey| == KEY_LENGTH
    ensures Agreed(Setup(id, self),
                   World(map[self.device := Vouched(NewCircle(self, id, groupKey, hostname, now), self, now)],
                                          map[self.device := self], {}, map[0 := groupKey], map[]))
  {
    var first := NewCircle(self, id, groupKey, hostname, now);
    var c := Vouched(first, self, now);
    CreatedSound(self, id, groupKey, hostname, now);
    VouchForAllKeepsKeys(first, self, first.members, now);
    VouchKeepsSoundFields(self, first, now);
    var w := World(map[self.device := c], map[self.device := self], {}, map[0 := groupKey], map[]);
    assert InStep(Setup(id, self), w, self.device, 0);
  }

  lemma VouchKeepsSoundFields(self: Self, c: Circle, now: Text)
    requires c.members != [] && self.key.DeviceKey?
    ensures Vouched(c, self, now).id == c.id && Vouched(c, self, now).creator == c.creator
  {
    MembersKnown(c.members);
    VouchingEstablishes(c, self, c.members, now);
  }
}
