/** What the key operations do, in terms of the circle, records and updates they are given. */
module KeyEffects {
  import opened Wrappers
  import opened Identity
  import opened Circles
  import opened RosterSteps
  import opened RosterEffects
  import opened Keys
  import opened Outbox

  /** A key-agreement record verifies for its device and key alone, under the key that signed it. */
  lemma KexRecordBinds(self: Self, rec: KexRecord, key: PublicKey)
    requires rec.signature == SelfKexRecord(self).signature
    ensures VerifyKexRecord(rec, key) <==>
      key.DeviceKey? && key == self.key && rec.deviceId == self.device && rec.publicKey == Kex(self.key)
  {
  }

  /** A key update verifies for its circle, epoch, date and entries alone, under the key that signed it. */
  lemma KeyUpdateBinds(signer: PublicKey, circleId: Text, epoch: nat, createdAt: Text,
      entries: map<DeviceId, SealedEntry>, u: KeyUpdate, key: PublicKey)
    requires u.signature == SignKeyUpdate(signer, circleId, epoch, createdAt, entries).signature
    ensures VerifyKeyUpdate(u, key) <==>
      && key.DeviceKey? && key == signer && u.circleId == circleId && u.epoch == epoch
      && u.createdAt == createdAt && u.entries == entries
  {
  }

  predicate Verified(c: Circle, rec: KexRecord, d: DeviceId) {
    rec.deviceId == d && Known(c.members, d) && VerifyKexRecord(rec, Record(c.members, d).value.publicKey)
  }

  /** The first record of a listed device that its key verifies. */
  predicate FirstVerified(c: Circle, records: seq<KexRecord>, d: DeviceId, i: int) {
    0 <= i < |records| && Verified(c, records[i], d) && forall j :: 0 <= j < i ==> !Verified(c, records[j], d)
  }

  /** A record is stored if and only if one was, or the list has one that verifies, and then it is the first such. */
  lemma {:induction false} KexStoredIff(c: Circle, records: seq<KexRecord>, d: DeviceId)
    ensures var r := KexAllIngested(c, records);
      && r == c.(kexKeys := r.kexKeys)
      && (d in r.kexKeys <==> d in c.kexKeys || exists i :: FirstVerified(c, records, d, i))
      && (d in c.kexKeys ==> r.kexKeys[d] == c.kexKeys[d])
      && (forall i :: FirstVerified(c, records, d, i) && d !in c.kexKeys ==>
            d in r.kexKeys && r.kexKeys[d] == records[i])
  {
    if records == [] {
    } else {
      var n := |records| - 1;
      var front := records[..n];
      KexStoredIff(c, front, d);
      forall i
        ensures FirstVerified(c, records, d, i) <==>
          FirstVerified(c, front, d, i)
          || (i == n && Verified(c, records[n], d) && forall j :: 0 <= j < n ==> !Verified(c, front[j], d))
      {
        assert forall j :: 0 <= j < n ==> front[j] == records[j];
      }
      FirstOrNone(c, front, d);
      if i :| FirstVerified(c, front, d, i) {
        assert FirstVerified(c, records, d, i);
      } else if Verified(c, records[n], d) {
        assert FirstVerified(c, records, d, n);
      }
    }
  }

  lemma {:induction false} FirstOrNone(c: Circle, records: seq<KexRecord>, d: DeviceId)
    ensures (exists i :: FirstVerified(c, records, d, i))
      || forall j :: 0 <= j < |records| ==> !Verified(c, records[j], d)
  {
    if records == [] {
    } else {
      var n := |records| - 1;
      FirstOrNone(c, records[..n], d);
      if i :| FirstVerified(c, records[..n], d, i) {
        assert FirstVerified(c, records, d, i);
      } else if Verified(c, records[n], d) {
        assert FirstVerified(c, records, d, n);
      }
    }
  }

  /** The device is active, another one, and has a usable key on record. */
  predicate Reachable(c: Circle, self: Self, d: DeviceId) {
    && d != self.device && Active(c.members, d).Some?
    && d in c.kexKeys && c.kexKeys[d].publicKey.Kex?
  }

  lemma RecipientActive(self: Self, members: seq<Member>, d: DeviceId)
    ensures d in Recipients(self, members) <==> d != self.device && Active(members, d).Some?
  {
    if Active(members, d).Some? && d != self.device {
      var i := ActiveFound(members, d);
      assert members[i] in members && Recipient(self, members[i]);
    }
    if m :| m in members && Recipient(self, m) && m.deviceId == d {
      var i :| 0 <= i < |members| && members[i] == m;
      ActiveAt(members, i);
    }
  }

  /** Only the creator rotates. The new circle has the new key under the next epoch and keeps the key it had with its
      epoch; its update verifies under the creator's key and seals the new key to exactly the reachable devices. */
  lemma RotatedIff(c: Circle, self: Self, key: Bytes, now: Text, d: DeviceId)
    requires self.key.DeviceKey?
    ensures var result := Rekeyed(c, self, key, now);
      && (result.Ok? <==> c.creator == self.device)
      && (result.Ok? ==>
            var r := result.value;
            && r == c.(groupKey := key, keyEpoch := c.keyEpoch + 1, keyUpdate := r.keyUpdate,
                       previousKey := Some(PreviousKey(c.keyEpoch, c.groupKey)))
            && r.keyUpdate.Some?
            && var u := r.keyUpdate.value;
            && u.circleId == c.id && u.epoch == c.keyEpoch + 1 && u.createdAt == now && VerifyKeyUpdate(u, self.key)
            && (d in u.entries <==> Reachable(c, self, d))
            && (d in u.entries ==>
                  u.entries[d] == HpkeSealed(c.kexKeys[d].publicKey, EntryInfo(c.id, c.keyEpoch + 1, d), key)))
  {
    RecipientActive(self, c.members, d);
    hide Active;
  }

  /** An active other without a usable key on record. */
  predicate Unreached(c: Circle, self: Self, m: Member) {
    && !m.revoked && m.deviceId != self.device
    && !(m.deviceId in c.kexKeys && c.kexKeys[m.deviceId].publicKey.Kex?)
  }

  lemma CutOffStep(c: Circle, self: Self, front: seq<Member>, m: Member)
    ensures CutOff(c, self, front + [m]) == CutOff(c, self, front) + if Unreached(c, self, m) then [m.deviceId] else []
  {
    assert (front + [m])[..|front|] == front;
  }

  /** The devices reported as cut off are exactly those, in roster order. */
  lemma {:induction false} CutOffIs(c: Circle, self: Self, members: seq<Member>) returns (at: seq<int>)
    ensures var out := CutOff(c, self, members);
      && |at| == |out| && (forall k :: 0 <= k < |at| ==> 0 <= at[k] < |members| && out[k] == members[at[k]].deviceId)
      && (forall k, l :: 0 <= k < l < |at| ==> at[k] < at[l])
      && (forall i :: i in at <==> 0 <= i < |members| && Unreached(c, self, members[i]))
  {
    hide Unreached;
    if members == [] {
      at := [];
    } else {
      var n := |members| - 1;
      var front, m := members[..n], members[n];
      at := CutOffIs(c, self, front);
      CutOffStep(c, self, front, m);
      assert members == front + [m];
      hide CutOff;
      if Unreached(c, self, m) {
        assert forall i :: i in at + [n] <==> i in at || i == n;
        at := at + [n];
      }
    }
  }

  /** An update is adopted if and only if it is of this circle and a later epoch, verifies under the recorded creator's
      key, and has an entry sealed to this device for that epoch with a whole key; the circle then has that key, keeps
      the one it had with its epoch, and stores the update. */
  lemma AdoptedIff(c: Circle, u: KeyUpdate, self: Self)
    ensures var adopted := Adopted(c, u, self);
      && (adopted.Some? <==>
            && u.circleId == c.id && u.epoch > c.keyEpoch && Known(c.members, c.creator)
            && VerifyKeyUpdate(u, Record(c.members, c.creator).value.publicKey) && self.device in u.entries
            && var entry := u.entries[self.device];
            && entry.HpkeSealed? && entry.to == Kex(self.key) && entry.info == EntryInfo(c.id, u.epoch, self.device)
            && |entry.plain| == 32)
      && (adopted.Some? ==> adopted.value == c.(groupKey := u.entries[self.device].plain, keyEpoch := u.epoch,
            keyUpdate := Some(u), previousKey := Some(PreviousKey(c.keyEpoch, c.groupKey))))
  {
  }

  /** The creator's update of the current epoch gains an entry of the current key for each reachable device without one;
      nothing else changes, and no other core extends. */
  lemma ExtendedIff(c: Circle, self: Self, d: DeviceId)
    requires self.key.DeviceKey?
    ensures var r := Extended(c, self);
      && r == c.(keyUpdate := r.keyUpdate)
      && (!(c.creator == self.device && c.keyUpdate.Some? && c.keyUpdate.value.epoch == c.keyEpoch) ==> r == c)
      && (c.creator == self.device && c.keyUpdate.Some? && c.keyUpdate.value.epoch == c.keyEpoch ==>
            && r.keyUpdate.Some?
            && var u, v := c.keyUpdate.value, r.keyUpdate.value;
            && v.circleId == u.circleId && v.epoch == u.epoch && v.createdAt == u.createdAt
            && (VerifyKeyUpdate(u, self.key) ==> VerifyKeyUpdate(v, self.key))
            && (d in v.entries <==> d in u.entries || Reachable(c, self, d))
            && (d in u.entries ==> v.entries[d] == u.entries[d])
            && (d in v.entries && d !in u.entries ==>
                  v.entries[d] == HpkeSealed(c.kexKeys[d].publicKey, EntryInfo(c.id, u.epoch, d), c.groupKey)))
  {
    RecipientActive(self, c.members, d);
    hide Active;
    if c.creator == self.device && c.keyUpdate.Some? && c.keyUpdate.value.epoch == c.keyEpoch {
      var u := c.keyUpdate.value;
      var late := LateEntries(c, self, u, c.members);
      assert d in late <==> d !in u.entries && Reachable(c, self, d);
    }
  }

  /** A delivery ends with vouching, on a core that is active. */
  lemma DeliveryVouches(c: Circle, self: Self, records: seq<KexRecord>, update: Option<KeyUpdate>, now: Text)
    requires self.key.DeviceKey? && Active(c.members, self.device).Some?
    ensures var r := KeysApplied(c, self, records, update, now);
      && r.members == c.members && AdmissionsVouched(c, self, c.members, r.admissions)
      && RevocationsVouched(c, self, c.members, r.revocations)
  {
    hide Active, AdmissionsVouched, RevocationsVouched, KexAllIngested, Extended, Adopted, Vouched;
    var known := KexAllIngested(c, records);
    var ready := Extended(known, self);
    var moved := if update.None? then None else Adopted(ready, update.value, self);
    KexOnlyGrows(c, records);
    ExtendedIff(known, self, self.device);
    if update.Some? {
      AdoptedIff(ready, update.value, self);
    }
    var last := if moved.Some? then moved.value else ready;
    VouchedIff(last, self, now);
    SameProofs(c, last, self, Vouched(last, self, now));
  }

  /** What vouching establishes depends on the roster alone. */
  lemma SameProofs(c: Circle, b: Circle, self: Self, r: Circle)
    requires b == c.(groupKey := b.groupKey, keyEpoch := b.keyEpoch, previousKey := b.previousKey,
                     keyUpdate := b.keyUpdate, kexKeys := b.kexKeys)
    ensures AdmissionsVouched(b, self, c.members, r.admissions) == AdmissionsVouched(c, self, c.members, r.admissions)
    ensures RevocationsVouched(b, self, c.members, r.revocations)
      == RevocationsVouched(c, self, c.members, r.revocations)
  {
    assert forall m :: Vouchable(b, self, m) == Vouchable(c, self, m);
    assert forall d, adm :: VouchesMember(b, self, c.members, d, adm) == VouchesMember(c, self, c.members, d, adm);
  }

  /** What the rotation of the creator reaches: a member with the circle at an earlier epoch, listed as active with its
      own key on record, adopts the update, ends with the creator's key, and keeps the one it had. */
  lemma RotationReaches(c: Circle, self: Self, key: Bytes, now: Text, b: Circle, peer: Self)
    requires self.key.DeviceKey? && c.creator == self.device && |key| == 32
    requires b.id == c.id && b.keyEpoch <= c.keyEpoch && Known(b.members, b.creator)
    requires Record(b.members, b.creator).value.publicKey == self.key
    requires Active(c.members, peer.device).Some? && peer.device != self.device
    requires peer.device in c.kexKeys && c.kexKeys[peer.device].publicKey == Kex(peer.key)
    ensures var r := Rekeyed(c, self, key, now).value;
      && r.keyUpdate.Some?
      && Adopted(b, r.keyUpdate.value, peer) == Some(b.(groupKey := key, keyEpoch := c.keyEpoch + 1,
           keyUpdate := r.keyUpdate, previousKey := Some(PreviousKey(b.keyEpoch, b.groupKey))))
  {
    RotatedIff(c, self, key, now, peer.device);
    AdoptedIff(b, Rekeyed(c, self, key, now).value.keyUpdate.value, peer);
    hide Rekeyed, Adopted, Active;
  }

  /** A wire opens under a circle's open keys if and only if it does under the current key, or under the previous one
      inside the grace window; and then to the same envelope. */
  lemma OpensUnderIff(c: Circle, inGrace: bool, wire: Wire, e: Envelope)
    ensures OpenAny(OpenKeys(c, inGrace), wire) == Some(e) <==>
      Open(c.groupKey, wire) == Some(e)
      || (inGrace && c.previousKey.Some? && Open(c.previousKey.value.key, wire) == Some(e))
  {
    var keys := OpenKeys(c, inGrace);
    var none: seq<Bytes> := [];
    assert keys[1..] == if |keys| == 2 then [keys[1]] else none;
    assert OpenAny(none, wire).None?;
    if |keys| == 2 {
      assert keys[1..][1..] == none && OpenAny(keys[1..], wire) == Open(keys[1], wire);
    }
  }

  /** After a rotation what was sealed under the key before it still opens inside the grace window, to the same
      envelope, and outside the window only if the key is the same. */
  lemma RotationKeepsOpening(c: Circle, self: Self, key: Bytes, now: Text, wire: Wire, e: Envelope)
    requires self.key.DeviceKey? && c.creator == self.device && Open(c.groupKey, wire) == Some(e)
    ensures var r := Rekeyed(c, self, key, now).value;
      && OpenAny(OpenKeys(r, true), wire) == Some(e)
      && (OpenAny(OpenKeys(r, false), wire).Some? <==> key == c.groupKey)
  {
    RotatedIff(c, self, key, now, self.device);
    var r := Rekeyed(c, self, key, now).value;
    OpensUnderIff(r, true, wire, e);
    OldOpens(r, c.groupKey, wire, e);
    hide Rekeyed, OpenKeys, OpenAny;
  }

  /** The same after an adopted update. */
  lemma AdoptionKeepsOpening(c: Circle, u: KeyUpdate, self: Self, wire: Wire, e: Envelope)
    requires Adopted(c, u, self).Some? && Open(c.groupKey, wire) == Some(e)
    ensures var r := Adopted(c, u, self).value;
      && OpenAny(OpenKeys(r, true), wire) == Some(e)
      && (OpenAny(OpenKeys(r, false), wire).Some? <==> r.groupKey == c.groupKey)
  {
    AdoptedIff(c, u, self);
    var r := Adopted(c, u, self).value;
    OpensUnderIff(r, true, wire, e);
    OldOpens(r, c.groupKey, wire, e);
    hide Adopted, OpenKeys, OpenAny;
  }

  lemma OldOpens(r: Circle, oldKey: Bytes, wire: Wire, e: Envelope)
    requires Open(oldKey, wire) == Some(e)
    ensures OpenAny(OpenKeys(r, false), wire).Some? <==> r.groupKey == oldKey
  {
    if OpenAny(OpenKeys(r, false), wire).Some? {
      OpensUnderIff(r, false, wire, OpenAny(OpenKeys(r, false), wire).value);
    } else {
      OpensUnderIff(r, false, wire, e);
    }
  }
}
