/** Circle key rotation (share_rekey.go, share_keys_exchange.go): the value-level operations and the loops that
    update the stored circle. */
module Keys {
  import opened Wrappers
  import opened Identity
  import opened Circles
  import opened RosterSteps

  const KEY_LENGTH := 32

  function SelfKexRecord(self: Self): KexRecord {
    KexRecord(self.device, Kex(self.key), Signed(self.key, KexPayload(self.device, Kex(self.key))))
  }

  predicate VerifyKexRecord(rec: KexRecord, deviceKey: PublicKey) {
    Verifies(deviceKey, KexPayload(rec.deviceId, rec.publicKey), rec.signature)
  }

  function SignKeyUpdate(signer: PublicKey, circleId: Text, epoch: nat, createdAt: Text,
                         entries: map<DeviceId, SealedEntry>): KeyUpdate {
    KeyUpdate(circleId, epoch, createdAt, entries,
      Signed(signer, KeyUpdatePayload(circleId, epoch, createdAt, entries)))
  }

  predicate VerifyKeyUpdate(u: KeyUpdate, creatorKey: PublicKey) {
    Verifies(creatorKey, KeyUpdatePayload(u.circleId, u.epoch, u.createdAt, u.entries), u.signature)
  }

  /** The first verified record of a listed device stays. */
  function KexIngested(c: Circle, rec: KexRecord): Circle {
    var m := Record(c.members, rec.deviceId);
    if m.None? || !VerifyKexRecord(rec, m.value.publicKey) || rec.deviceId in c.kexKeys then c
    else c.(kexKeys := c.kexKeys[rec.deviceId := rec])
  }

  function KexAllIngested(c: Circle, records: seq<KexRecord>): Circle {
    if records == [] then c
    else KexIngested(KexAllIngested(c, records[..|records| - 1]), records[|records| - 1])
  }

  method IngestKexRecords(c: CircleRecord, records: seq<KexRecord>)
    modifies c
    ensures c.Value() == KexAllIngested(old(c.Value()), records)
  {
    for i := 0 to |records|
      invariant c.Value() == KexAllIngested(old(c.Value()), records[..i])
    {
      var rec := records[i];
      assert records[..i + 1][..i] == records[..i];
      var m := Record(c.members, rec.deviceId);
      if m.Some? && VerifyKexRecord(rec, m.value.publicKey) && rec.deviceId !in c.kexKeys {
        c.kexKeys := c.kexKeys[rec.deviceId := rec];
      }
    }
    assert records[..|records|] == records;
  }

  /** Ingesting records only adds verified ones: no stored record is replaced. */
  lemma {:induction false} KexOnlyGrows(c: Circle, records: seq<KexRecord>)
    ensures var r := KexAllIngested(c, records);
      && r == c.(kexKeys := r.kexKeys)
      && (forall d :: d in c.kexKeys ==> d in r.kexKeys && r.kexKeys[d] == c.kexKeys[d])
      && (forall d :: d in r.kexKeys && d !in c.kexKeys ==>
            && r.kexKeys[d] in records && r.kexKeys[d].deviceId == d
            && Known(c.members, d) && VerifyKexRecord(r.kexKeys[d], Record(c.members, d).value.publicKey))
  {
    if records == [] {
    } else {
      KexOnlyGrows(c, records[..|records| - 1]);
    }
  }

  /** The entry of one device: sealed to its recorded key-agreement key, if there is one and it is a key. */
  function SealKeyEntry(c: Circle, epoch: nat, device: DeviceId, key: Bytes): Option<SealedEntry> {
    if device !in c.kexKeys || !c.kexKeys[device].publicKey.Kex? then None
    else Some(HpkeSealed(c.kexKeys[device].publicKey, EntryInfo(c.id, epoch, device), key))
  }

  predicate Recipient(self: Self, m: Member) {
    !m.revoked && m.deviceId != self.device
  }

  function Recipients(self: Self, members: seq<Member>): set<DeviceId> {
    set m | m in members && Recipient(self, m) :: m.deviceId
  }

  function EntriesFor(c: Circle, epoch: nat, key: Bytes, devices: set<DeviceId>): map<DeviceId, SealedEntry> {
    map d | d in devices && SealKeyEntry(c, epoch, d, key).Some? :: SealKeyEntry(c, epoch, d, key).value
  }

  /** The recipients, in roster order, no entry can be sealed for. */
  function CutOff(c: Circle, self: Self, members: seq<Member>): seq<DeviceId> {
    if members == [] then []
    else
      var m := members[|members| - 1];
      CutOff(c, self, members[..|members| - 1]) +
        if Recipient(self, m) && SealKeyEntry(c, 0, m.deviceId, []).None? then [m.deviceId] else []
  }

  function MoveToKey(c: Circle, epoch: nat, key: Bytes): Circle {
    c.(previousKey := Some(PreviousKey(c.keyEpoch, c.groupKey)), groupKey := key, keyEpoch := epoch)
  }

  /** A rotation, with the random key and the date it was given. */
  function Rekeyed(c: Circle, self: Self, key: Bytes, now: Text): Result<Circle> {
    if c.creator != self.device then Err("only the circle creator can rotate its key")
    else
      var epoch := c.keyEpoch + 1;
      var update := SignKeyUpdate(self.key, c.id, epoch, now, EntriesFor(c, epoch, key, Recipients(self, c.members)));
      Ok(MoveToKey(c, epoch, key).(keyUpdate := Some(update)))
  }

  /** The loop of a rotation: an entry for every recipient that can have one, and the list of those that cannot. */
  method SealEntries(c: Circle, self: Self, epoch: nat, key: Bytes)
    returns (entries: map<DeviceId, SealedEntry>, cutOff: seq<DeviceId>)
    ensures entries == EntriesFor(c, epoch, key, Recipients(self, c.members))
    ensures cutOff == CutOff(c, self, c.members)
  {
    entries, cutOff := map[], [];
    for i := 0 to |c.members|
      invariant entries == EntriesFor(c, epoch, key, Recipients(self, c.members[..i]))
      invariant cutOff == CutOff(c, self, c.members[..i])
    {
      var m := c.members[i];
      RecipientsStep(self, c.members, i);
      EntriesStep(c, epoch, key, Recipients(self, c.members[..i]), m.deviceId);
      assert c.members[..i + 1][..i] == c.members[..i];
      if !m.revoked && m.deviceId != self.device {
        var sealed := SealKeyEntry(c, epoch, m.deviceId, key);
        if sealed.None? {
          cutOff := cutOff + [m.deviceId];
        } else {
          entries := entries[m.deviceId := sealed.value];
        }
      }
    }
    assert c.members[..|c.members|] == c.members;
  }

  method RekeyCircle(c: CircleRecord, self: Self, key: Bytes, now: Text) returns (r: Result<seq<DeviceId>>)
    modifies c
    ensures match Rekeyed(old(c.Value()), self, key, now)
            case Err(e) => r == Err(e) && c.Value() == old(c.Value())
            case Ok(after) => r == Ok(CutOff(old(c.Value()), self, old(c.members))) && c.Value() == after
  {
    if c.creator != self.device {
      return Err("only the circle creator can rotate its key");
    }
    var epoch := c.keyEpoch + 1;
    var entries, cutOff := SealEntries(c.Value(), self, epoch, key);
    var update := SignKeyUpdate(self.key, c.id, epoch, now, entries);
    c.previousKey := Some(PreviousKey(c.keyEpoch, c.groupKey));
    c.groupKey, c.keyEpoch, c.keyUpdate := key, epoch, Some(update);
    r := Ok(cutOff);
  }

  lemma EntriesStep(c: Circle, epoch: nat, key: Bytes, devices: set<DeviceId>, d: DeviceId)
    ensures EntriesFor(c, epoch, key, devices + {d}) ==
      match SealKeyEntry(c, epoch, d, key)
      case None => EntriesFor(c, epoch, key, devices)
      case Some(sealed) => EntriesFor(c, epoch, key, devices)[d := sealed]
    ensures devices + {} == devices
    ensures d in devices && SealKeyEntry(c, epoch, d, key).Some? ==> d in EntriesFor(c, epoch, key, devices)
  {
  }

  lemma RecipientsStep(self: Self, members: seq<Member>, i: nat)
    requires i < |members|
    ensures Recipients(self, members[..i + 1]) ==
      Recipients(self, members[..i]) + if Recipient(self, members[i]) then {members[i].deviceId} else {}
  {
    assert members[..i + 1] == members[..i] + [members[i]];
    assert forall m :: m in members[..i + 1] <==> m in members[..i] || m == members[i];
  }

  /** Opens this device's entry, if it was sealed to it for this circle and epoch and holds a whole key. */
  function OpenEntry(self: Self, circleId: Text, epoch: nat, entry: SealedEntry): Option<Bytes> {
    if entry.HpkeSealed? && entry.to == Kex(self.key) && entry.info == EntryInfo(circleId, epoch, self.device)
       && |entry.plain| == KEY_LENGTH
    then Some(entry.plain) else None
  }

  function Adopted(c: Circle, u: KeyUpdate, self: Self): Option<Circle> {
    if u.circleId != c.id || u.epoch <= c.keyEpoch then None
    else
      var creator := Record(c.members, c.creator);
      if creator.None? || !VerifyKeyUpdate(u, creator.value.publicKey) || self.device !in u.entries then None
      else
        var key := OpenEntry(self, c.id, u.epoch, u.entries[self.device]);
        if key.None? then None else Some(MoveToKey(c, u.epoch, key.value).(keyUpdate := Some(u)))
  }

  /** Entries of the current key for recipients the update has none for. */
  function LateEntries(c: Circle, self: Self, u: KeyUpdate, members: seq<Member>): map<DeviceId, SealedEntry> {
    EntriesFor(c, u.epoch, c.groupKey, Recipients(self, members) - u.entries.Keys)
  }

  lemma LateStep(c: Circle, self: Self, u: KeyUpdate, i: nat)
    requires i < |c.members|
    ensures var m := c.members[i];
      var late, next := LateEntries(c, self, u, c.members[..i]), LateEntries(c, self, u, c.members[..i + 1]);
      var sealed := SealKeyEntry(c, u.epoch, m.deviceId, c.groupKey);
      if m.deviceId !in u.entries + late && Recipient(self, m) && sealed.Some?
      then u.entries + next == (u.entries + late)[m.deviceId := sealed.value] && next != map[]
      else next == late
  {
    var m := c.members[i];
    var before := Recipients(self, c.members[..i]) - u.entries.Keys;
    RecipientsStep(self, c.members, i);
    if Recipient(self, m) && m.deviceId !in u.entries {
      assert Recipients(self, c.members[..i + 1]) - u.entries.Keys == before + {m.deviceId};
      EntriesStep(c, u.epoch, c.groupKey, before, m.deviceId);
      assert SealKeyEntry(c, u.epoch, m.deviceId, c.groupKey).Some? ==>
        m.deviceId in LateEntries(c, self, u, c.members[..i + 1]);
    } else {
      assert Recipients(self, c.members[..i + 1]) - u.entries.Keys == before;
    }
  }

  /** On the creator, entries for members whose key-agreement key arrived after the rotation. */
  function Extended(c: Circle, self: Self): Circle {
    if c.creator != self.device || c.keyUpdate.None? || c.keyUpdate.value.epoch != c.keyEpoch then c
    else
      var u := c.keyUpdate.value;
      var late := LateEntries(c, self, u, c.members);
      if late == map[] then c
      else c.(keyUpdate := Some(SignKeyUpdate(self.key, u.circleId, u.epoch, u.createdAt, u.entries + late)))
  }

  method AddLateEntries(c: Circle, self: Self, u: KeyUpdate)
    returns (entries: map<DeviceId, SealedEntry>, added: bool)
    ensures entries == u.entries + LateEntries(c, self, u, c.members)
    ensures added <==> LateEntries(c, self, u, c.members) != map[]
  {
    entries, added := u.entries, false;
    assert u.entries + LateEntries(c, self, u, []) == u.entries;
    for i := 0 to |c.members|
      invariant entries == u.entries + LateEntries(c, self, u, c.members[..i])
      invariant added <==> LateEntries(c, self, u, c.members[..i]) != map[]
    {
      var m := c.members[i];
      LateStep(c, self, u, i);
      if m.deviceId !in entries && !m.revoked && m.deviceId != self.device {
        var sealed := SealKeyEntry(c, u.epoch, m.deviceId, c.groupKey);
        if sealed.Some? {
          entries := entries[m.deviceId := sealed.value];
          added := true;
        }
      }
    }
    assert c.members[..|c.members|] == c.members;
  }

  method ExtendKeyUpdate(c: CircleRecord, self: Self)
    modifies c
    ensures c.Value() == Extended(old(c.Value()), self)
  {
    if c.creator != self.device || c.keyUpdate.None? || c.keyUpdate.value.epoch != c.keyEpoch {
      return;
    }
    var u := c.keyUpdate.value;
    var entries, added := AddLateEntries(c.Value(), self, u);
    if added {
      c.keyUpdate := Some(SignKeyUpdate(self.key, u.circleId, u.epoch, u.createdAt, entries));
    }
  }

  /** One delivery of keys material: records, then an extension, then a newer key, then vouching. */
  function KeysApplied(c: Circle, self: Self, records: seq<KexRecord>, update: Option<KeyUpdate>, now: Text): Circle {
    var ready := Extended(KexAllIngested(c, records), self);
    var moved := if update.None? then None else Adopted(ready, update.value, self);
    Vouched(if moved.Some? then moved.value else ready, self, now)
  }

  method ApplyKeysMaterial(c: CircleRecord, self: Self, records: seq<KexRecord>, update: Option<KeyUpdate>, now: Text)
    returns (adopted: bool)
    modifies c
    ensures c.Value() == KeysApplied(old(c.Value()), self, records, update, now)
    ensures adopted <==>
      update.Some? && Adopted(Extended(KexAllIngested(old(c.Value()), records), self), update.value, self).Some?
  {
    IngestKexRecords(c, records);
    ExtendKeyUpdate(c, self);
    adopted := false;
    if update.Some? {
      var moved := Adopted(c.Value(), update.value, self);
      if moved.Some? {
        c.previousKey, c.keyUpdate := moved.value.previousKey, moved.value.keyUpdate;
        c.groupKey, c.keyEpoch := moved.value.groupKey, moved.value.keyEpoch;
        adopted := true;
      }
    }
    VouchMembers(c, self, now);
  }

  /** The keys a delivery may be sealed with: the current one, then the previous one inside its grace window. */
  function OpenKeys(c: Circle, inGrace: bool): seq<Bytes> {
    [c.groupKey]
    + if c.previousKey.Some? && c.previousKey.value.key != [] && inGrace then [c.previousKey.value.key] else []
  }
}
