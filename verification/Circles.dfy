/** Optional values and error returns. */
module Wrappers {
  datatype Option<+T> = None | Some(value: T)
  datatype Result<+T> = Ok(value: T) | Err(reason: string)
}

/** Symbolic identities and cryptography. A public key records the device id its hash yields, so two keys may
    share an id; a signature opens only under the key that made it, and a sealed entry only under the
    key-agreement key, and for the circle, epoch and device, it was sealed for. */
module Identity {
  /** Texts the code only stores and compares. EMPTY is the empty string. */
  type Text = nat
  const EMPTY: Text := 0
  type DeviceId = Text
  type Bytes = seq<nat>

  datatype PublicKey = Undecodable(text: Text) | DeviceKey(device: DeviceId, material: nat)

  /** Key-agreement keys: text that is not base64, bytes that are not a key, or the key derived from an identity. */
  datatype KexKey = NotBase64(text: Text) | NotAKey(raw: Text) | Kex(owner: PublicKey)

  datatype EntryInfo = EntryInfo(circleId: Text, epoch: nat, device: DeviceId)

  datatype SealedEntry = Garbled(text: Text) | HpkeSealed(to: KexKey, info: EntryInfo, plain: Bytes)

  /** What the code signs. Each constructor stands for one purpose string. */
  datatype Payload =
    | AdmissionPayload(circleId: Text, device: DeviceId, key: PublicKey, invitedBy: DeviceId, addedAt: Text)
    | RevocationPayload(circleId: Text, device: DeviceId, revokedAt: Text)
    | KexPayload(device: DeviceId, kex: KexKey)
    | KeyUpdatePayload(circleId: Text, epoch: nat, createdAt: Text, entries: map<DeviceId, SealedEntry>)

  datatype Signature = NoSignature(text: Text) | Signed(signer: PublicKey, payload: Payload)

  predicate MemberKeyBound(device: DeviceId, key: PublicKey) {
    key.DeviceKey? && key.device == device
  }

  predicate Verifies(key: PublicKey, payload: Payload, sig: Signature) {
    key.DeviceKey? && sig == Signed(key, payload)
  }
}

/** The circle record every core stores, and the lookups the protocols share. */
module Circles {
  import opened Wrappers
  import opened Identity

  datatype Member = Member(
    deviceId: DeviceId, publicKey: PublicKey, addedAt: Text, revoked: bool,
    endpoint: Text, remoteAddr: Text, hostname: Text, lastSeen: Text)

  datatype Admission = Admission(invitedBy: DeviceId, addedAt: Text, signature: Signature)
  datatype Revocation = Revocation(revokedAt: Text, signature: Signature)
  datatype KexRecord = KexRecord(deviceId: DeviceId, publicKey: KexKey, signature: Signature)
  datatype PreviousKey = PreviousKey(epoch: nat, key: Bytes)
  datatype KeyUpdate = KeyUpdate(
    circleId: Text, epoch: nat, createdAt: Text, entries: map<DeviceId, SealedEntry>, signature: Signature)

  datatype Circle = Circle(
    id: Text, creator: DeviceId, members: seq<Member>,
    admissions: map<DeviceId, Admission>, revocations: map<DeviceId, Revocation>,
    groupKey: Bytes, keyEpoch: nat, previousKey: Option<PreviousKey>,
    keyUpdate: Option<KeyUpdate>, kexKeys: map<DeviceId, KexRecord>)

  /** The first record of a device. */
  function Record(members: seq<Member>, device: DeviceId): Option<Member> {
    if members == [] then None
    else if members[0].deviceId == device then Some(members[0])
    else Record(members[1..], device)
  }

  /** The first record of a device that is not revoked. */
  function Active(members: seq<Member>, device: DeviceId): Option<Member> {
    if members == [] then None
    else if members[0].deviceId == device && !members[0].revoked then Some(members[0])
    else Active(members[1..], device)
  }

  predicate Known(members: seq<Member>, device: DeviceId) {
    Record(members, device).Some?
  }

  ghost predicate DistinctIds(members: seq<Member>) {
    forall i, j :: 0 <= i < j < |members| ==> members[i].deviceId != members[j].deviceId
  }

  /** The stored record as the object the roster and key operations update in place. */
  class CircleRecord {
    const id: Text
    const creator: DeviceId
    var members: seq<Member>
    var admissions: map<DeviceId, Admission>
    var revocations: map<DeviceId, Revocation>
    var groupKey: Bytes
    var keyEpoch: nat
    var previousKey: Option<PreviousKey>
    var keyUpdate: Option<KeyUpdate>
    var kexKeys: map<DeviceId, KexRecord>

    constructor (c: Circle)
      ensures Value() == c
    {
      id, creator, members := c.id, c.creator, c.members;
      admissions, revocations := c.admissions, c.revocations;
      groupKey, keyEpoch, previousKey := c.groupKey, c.keyEpoch, c.previousKey;
      keyUpdate, kexKeys := c.keyUpdate, c.kexKeys;
    }

    function Value(): Circle
      reads this
    {
      Circle(id, creator, members, admissions, revocations, groupKey, keyEpoch, previousKey, keyUpdate, kexKeys)
    }
  }

  lemma {:induction false} RecordFound(members: seq<Member>, device: DeviceId) returns (i: nat)
    requires Known(members, device)
    ensures i < |members| && members[i].deviceId == device && Record(members, device) == Some(members[i])
    ensures forall j :: 0 <= j < i ==> members[j].deviceId != device
  {
    if members[0].deviceId == device {
      i := 0;
    } else {
      i := RecordFound(members[1..], device);
      i := i + 1;
    }
  }

  lemma {:induction false} KnownAt(members: seq<Member>, i: nat)
    requires i < |members|
    ensures Known(members, members[i].deviceId)
  {
    if i == 0 {
    } else {
      KnownAt(members[1..], i - 1);
    }
  }

  lemma {:induction false} ActiveFound(members: seq<Member>, device: DeviceId) returns (i: nat)
    requires Active(members, device).Some?
    ensures i < |members| && Active(members, device) == Some(members[i])
    ensures members[i].deviceId == device && !members[i].revoked
  {
    if members[0].deviceId == device && !members[0].revoked {
      i := 0;
    } else {
      i := ActiveFound(members[1..], device);
      i := i + 1;
    }
  }

  lemma {:induction false} ActiveAt(members: seq<Member>, i: nat)
    requires i < |members| && !members[i].revoked
    ensures Active(members, members[i].deviceId).Some?
  {
    if i == 0 {
    } else {
      ActiveAt(members[1..], i - 1);
    }
  }

  lemma {:induction false} RecordAppend(a: seq<Member>, b: seq<Member>, device: DeviceId)
    ensures Record(a + b, device) == if Known(a, device) then Record(a, device) else Record(b, device)
  {
    if a == [] {
      assert a + b == b;
    } else {
      assert (a + b)[1..] == a[1..] + b;
      RecordAppend(a[1..], b, device);
    }
  }

  lemma {:induction false} ActiveAppend(a: seq<Member>, b: seq<Member>, device: DeviceId)
    ensures Active(a + b, device) == if Active(a, device).Some? then Active(a, device) else Active(b, device)
  {
    if a == [] {
      assert a + b == b;
    } else {
      assert (a + b)[1..] == a[1..] + b;
      ActiveAppend(a[1..], b, device);
    }
  }

  /** With distinct ids the record of a listed device is the one listed. */
  lemma RecordAt(members: seq<Member>, i: nat)
    requires DistinctIds(members) && i < |members|
    ensures Record(members, members[i].deviceId) == Some(members[i])
    ensures Active(members, members[i].deviceId) == if members[i].revoked then None else Some(members[i])
  {
    var d := members[i].deviceId;
    KnownAt(members, i);
    var j := RecordFound(members, d);
    assert i == j;
    if Active(members, d).Some? {
      var k := ActiveFound(members, d);
      assert i == k;
    } else if !members[i].revoked {
      ActiveAt(members, i);
    }
  }
}
