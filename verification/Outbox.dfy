/** A core's chat messages and its outbox (share_chat.go), and the resealing of the outbox after a rotation
    (share_keys_exchange.go). Tables are sequences of rows with a primary key. */
module Outbox {
  import opened Wrappers
  import opened Identity
  import opened Circles
  import opened Keys

  /** A sender signs every field of its envelope but the signature. */
  datatype ChatSignature =
    | Unsigned(text: Text)
    | ChatSigned(signer: PublicKey, id: Text, mesh: Text, conversation: Text, sender: DeviceId, timestamp: Text,
        payload: Bytes, rest: Text)

  /** `rest` stands for the fields only stored and forwarded. */
  datatype Envelope = Envelope(
    id: Text, mesh: Text, conversation: Text, sender: DeviceId, timestamp: Text, payload: Bytes, rest: Text,
    signature: ChatSignature)

  predicate VerifyEnvelope(key: PublicKey, e: Envelope) {
    key.DeviceKey? &&
    e.signature == ChatSigned(key, e.id, e.mesh, e.conversation, e.sender, e.timestamp, e.payload, e.rest)
  }

  /** What a delivered envelope is checked for: its circle, an active sender, and that sender's signature. */
  predicate FromMember(c: Circle, e: Envelope) {
    && e.mesh == c.id && Active(c.members, e.sender).Some?
    && VerifyEnvelope(Active(c.members, e.sender).value.publicKey, e)
  }

  /** AES-GCM, or bytes that open under no key. */
  datatype Cipher = Noise(text: Text) | AesGcm(key: Bytes, plain: Bytes)

  /** An envelope with its payload sealed, or bytes that are no wire envelope. */
  datatype Wire = Malformed(text: Text) | Wire(header: Envelope, cipher: Cipher)

  datatype Message = Message(envelope: Envelope, unread: bool)

  datatype Item = Item(id: Text, mesh: Text, topic: Text, qos: nat, wire: Wire, createdAt: Text)

  function Seal(key: Bytes, e: Envelope): Option<Wire> {
    if |key| != 32 then None else Some(Wire(e.(payload := []), AesGcm(key, e.payload)))
  }

  function Open(key: Bytes, w: Wire): Option<Envelope> {
    if w.Malformed? || w.cipher.Noise? || w.cipher.key != key || |key| !in {16, 24, 32} then None
    else Some(w.header.(payload := w.cipher.plain))
  }

  /** The first of a circle's open keys that opens a wire. */
  function OpenAny(keys: seq<Bytes>, w: Wire): Option<Envelope> {
    if keys == [] then None else if Open(keys[0], w).Some? then Open(keys[0], w) else OpenAny(keys[1..], w)
  }

  predicate Stored(messages: seq<Message>, id: Text) {
    exists i :: 0 <= i < |messages| && messages[i].envelope.id == id
  }

  predicate Queued(outbox: seq<Item>, id: Text) {
    exists i :: 0 <= i < |outbox| && outbox[i].id == id
  }

  /** DELETE FROM outbox WHERE message_id. */
  function WithoutItem(outbox: seq<Item>, id: Text): seq<Item> {
    if outbox == [] then []
    else (if outbox[0].id == id then [] else [outbox[0]]) + WithoutItem(outbox[1..], id)
  }

  /** DELETE FROM messages WHERE message_id. */
  function WithoutMessage(messages: seq<Message>, id: Text): seq<Message> {
    if messages == [] then []
    else (if messages[0].envelope.id == id then [] else [messages[0]]) + WithoutMessage(messages[1..], id)
  }

  /** UPDATE outbox SET wire WHERE message_id. */
  function WithWire(outbox: seq<Item>, id: Text, wire: Wire): seq<Item> {
    seq(|outbox|, i requires 0 <= i < |outbox| => if outbox[i].id == id then outbox[i].(wire := wire) else outbox[i])
  }

  /** UPDATE messages SET unread = 0 WHERE mesh_id AND conversation_id. */
  function ConversationRead(messages: seq<Message>, mesh: Text, conversation: Text): seq<Message> {
    seq(|messages|, i requires 0 <= i < |messages| =>
      if messages[i].envelope.mesh == mesh && messages[i].envelope.conversation == conversation
      then messages[i].(unread := false) else messages[i])
  }

  /** ORDER BY created_at, message_id. */
  predicate Earlier(a: Item, b: Item) {
    a.createdAt < b.createdAt || (a.createdAt == b.createdAt && a.id <= b.id)
  }

  function Slotted(x: Item, items: seq<Item>): seq<Item> {
    if items == [] || Earlier(x, items[0]) then [x] + items else [items[0]] + Slotted(x, items[1..])
  }

  /** SELECT ... FROM outbox WHERE mesh_id ORDER BY created_at, message_id. */
  function Queue(outbox: seq<Item>, mesh: Text): seq<Item> {
    if outbox == [] then []
    else
      var later := Queue(outbox[1..], mesh);
      if outbox[0].mesh == mesh then Slotted(outbox[0], later) else later
  }

  /** How one send goes: done and deleted, refused, done but the process stops before deleting, or not allowed.
      A run of sends that ends early is one that is no longer allowed. */
  datatype Sending = Delivered | Refused | Crashed | Halted

  datatype Flush = Flush(outbox: seq<Item>, sent: seq<Item>, failed: bool)

  /** Sends the loaded items in order, as far as the sends go. */
  function Flushed(outbox: seq<Item>, items: seq<Item>, env: seq<Sending>): Flush
    decreases |items|
  {
    if items == [] || env == [] then Flush(outbox, [], false)
    else
      match env[0]
      case Halted => Flush(outbox, [], false)
      case Refused => Flush(outbox, [], true)
      case Crashed => Flush(outbox, [items[0]], true)
      case Delivered =>
        var later := Flushed(WithoutItem(outbox, items[0].id), items[1..], env[1..]);
        later.(sent := [items[0]] + later.sent)
  }

  /** The item after a reseal: its wire under the new key, when it opened under the old one. */
  function ResealedItem(item: Item, mesh: Text, oldKey: Bytes, newKey: Bytes): Item {
    if item.mesh != mesh || Open(oldKey, item.wire).None? then item
    else match Seal(newKey, Open(oldKey, item.wire).value) case None => item case Some(w) => item.(wire := w)
  }

  function Lesser(a: nat, b: nat): nat {
    if a < b then a else b
  }

  function IdsOf(items: seq<Item>): set<Text> {
    set i | 0 <= i < |items| :: items[i].id
  }

  /** A reseal that does not get to the rows in `skipped`. */
  function Resealed(outbox: seq<Item>, mesh: Text, oldKey: Bytes, newKey: Bytes, skipped: set<Text>): seq<Item> {
    seq(|outbox|, i requires 0 <= i < |outbox| =>
      if outbox[i].id in skipped then outbox[i] else ResealedItem(outbox[i], mesh, oldKey, newKey))
  }

  datatype Chat = Chat(messages: seq<Message>, outbox: seq<Item>)

  /** What a local post ends with. */
  datatype Posted = Failed | Waiting | Sent

  predicate Taken(c: Chat, e: Envelope) {
    Stored(c.messages, e.id) || Queued(c.outbox, e.id)
  }

  function Saved(c: Chat, e: Envelope, topic: Text, qos: nat, wire: Wire): Chat {
    Chat(c.messages + [Message(e, false)], c.outbox + [Item(e.id, e.mesh, topic, qos, wire, e.timestamp)])
  }

  function Discarded(c: Chat, id: Text): Chat {
    Chat(WithoutMessage(c.messages, id), WithoutItem(c.outbox, id))
  }

  /** A local post: save, run the step after saving, send, delete. */
  function PostedChat(c: Chat, e: Envelope, topic: Text, qos: nat, wire: Wire, granted: bool,
      sending: Sending): (Chat, Posted) {
    if Taken(c, e) then (c, Failed)
    else
      var saved := Saved(c, e, topic, qos, wire);
      if !granted then (Discarded(saved, e.id), Failed)
      else
        match sending
        case Delivered => (saved.(outbox := WithoutItem(saved.outbox, e.id)), Sent)
        case Crashed => (saved, Sent)
        case Refused => (saved, Waiting)
        case Halted => (saved, Waiting)
  }

  /** A repeated message id makes no second row. */
  function Inserted(c: Chat, e: Envelope, unread: bool): Chat {
    if Stored(c.messages, e.id) then c else c.(messages := c.messages + [Message(e, unread)])
  }

  /** A delivered wire under the circle as stored; `admit` stands for the rules of direct and group conversations. */
  function Accepted(c: Chat, circle: Circle, inGrace: bool, wire: Wire, self: DeviceId, admit: bool): Chat {
    var e := OpenAny(OpenKeys(circle, inGrace), wire);
    if e.None? || !FromMember(circle, e.value) || !admit then c else Inserted(c, e.value, e.value.sender != self)
  }

  /** Primary keys are unique. */
  ghost predicate Keyed(c: Chat) {
    && (forall i, j :: 0 <= i < j < |c.messages| ==> c.messages[i].envelope.id != c.messages[j].envelope.id)
    && (forall i, j :: 0 <= i < j < |c.outbox| ==> c.outbox[i].id != c.outbox[j].id)
  }

  class ChatDb {
    var messages: seq<Message>
    var outbox: seq<Item>

    function Value(): Chat
      reads this
    {
      Chat(messages, outbox)
    }

    constructor ()
      ensures Value() == Chat([], [])
    {
      messages, outbox := [], [];
    }

    /** Both rows or neither: a taken id rolls the transaction back. */
    method SaveOutgoingChat(e: Envelope, topic: Text, qos: nat, wire: Wire) returns (ok: bool)
      modifies this
      ensures ok <==> !Taken(old(Value()), e)
      ensures Value() == if ok then Saved(old(Value()), e, topic, qos, wire) else old(Value())
    {
      var begun := Value();
      if Stored(messages, e.id) {
        return false;
      }
      messages := messages + [Message(e, false)];
      if Queued(outbox, e.id) {
        messages := begun.messages;
        return false;
      }
      outbox := outbox + [Item(e.id, e.mesh, topic, qos, wire, e.timestamp)];
      return true;
    }

    method DiscardOutgoingChat(id: Text)
      modifies this
      ensures Value() == Discarded(old(Value()), id)
    {
      outbox := WithoutItem(outbox, id);
      messages := WithoutMessage(messages, id);
    }

    method DeleteOutbox(id: Text)
      modifies this`outbox
      ensures outbox == WithoutItem(old(outbox), id)
    {
      outbox := WithoutItem(outbox, id);
    }

    method DeliverLocalChatPost(e: Envelope, topic: Text, qos: nat, wire: Wire, granted: bool, sending: Sending)
      returns (result: Posted)
      modifies this
      ensures (Value(), result) == PostedChat(old(Value()), e, topic, qos, wire, granted, sending)
    {
      var ok := SaveOutgoingChat(e, topic, qos, wire);
      if !ok {
        return Failed;
      }
      if !granted {
        DiscardOutgoingChat(e.id);
        return Failed;
      }
      if sending.Halted? || sending.Refused? {
        return Waiting;
      }
      if sending.Crashed? {
        return Sent;
      }
      DeleteOutbox(e.id);
      return Sent;
    }

    method InsertChatMessage(e: Envelope, unread: bool) returns (added: bool)
      modifies this
      ensures Value() == Inserted(old(Value()), e, unread)
      ensures added <==> !Stored(old(messages), e.id)
    {
      if Stored(messages, e.id) {
        return false;
      }
      messages := messages + [Message(e, unread)];
      return true;
    }

    /** Tries the open keys in turn, then checks the envelope step by step. */
    method AcceptChatWire(circle: Circle, inGrace: bool, wire: Wire, self: DeviceId, admit: bool) returns (added: bool)
      modifies this
      ensures Value() == Accepted(old(Value()), circle, inGrace, wire, self, admit)
      ensures added <==> Value() != old(Value())
    {
      var e := OpenCircleChatWire(OpenKeys(circle, inGrace), wire);
      if e.None? || e.value.mesh != circle.id {
        return false;
      }
      var member := Active(circle.members, e.value.sender);
      if member.None? || !VerifyEnvelope(member.value.publicKey, e.value) || !admit {
        return false;
      }
      var unread := true;
      if self == e.value.sender {
        unread := false;
      }
      added := InsertChatMessage(e.value, unread);
    }

    method OpenCircleChatWire(keys: seq<Bytes>, wire: Wire) returns (e: Option<Envelope>)
      ensures e == OpenAny(keys, wire)
    {
      var i := 0;
      while i < |keys|
        invariant 0 <= i <= |keys| && OpenAny(keys, wire) == OpenAny(keys[i..], wire)
      {
        e := Open(keys[i], wire);
        if e.Some? {
          return;
        }
        assert keys[i..][1..] == keys[i + 1..];
        i := i + 1;
      }
      return None;
    }

    method MarkConversationRead(mesh: Text, conversation: Text)
      modifies this
      ensures Value() == old(Value()).(messages := ConversationRead(old(messages), mesh, conversation))
    {
      messages := ConversationRead(messages, mesh, conversation);
    }

    /** Loads the queue once, then sends and deletes item by item. */
    method FlushOutbox(mesh: Text, env: seq<Sending>) returns (sent: seq<Item>, failed: bool)
      modifies this`outbox
      ensures Flush(outbox, sent, failed) == Flushed(old(outbox), Queue(old(outbox), mesh), env)
    {
      var items := Queue(outbox, mesh);
      sent := [];
      var i := 0;
      assert items[0..] == items && env[0..] == env;
      FlushPrefixed([], Flushed(outbox, items, env));
      while i < |items| && i < |env|
        invariant 0 <= i <= |items| && i <= |env|
        invariant Flushed(old(outbox), items, env) == Prefixed(sent, Flushed(outbox, items[i..], env[i..]))
      {
        var item := items[i];
        ghost var later := Flushed(outbox, items[i..], env[i..]);
        assert items[i..][1..] == items[i + 1..] && env[i..][1..] == env[i + 1..];
        if env[i].Halted? {
          assert sent + [] == sent;
          return sent, false;
        }
        if env[i].Refused? {
          assert sent + [] == sent;
          return sent, true;
        }
        if env[i].Crashed? {
          return sent + [item], true;
        }
        DeleteOutbox(item.id);
        assert sent + ([item] + Flushed(outbox, items[i + 1..], env[i + 1..]).sent)
          == sent + [item] + Flushed(outbox, items[i + 1..], env[i + 1..]).sent;
        sent := sent + [item];
        i := i + 1;
      }
      assert sent + [] == sent;
      return sent, false;
    }

    /** Loads the queue once, then rewrites row by row what the old key opens, until a write fails: the rows from
        `works` on cannot be written. */
    method ResealOutbox(mesh: Text, oldKey: Bytes, newKey: Bytes, works: nat) returns (ok: bool)
      requires Keyed(Value())
      modifies this`outbox
      ensures var queue := Queue(old(outbox), mesh);
        outbox == Resealed(old(outbox), mesh, oldKey, newKey, IdsOf(queue[Lesser(works, |queue|)..]))
    {
      ghost var before := outbox;
      var items := Queue(outbox, mesh);
      QueueHolds(before, mesh);
      ghost var stop := Lesser(works, |items|);
      var i := 0;
      while i < |items|
        invariant 0 <= i <= |items| && |outbox| == |before|
        invariant forall k :: 0 <= k < |before| ==>
          outbox[k] == if before[k] in items[..Lesser(i, stop)] then ResealedItem(before[k], mesh, oldKey, newKey)
            else before[k]
      {
        var item := items[i];
        assert item in items && items[..i + 1] == items[..i] + [item];
        var e := Open(oldKey, item.wire);
        if e.Some? {
          var wire := Seal(newKey, e.value);
          if wire.Some? {
            if i >= works {
              Rewritten(before, outbox, items, mesh, oldKey, newKey, stop);
              return false;
            }
            outbox := WithWire(outbox, item.id, wire.value);
          }
        }
        i := i + 1;
      }
      Rewritten(before, outbox, items, mesh, oldKey, newKey, stop);
      return true;
    }
  }

  /** The rows the reseal got to are the ones before the first it could not write. */
  lemma Rewritten(before: seq<Item>, after: seq<Item>, items: seq<Item>, mesh: Text, oldKey: Bytes, newKey: Bytes,
      stop: nat)
    requires items == Queue(before, mesh) && stop <= |items| && |after| == |before|
    requires forall i, j :: 0 <= i < j < |before| ==> before[i].id != before[j].id
    requires forall k :: 0 <= k < |before| ==>
      after[k] == if before[k] in items[..stop] then ResealedItem(before[k], mesh, oldKey, newKey) else before[k]
    ensures after == Resealed(before, mesh, oldKey, newKey, IdsOf(items[stop..]))
  {
    QueueHolds(before, mesh);
    QueueDistinct(before, mesh);
    forall k | 0 <= k < |before|
      ensures after[k] == Resealed(before, mesh, oldKey, newKey, IdsOf(items[stop..]))[k]
    {
      if before[k].mesh == mesh {
        assert before[k] in items;
        var j :| 0 <= j < |items| && items[j] == before[k];
        if j < stop {
          assert items[..stop][j] == before[k];
        } else {
          assert items[stop..][j - stop] == before[k];
        }
      }
    }
  }

  ghost function Prefixed(sent: seq<Item>, f: Flush): Flush {
    f.(sent := sent + f.sent)
  }

  lemma FlushPrefixed(sent: seq<Item>, f: Flush)
    requires sent == []
    ensures Prefixed(sent, f) == f
  {
    assert sent + f.sent == f.sent;
  }

  lemma {:induction false} SlottedHolds(x: Item, items: seq<Item>)
    ensures forall y :: y in Slotted(x, items) <==> y == x || y in items
  {
    if items == [] {
    } else {
      SlottedHolds(x, items[1..]);
      assert items == [items[0]] + items[1..];
    }
  }

  /** The queue holds exactly the mesh's rows. */
  lemma {:induction false} QueueHolds(outbox: seq<Item>, mesh: Text)
    ensures forall y :: y in Queue(outbox, mesh) <==> y in outbox && y.mesh == mesh
  {
    if outbox == [] {
    } else {
      QueueHolds(outbox[1..], mesh);
      SlottedHolds(outbox[0], Queue(outbox[1..], mesh));
      assert outbox == [outbox[0]] + outbox[1..];
    }
  }

  /** Rows with distinct ids stay distinct in the queue. */
  lemma {:induction false} QueueDistinct(outbox: seq<Item>, mesh: Text)
    requires forall i, j :: 0 <= i < j < |outbox| ==> outbox[i].id != outbox[j].id
    ensures forall i, j :: 0 <= i < j < |Queue(outbox, mesh)| ==> Queue(outbox, mesh)[i].id != Queue(outbox, mesh)[j].id
  {
    if outbox == [] {
    } else {
      QueueDistinct(outbox[1..], mesh);
      QueueHolds(outbox[1..], mesh);
      var later := Queue(outbox[1..], mesh);
      forall k | 0 <= k < |later|
        ensures later[k].id != outbox[0].id
      {
        assert later[k] in later && later[k] in outbox[1..];
      }
      if outbox[0].mesh == mesh {
        SlottedDistinct(outbox[0], later);
      }
    }
  }

  lemma {:induction false} SlottedDistinct(x: Item, items: seq<Item>)
    requires forall i, j :: 0 <= i < j < |items| ==> items[i].id != items[j].id
    requires forall k :: 0 <= k < |items| ==> items[k].id != x.id
    ensures forall i, j :: 0 <= i < j < |Slotted(x, items)| ==> Slotted(x, items)[i].id != Slotted(x, items)[j].id
  {
    if items == [] || Earlier(x, items[0]) {
    } else {
      SlottedDistinct(x, items[1..]);
      SlottedHolds(x, items[1..]);
      var later := Slotted(x, items[1..]);
      forall j | 0 <= j < |later|
        ensures later[j].id != items[0].id
      {
        assert later[j] in later;
      }
    }
  }
}
