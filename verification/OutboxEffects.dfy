/** What a post, a delivered wire, a flush and a reseal do to the stored rows, in terms of what is given. */
module OutboxEffects {
  import opened Wrappers
  import opened Identity
  import opened Circles
  import opened Keys
  import opened KeyEffects
  import opened Outbox
  import opened OutboxLaws

  /** A signed envelope verifies with exactly the fields it was signed with, under the key that signed it. */
  lemma EnvelopeBinds(signer: PublicKey, id: Text, mesh: Text, conversation: Text, sender: DeviceId, timestamp: Text,
      payload: Bytes, rest: Text, e: Envelope, key: PublicKey)
    requires e.signature == ChatSigned(signer, id, mesh, conversation, sender, timestamp, payload, rest)
    ensures VerifyEnvelope(key, e) <==>
      && key.DeviceKey? && key == signer && e.id == id && e.mesh == mesh && e.conversation == conversation
      && e.sender == sender && e.timestamp == timestamp && e.payload == payload && e.rest == rest
  {
  }

  /** The wire opens to e under the current key, or under the previous one inside the grace window; e is of this circle,
      signed under the key of its active sender, admitted, and its id is not stored. */
  ghost predicate Takes(c: Chat, circle: Circle, inGrace: bool, wire: Wire, admit: bool, e: Envelope) {
    && (Open(circle.groupKey, wire) == Some(e)
        || (inGrace && circle.previousKey.Some? && Open(circle.previousKey.value.key, wire) == Some(e)))
    && e.mesh == circle.id && Active(circle.members, e.sender).Some?
    && VerifyEnvelope(Active(circle.members, e.sender).value.publicKey, e)
    && admit && forall m :: m in c.messages ==> m.envelope.id != e.id
  }

  /** A delivery adds the envelope as one row at the end, unread unless this device sent it, if it takes it; in every
      other case it changes nothing. */
  lemma DeliveryIff(c: Chat, circle: Circle, inGrace: bool, wire: Wire, self: DeviceId, admit: bool)
    ensures var after := Accepted(c, circle, inGrace, wire, self, admit);
      && (forall e :: Takes(c, circle, inGrace, wire, admit, e) ==>
            after == c.(messages := c.messages + [Message(e, e.sender != self)]))
      && ((forall e :: !Takes(c, circle, inGrace, wire, admit, e)) ==> after == c)
  {
    var plain := OpenAny(OpenKeys(circle, inGrace), wire);
    forall e
      ensures Takes(c, circle, inGrace, wire, admit, e) ==>
        plain == Some(e) && FromMember(circle, e) && admit && !Stored(c.messages, e.id)
    {
      OpensUnderIff(circle, inGrace, wire, e);
      StoredIff(c.messages, e.id);
    }
    if plain.Some? {
      var e := plain.value;
      OpensUnderIff(circle, inGrace, wire, e);
      StoredIff(c.messages, e.id);
      assert FromMember(circle, e) && admit && !Stored(c.messages, e.id) ==>
        Takes(c, circle, inGrace, wire, admit, e);
    }
    hide OpenAny, OpenKeys, Open, VerifyEnvelope, Active, Stored;
  }

  lemma StoredIff(messages: seq<Message>, id: Text)
    ensures Stored(messages, id) <==> exists m :: m in messages && m.envelope.id == id
  {
    if m :| m in messages && m.envelope.id == id {
      var i :| 0 <= i < |messages| && messages[i] == m;
    }
  }

  /** Where a flush stops: after the first n items went out and were deleted, at the end of the queue or of the sends,
      or at a send that is refused, not allowed, or done but not followed by its deletion. */
  lemma {:induction false} FlushStops(outbox: seq<Item>, items: seq<Item>, env: seq<Sending>, n: nat)
    requires n <= |items| && n <= |env| && forall i :: 0 <= i < n ==> env[i].Delivered?
    requires n == |items| || n == |env| || !env[n].Delivered?
    ensures var f := Flushed(outbox, items, env);
      var stops := n < |items| && n < |env|;
      && f.sent == items[..if stops && env[n].Crashed? then n + 1 else n]
      && (f.failed <==> stops && (env[n].Refused? || env[n].Crashed?))
      && (forall x :: x in f.outbox <==> x in outbox && forall i :: 0 <= i < n ==> x.id != items[i].id)
    decreases n
  {
    if n == 0 {
      assert items[..0] == [];
      if items != [] {
        assert items[..1] == [items[0]];
      }
    } else {
      var rest := WithoutItem(outbox, items[0].id);
      FlushStops(rest, items[1..], env[1..], n - 1);
      WithoutHolds(outbox, items[0].id);
      var f, later := Flushed(outbox, items, env), Flushed(rest, items[1..], env[1..]);
      assert f.sent == [items[0]] + later.sent && f.outbox == later.outbox && f.failed == later.failed;
      assert forall k :: 0 < k <= |items| ==> items[..k] == [items[0]] + items[1..][..k - 1];
      forall x
        ensures x in f.outbox <==> x in outbox && forall i :: 0 <= i < n ==> x.id != items[i].id
      {
        if x in outbox && forall i :: 0 <= i < n ==> x.id != items[i].id {
          assert x.id != items[0].id;
          forall i | 0 <= i < n - 1
            ensures x.id != items[1..][i].id
          {
            assert items[1..][i] == items[i + 1];
          }
        }
        if x in later.outbox {
          forall i | 0 <= i < n
            ensures x.id != items[i].id
          {
            assert i > 0 ==> items[1..][i - 1] == items[i];
          }
        }
      }
    }
  }

  /** The queue loaded for a circle is its rows, each as often as it is stored. */
  lemma {:induction false} QueueIsRows(outbox: seq<Item>, mesh: Text, x: Item)
    ensures multiset(Queue(outbox, mesh))[x] == if x.mesh == mesh then multiset(outbox)[x] else 0
  {
    if outbox == [] {
    } else {
      QueueIsRows(outbox[1..], mesh, x);
      assert outbox == [outbox[0]] + outbox[1..];
      if outbox[0].mesh == mesh {
        SlottedAdds(outbox[0], Queue(outbox[1..], mesh));
      }
    }
  }

  lemma {:induction false} SlottedAdds(x: Item, items: seq<Item>)
    ensures multiset(Slotted(x, items)) == multiset(items) + multiset{x}
  {
    if items == [] || Earlier(x, items[0]) {
    } else {
      SlottedAdds(x, items[1..]);
      assert items == [items[0]] + items[1..];
    }
  }

  /** A post is refused exactly when its id is stored or queued, or the step after saving fails; a kept one counts as
      sent exactly when the send was done, and as waiting otherwise. */
  lemma PostEnds(c: Chat, e: Envelope, topic: Text, qos: nat, wire: Wire, granted: bool, sending: Sending)
    ensures var taken := (exists m :: m in c.messages && m.envelope.id == e.id)
                         || (exists x :: x in c.outbox && x.id == e.id);
      var result := PostedChat(c, e, topic, qos, wire, granted, sending).1;
      && (result.Failed? <==> taken || !granted)
      && (result.Sent? <==> !taken && granted && (sending.Delivered? || sending.Crashed?))
  {
    hide WithoutItem, WithoutMessage;
    StoredIff(c.messages, e.id);
    QueuedIff(c.outbox, e.id);
  }

  lemma QueuedIff(outbox: seq<Item>, id: Text)
    ensures Queued(outbox, id) <==> exists x :: x in outbox && x.id == id
  {
    if x :| x in outbox && x.id == id {
      var i :| 0 <= i < |outbox| && outbox[i] == x;
    }
  }

  lemma {:induction false} WithoutAppends(a: seq<Item>, b: seq<Item>, id: Text)
    ensures WithoutItem(a + b, id) == WithoutItem(a, id) + WithoutItem(b, id)
  {
    if a == [] {
      assert a + b == b;
    } else {
      assert (a + b)[1..] == a[1..] + b;
      WithoutAppends(a[1..], b, id);
    }
  }

  /** Deleting an item takes its one row out and leaves the others in their places. */
  lemma WithoutIs(before: seq<Item>, item: Item, after: seq<Item>)
    requires !Queued(before, item.id) && !Queued(after, item.id)
    ensures WithoutItem(before + [item] + after, item.id) == before + after
  {
    WithoutAppends(before + [item], after, item.id);
    WithoutLast(before, item);
    WithoutAbsent(after, item.id);
  }

  /** The rows of a reseal: a row of this circle that opens under the old key, that the reseal gets to, reopens to the
      same envelope under a new key of 32 bytes; every other row stays as it is. */
  lemma ResealLeaves(outbox: seq<Item>, mesh: Text, oldKey: Bytes, newKey: Bytes, skipped: set<Text>, i: nat)
    requires i < |outbox|
    ensures var all := Resealed(outbox, mesh, oldKey, newKey, skipped);
      && |all| == |outbox| && all[i].(wire := outbox[i].wire) == outbox[i]
      && if outbox[i].mesh == mesh && Open(oldKey, outbox[i].wire).Some? && |newKey| == 32 && outbox[i].id !in skipped
         then Open(newKey, all[i].wire) == Open(oldKey, outbox[i].wire) else all[i] == outbox[i]
  {
    var item := outbox[i];
    if item.mesh == mesh && Open(oldKey, item.wire).Some? {
      SealOpens(newKey, Open(oldKey, item.wire).value);
    }
    hide Open, Seal;
  }
}
