/** What one post, one flush and one reseal do when nothing else runs in between. */
module OutboxLaws {
  import opened Wrappers
  import opened Identity
  import opened Circles
  import opened Keys
  import opened Outbox

  lemma SealOpens(key: Bytes, e: Envelope)
    ensures Seal(key, e).Some? <==> |key| == 32
    ensures Seal(key, e).Some? ==> Open(key, Seal(key, e).value) == Some(e)
  {
  }

  lemma {:induction false} WithoutAbsent(outbox: seq<Item>, id: Text)
    requires !Queued(outbox, id)
    ensures WithoutItem(outbox, id) == outbox
  {
    if outbox == [] {
    } else {
      assert forall i :: 0 <= i < |outbox[1..]| ==> outbox[1..][i] == outbox[i + 1];
      WithoutAbsent(outbox[1..], id);
    }
  }

  lemma {:induction false} WithoutLast(outbox: seq<Item>, item: Item)
    requires !Queued(outbox, item.id)
    ensures WithoutItem(outbox + [item], item.id) == outbox
  {
    if outbox == [] {
      assert [item][1..] == [];
    } else {
      assert (outbox + [item])[1..] == outbox[1..] + [item];
      assert forall i :: 0 <= i < |outbox[1..]| ==> outbox[1..][i] == outbox[i + 1];
      WithoutLast(outbox[1..], item);
    }
  }

  lemma {:induction false} WithoutLastMessage(messages: seq<Message>, m: Message)
    requires !Stored(messages, m.envelope.id)
    ensures WithoutMessage(messages + [m], m.envelope.id) == messages
  {
    if messages == [] {
      assert [m][1..] == [];
    } else {
      assert (messages + [m])[1..] == messages[1..] + [m];
      assert forall i :: 0 <= i < |messages[1..]| ==> messages[1..][i] == messages[i + 1];
      WithoutLastMessage(messages[1..], m);
    }
  }

  /** A post that fails leaves nothing behind; one that is kept adds its row at the end, and its item unless it
      was sent and deleted. */
  lemma PostEffect(c: Chat, e: Envelope, topic: Text, qos: nat, wire: Wire, granted: bool, sending: Sending)
    ensures var (after, result) := PostedChat(c, e, topic, qos, wire, granted, sending);
      && (result.Failed? <==> Taken(c, e) || !granted)
      && (result.Failed? ==> after == c)
      && (!result.Failed? ==> after.messages == c.messages + [Message(e, false)])
      && (!result.Failed? && sending.Delivered? ==> after.outbox == c.outbox)
      && (!result.Failed? && !sending.Delivered? ==>
         after.outbox == c.outbox + [Item(e.id, e.mesh, topic, qos, wire, e.timestamp)])
  {
    if !Taken(c, e) {
      WithoutLast(c.outbox, Item(e.id, e.mesh, topic, qos, wire, e.timestamp));
      WithoutLastMessage(c.messages, Message(e, false));
    }
  }

  lemma {:induction false} WithoutHolds(outbox: seq<Item>, id: Text)
    ensures forall x :: x in WithoutItem(outbox, id) <==> x in outbox && x.id != id
  {
    if outbox == [] {
    } else {
      WithoutHolds(outbox[1..], id);
      assert outbox == [outbox[0]] + outbox[1..];
    }
  }

  ghost predicate DistinctItems(items: seq<Item>) {
    forall i, j :: 0 <= i < j < |items| ==> items[i].id != items[j].id
  }

  lemma {:induction false} WithoutDistinct(outbox: seq<Item>, id: Text)
    requires DistinctItems(outbox)
    ensures DistinctItems(WithoutItem(outbox, id))
  {
    if outbox == [] {
    } else {
      WithoutDistinct(outbox[1..], id);
      WithoutHolds(outbox[1..], id);
      var later := WithoutItem(outbox[1..], id);
      forall i | 0 <= i < |later|
        ensures later[i].id != outbox[0].id
      {
        assert later[i] in later && later[i] in outbox[1..];
      }
    }
  }

  /** A flush sends the queue in order as far as the sends go, and deletes only what it sent. */
  lemma {:induction false} FlushEffect(outbox: seq<Item>, items: seq<Item>, env: seq<Sending>)
    requires DistinctItems(outbox)
    ensures var f := Flushed(outbox, items, env);
      && |f.sent| <= |items| && f.sent == items[..|f.sent|]
      && DistinctItems(f.outbox)
      && (forall x :: x in f.outbox ==> x in outbox)
      && (forall x :: x in outbox && x.id !in IdsOf(f.sent) ==> x in f.outbox)
    decreases |items|
  {
    if items == [] || env == [] || !env[0].Delivered? {
    } else {
      var rest := WithoutItem(outbox, items[0].id);
      WithoutHolds(outbox, items[0].id);
      WithoutDistinct(outbox, items[0].id);
      FlushEffect(rest, items[1..], env[1..]);
      var later := Flushed(rest, items[1..], env[1..]);
      var sent := [items[0]] + later.sent;
      assert sent == items[..|sent|];
      assert IdsOf(sent) == {items[0].id} + IdsOf(later.sent) by {
        assert sent[0] == items[0];
        forall id | id in IdsOf(later.sent)
          ensures id in IdsOf(sent)
        {
          var i :| 0 <= i < |later.sent| && later.sent[i].id == id;
          assert sent[i + 1].id == id;
        }
      }
    }
  }

  /** A flush whose sends all go through empties the circle's queue, and sends all of it. */
  lemma {:induction false} FlushDrains(outbox: seq<Item>, items: seq<Item>, env: seq<Sending>)
    requires |env| >= |items| && forall i :: 0 <= i < |items| ==> env[i].Delivered?
    ensures var f := Flushed(outbox, items, env);
      f.sent == items && !f.failed && forall x :: x in f.outbox ==> x in outbox && x.id !in IdsOf(items)
    decreases |items|
  {
    if items == [] {
    } else {
      WithoutHolds(outbox, items[0].id);
      FlushDrains(WithoutItem(outbox, items[0].id), items[1..], env[1..]);
      assert [items[0]] + items[1..] == items;
      forall id | id in IdsOf(items)
        ensures id == items[0].id || id in IdsOf(items[1..])
      {
        var i :| 0 <= i < |items| && items[i].id == id;
        assert i > 0 ==> items[1..][i - 1].id == id;
      }
    }
  }

  /** Resealing keeps an item's id, circle, topic and time. A wire that opened under the old key opens to the same
      envelope under the new one if and only if the new key is one a circle may have, or is the old one. */
  lemma ResealedItemIff(item: Item, mesh: Text, oldKey: Bytes, newKey: Bytes)
    requires item.mesh == mesh && Open(oldKey, item.wire).Some?
    ensures var after := ResealedItem(item, mesh, oldKey, newKey);
      && after.(wire := item.wire) == item
      && (Open(newKey, after.wire) == Open(oldKey, item.wire) <==> |newKey| == 32 || newKey == oldKey)
  {
    SealOpens(newKey, Open(oldKey, item.wire).value);
  }

  lemma OpensAmong(c: Circle, inGrace: bool, wire: Wire)
    ensures OpenAny(OpenKeys(c, inGrace), wire).Some? <==>
      Open(c.groupKey, wire).Some? ||
      (inGrace && c.previousKey.Some? && c.previousKey.value.key != [] && Open(c.previousKey.value.key, wire).Some?)
  {
    var none: seq<Bytes> := [];
    assert OpenAny(none, wire).None?;
    if c.previousKey.Some? && c.previousKey.value.key != [] && inGrace {
      var key := c.previousKey.value.key;
      assert [key][1..] == none && OpenKeys(c, inGrace)[1..] == [key];
      assert OpenAny([key], wire) == if Open(key, wire).Some? then Open(key, wire) else None;
    } else {
      assert OpenKeys(c, inGrace)[1..] == none;
    }
  }

  ghost predicate InOrder(items: seq<Item>) {
    forall i, j :: 0 <= i < j < |items| ==> Earlier(items[i], items[j])
  }

  lemma {:induction false} SlottedOrder(x: Item, items: seq<Item>)
    requires InOrder(items)
    ensures InOrder(Slotted(x, items))
  {
    if items == [] || Earlier(x, items[0]) {
    } else {
      SlottedOrder(x, items[1..]);
      SlottedHolds(x, items[1..]);
      var later := Slotted(x, items[1..]);
      forall j | 0 <= j < |later|
        ensures Earlier(items[0], later[j])
      {
        assert later[j] in later;
      }
    }
  }

  /** The queue is in order of time, then id. */
  lemma {:induction false} QueueInOrder(outbox: seq<Item>, mesh: Text)
    ensures InOrder(Queue(outbox, mesh))
  {
    if outbox == [] {
    } else {
      QueueInOrder(outbox[1..], mesh);
      if outbox[0].mesh == mesh {
        SlottedOrder(outbox[0], Queue(outbox[1..], mesh));
      }
    }
  }

  lemma {:induction false} SlottedResealed(
      x: Item, items: seq<Item>, mesh: Text, oldKey: Bytes, newKey: Bytes, skipped: set<Text>)
    ensures var y := Resealed([x], mesh, oldKey, newKey, skipped)[0];
      Slotted(y, Resealed(items, mesh, oldKey, newKey, skipped))
        == Resealed(Slotted(x, items), mesh, oldKey, newKey, skipped)
  {
    hide ResealedItem;
    ResealedSame(x, mesh, oldKey, newKey);
    if items == [] {
    } else {
      ResealedSame(items[0], mesh, oldKey, newKey);
      SlottedResealed(x, items[1..], mesh, oldKey, newKey, skipped);
      assert Resealed(items, mesh, oldKey, newKey, skipped)[1..] == Resealed(items[1..], mesh, oldKey, newKey, skipped);
    }
  }

  lemma ResealedSame(x: Item, mesh: Text, oldKey: Bytes, newKey: Bytes)
    ensures ResealedItem(x, mesh, oldKey, newKey).(wire := x.wire) == x
  {
  }

  /** However far it gets, a reseal keeps the order of the queue: the queue afterwards is the old one resealed. */
  lemma {:induction false} QueueResealed(outbox: seq<Item>, mesh: Text, oldKey: Bytes, newKey: Bytes,
      skipped: set<Text>)
    ensures Queue(Resealed(outbox, mesh, oldKey, newKey, skipped), mesh)
      == Resealed(Queue(outbox, mesh), mesh, oldKey, newKey, skipped)
  {
    if outbox == [] {
    } else {
      hide ResealedItem;
      var x := Resealed([outbox[0]], mesh, oldKey, newKey, skipped)[0];
      ResealedSame(outbox[0], mesh, oldKey, newKey);
      assert Resealed(outbox, mesh, oldKey, newKey, skipped)[0] == x;
      assert Resealed(outbox, mesh, oldKey, newKey, skipped)[1..]
        == Resealed(outbox[1..], mesh, oldKey, newKey, skipped);
      QueueResealed(outbox[1..], mesh, oldKey, newKey, skipped);
      SlottedResealed(outbox[0], Queue(outbox[1..], mesh), mesh, oldKey, newKey, skipped);
    }
  }
}
