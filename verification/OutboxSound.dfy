/** Conservation of chat over every interleaving of posts, flushes, reseals, key changes and restarts. */
module OutboxSound {
  import opened Wrappers
  import opened Identity
  import opened Keys
  import opened Outbox
  import opened OutboxLaws
  import opened OutboxRuns

  lemma {:induction false} WithoutMessageHolds(messages: seq<Message>, id: Text)
    ensures forall m :: m in WithoutMessage(messages, id) <==> m in messages && m.envelope.id != id
  {
    if messages == [] {
    } else {
      WithoutMessageHolds(messages[1..], id);
      assert messages == [messages[0]] + messages[1..];
    }
  }

  ghost predicate DistinctRows(messages: seq<Message>) {
    forall i, j :: 0 <= i < j < |messages| ==> messages[i].envelope.id != messages[j].envelope.id
  }

  lemma {:induction false} WithoutMessageDistinct(messages: seq<Message>, id: Text)
    requires DistinctRows(messages)
    ensures DistinctRows(WithoutMessage(messages, id))
  {
    if messages == [] {
    } else {
      WithoutMessageDistinct(messages[1..], id);
      WithoutMessageHolds(messages[1..], id);
      var later := WithoutMessage(messages[1..], id);
      forall i | 0 <= i < |later|
        ensures later[i].envelope.id != messages[0].envelope.id
      {
        assert later[i] in later && later[i] in messages[1..];
      }
    }
  }

  lemma QueuedIs(outbox: seq<Item>, id: Text)
    ensures Queued(outbox, id) <==> exists x :: x in outbox && x.id == id
  {
    if x :| x in outbox && x.id == id {
      var i :| 0 <= i < |outbox| && outbox[i] == x;
    }
  }

  lemma StoredAsIs(messages: seq<Message>, e: Envelope)
    ensures StoredAs(messages, e) <==> exists m :: m in messages && m.envelope == e
  {
    if m :| m in messages && m.envelope == e {
      var i :| 0 <= i < |messages| && messages[i] == m;
    }
  }

  lemma DraftOf(w: World, id: Text)
    requires DraftsFine(w) && id in w.posts
    ensures DraftFine(w, id, w.posts[id])
  {
  }

  /** Tasks that a step does not touch stay fine. */
  lemma TasksStay(w: World, v: World)
    requires Grows(w, v) && PassesFine(w) && ResealsFine(w)
    ensures v.passes == w.passes ==> PassesFine(v)
    ensures v.reseals == w.reseals ==> ResealsFine(v)
  {
    TasksGrow(w, v);
    hide PassFine, ResealFine, Grows;
  }

  lemma KeysStay(w: World, v: World)
    requires KeysFine(w) && v.keys == w.keys && v.previous == w.previous && v.composed == w.composed
    requires v.born == w.born && v.place.Keys == w.place.Keys && v.moved.Keys == w.moved.Keys
    ensures KeysFine(v)
  {
  }

  /** Drafts that a step does not touch stay fine while the tables gain no row of theirs. */
  lemma DraftGrows(w: World, v: World, id: Text, d: Draft)
    requires Grows(w, v) && DraftFine(w, id, d)
    requires id in v.place && (d.stage == Sealed ==> v.place[id] == w.place[id] && !Queued(v.chat.outbox, id))
    requires d.stage == Sealed || d.stage == Saved ==> id !in v.kept
    ensures DraftFine(v, id, d)
  {
    hide Seal, Queued;
  }

  /** All drafts but one. */
  lemma DraftsGrow(w: World, v: World, id: Text)
    requires Grows(w, v) && DraftsFine(w) && forall k :: k in v.posts && k != id ==>
      k in w.posts && v.posts[k] == w.posts[k]
    requires id in v.posts ==> DraftFine(v, id, v.posts[id])
    requires forall k :: k in w.place && k != id ==> k in v.place && v.place[k] == w.place[k]
    requires forall k :: k in v.posts && k != id && Queued(v.chat.outbox, k) ==> Queued(w.chat.outbox, k)
    requires forall k :: k in v.kept && k !in w.kept ==> k == id
    ensures DraftsFine(v)
  {
    hide Grows, Queued, SealedAt;
    forall k | k in v.posts && k != id
      ensures DraftFine(v, k, v.posts[k])
    {
      DraftOf(w, k);
      DraftGrows(w, v, k, w.posts[k]);
    }
  }

  lemma ComposeSound(w: World, e: Envelope, topic: Text, qos: nat)
    requires Sound(w)
    ensures Sound(Composed(w, e, topic, qos))
  {
    hide Seal, Holds, RowsFine, PassesFine, ResealsFine, AllKept, Keyed, KeysFine, DraftsFine, Grows, Queued, Owed,
      DraftFine;
    var v := Composed(w, e, topic, qos);
    if v == w {
    } else {
      NotYetUsed(w, e.id);
      ComposeRecords(w, v, e, topic, qos);
      ComposedView(w, v, e, topic, qos);
      hide Composed;
      DraftsGrow(w, v, e.id);
      TasksStay(w, v);
    }
  }

  /** No row and no draft is about an id that was never composed. */
  lemma NotYetUsed(w: World, id: Text)
    requires Sound(w) && id !in w.composed
    ensures !Queued(w.chat.outbox, id) && !Owed(w, id) && id !in w.posts
  {
    QueuedIs(w.chat.outbox, id);
    assert forall x :: x in w.chat.outbox ==> RowFine(w, x);
    assert forall k :: Owed(w, k) ==> KeptFine(w, k);
    assert forall k :: k in w.posts ==> DraftFine(w, k, w.posts[k]);
  }

  /** What a composition changes. */
  lemma ComposedView(w: World, v: World, e: Envelope, topic: Text, qos: nat)
    requires v == Composed(w, e, topic, qos) && v != w
    ensures Holds(w, e.mesh) && e.id !in w.composed && e.id in v.posts
    ensures var at := Latest(w, e.mesh);
      v == w.(posts := w.posts[e.id := v.posts[e.id]], composed := w.composed[e.id := e],
              born := w.born[e.id := at], place := w.place[e.id := at], moved := w.moved[e.id := 0])
  {
    hide Seal;
    if !Holds(w, e.mesh) || e.id in w.composed {
    } else if Seal(Current(w, e.mesh), e).None? {
    } else {
    }
  }

  lemma ComposeGrows(w: World, v: World, e: Envelope, topic: Text, qos: nat)
    requires KeysFine(w) && v == Composed(w, e, topic, qos) && v != w
    ensures Grows(w, v) && KeysFine(v) && v.chat == w.chat && e.id in v.posts && e.id !in w.composed
    ensures forall id :: id in w.place ==> v.place[id] == w.place[id]
  {
    ComposedView(w, v, e, topic, qos);
    RecordsOf(w);
    hide Composed, Holds, KeysFine;
    OneMoreKey(w.born, e.id, v.born[e.id]);
    OneMoreKey(w.place, e.id, v.place[e.id]);
    OneMoreKey(w.moved, e.id, 0);
    OneMoreKey(w.composed, e.id, e);
    KeysOnly(w, v);
  }

  lemma OneMoreKey<T>(m: map<Text, T>, id: Text, t: T)
    ensures m[id := t].Keys == m.Keys + {id}
  {
  }

  lemma KeysOnly(w: World, v: World)
    requires KeysFine(w) && v.keys == w.keys && v.previous == w.previous
    requires v.born.Keys == v.place.Keys == v.moved.Keys == v.composed.Keys
    ensures KeysFine(v)
  {
  }

  lemma ComposeRecords(w: World, v: World, e: Envelope, topic: Text, qos: nat)
    requires Sound(w) && v == Composed(w, e, topic, qos) && v != w
    ensures Grows(w, v) && Keyed(v.chat) && KeysFine(v) && RowsFine(v) && AllKept(v)
    ensures e.id in v.posts && DraftFine(v, e.id, v.posts[e.id])
  {
    NotYetUsed(w, e.id);
    ComposeGrows(w, v, e, topic, qos);
    ComposedDraft(w, e, topic, qos);
    hide PassesFine, ResealsFine, Keyed, RowsFine, Grows, DraftsFine, DraftFine, Queued, KeysFine, AllKept, Seal;
    RecordsGrow(w, v);
  }

  lemma ComposedDraft(w: World, e: Envelope, topic: Text, qos: nat)
    requires Composed(w, e, topic, qos) != w && !Queued(w.chat.outbox, e.id) && !Owed(w, e.id)
    ensures var v := Composed(w, e, topic, qos); e.id in v.posts && DraftFine(v, e.id, v.posts[e.id])
  {
    hide Queued;
  }

  /** A step on one draft that leaves the tables alone: it goes, or comes further. */
  lemma DraftMoves(w: World, v: World, id: Text)
    requires Sound(w) && v == w.(posts := v.posts, kept := v.kept, sent := v.sent) && Grows(w, v)
    requires forall k :: Owed(v, k) ==> Owed(w, k)
    requires forall k :: k in v.posts && k != id ==> k in w.posts && v.posts[k] == w.posts[k]
    requires forall k :: k in v.kept && k !in w.kept ==> k == id
    requires id in v.posts ==> DraftFine(v, id, v.posts[id])
    ensures Sound(v)
  {
    RecordsGrow(w, v);
    KeysStay(w, v);
    hide RowsFine, PassesFine, ResealsFine, AllKept, Keyed, KeysFine, DraftsFine, Grows, Owed;
    DraftsGrow(w, v, id);
  }

  lemma SaveKeyed(c: Chat, d: Draft)
    requires Keyed(c) && !Taken(c, d.envelope) && d.item.id == d.envelope.id
    ensures Keyed(Chat(c.messages + [Message(d.envelope, false)], c.outbox + [d.item]))
  {
  }

  lemma SaveSound(w: World, id: Text)
    requires Sound(w)
    ensures Sound(SavedDraft(w, id))
  {
    hide Sound, DraftFine, Taken;
    if id in w.posts && w.posts[id].stage == Sealed {
      if Taken(w.chat, w.posts[id].envelope) {
        DraftMoves(w, w.(posts := w.posts - {id}), id);
      } else {
        SaveGoes(w, id, w.posts[id]);
      }
    }
  }

  lemma SaveGoes(w: World, id: Text, d: Draft)
    requires Sound(w) && id in w.posts && w.posts[id] == d && d.stage == Sealed && !Taken(w.chat, d.envelope)
    ensures Sound(SavedDraft(w, id))
  {
    hide RowsFine, PassesFine, ResealsFine, AllKept, Keyed, KeysFine, DraftsFine, DraftFine, Taken;
    var v := SavedDraft(w, id);
    DraftOf(w, id);
    DraftIds(w, id);
    SaveKeyed(w.chat, d);
    SaveRows(w, v, id, d);
    SaveDrafts(w, v, id, d);
    TasksStay(w, v);
    KeysStay(w, v);
  }

  lemma DraftIds(w: World, id: Text)
    requires id in w.posts && DraftFine(w, id, w.posts[id])
    ensures w.posts[id].item.id == id == w.posts[id].envelope.id
  {
  }

  lemma SaveRows(w: World, v: World, id: Text, d: Draft)
    requires Sound(w) && v == SavedDraft(w, id) && id in w.posts && w.posts[id] == d && d.stage == Sealed
    requires !Taken(w.chat, d.envelope) && DraftFine(w, id, d)
    ensures RowsFine(v) && AllKept(v)
  {
    hide Seal;
    var added := Message(d.envelope, false);
    assert forall m :: m in w.chat.messages ==> m in v.chat.messages;
    assert forall x :: x in w.chat.outbox ==> x in v.chat.outbox;
    assert added in v.chat.messages;
    forall x | x in v.chat.outbox
      ensures RowFine(v, x)
    {
      StoredAsIs(v.chat.messages, v.composed[x.id]);
      if x in w.chat.outbox {
        assert RowFine(w, x);
        StoredAsIs(w.chat.messages, w.composed[x.id]);
      } else {
        assert x == d.item;
      }
    }
    forall k | Owed(v, k)
      ensures KeptFine(v, k)
    {
      QueuedIs(w.chat.outbox, k);
      QueuedIs(v.chat.outbox, k);
      StoredAsIs(v.chat.messages, d.envelope);
      if k == id {
        assert d.item in v.chat.outbox;
      } else {
        assert Owed(w, k) && KeptFine(w, k);
        StoredAsIs(w.chat.messages, w.composed[k]);
        StoredAsIs(v.chat.messages, w.composed[k]);
      }
    }
  }

  lemma SaveDrafts(w: World, v: World, id: Text, d: Draft)
    requires Sound(w) && v == SavedDraft(w, id) && id in w.posts && w.posts[id] == d && d.stage == Sealed
    requires !Taken(w.chat, d.envelope) && DraftFine(w, id, d)
    ensures DraftsFine(v)
  {
    hide Seal;
    forall k | k in v.posts
      ensures DraftFine(v, k, v.posts[k])
    {
      assert DraftFine(w, k, w.posts[k]);
      if k != id && Queued(v.chat.outbox, k) {
        var i :| 0 <= i < |v.chat.outbox| && v.chat.outbox[i].id == k;
        assert i < |w.chat.outbox| ==> v.chat.outbox[i] == w.chat.outbox[i];
      }
    }
  }

  /** Rows of an id that is handed over, or not kept, may go. */
  lemma RowGone(w: World, v: World, id: Text)
    requires Sound(w) && (id in w.sent || !Owed(v, id)) && forall x :: Owed(v, x) ==> Owed(w, x)
    requires v.chat.outbox == WithoutItem(w.chat.outbox, id)
    requires v.chat.messages == w.chat.messages
      || (!Owed(v, id) && v.chat.messages == WithoutMessage(w.chat.messages, id))
    requires v == w.(chat := v.chat, posts := v.posts, passes := v.passes)
    ensures Keyed(v.chat) && RowsFine(v) && AllKept(v) && ResealsFine(v)
    ensures forall x :: Queued(v.chat.outbox, x) ==> Queued(w.chat.outbox, x)
  {
    hide Seal;
    WithoutHolds(w.chat.outbox, id);
    WithoutDistinct(w.chat.outbox, id);
    WithoutMessageHolds(w.chat.messages, id);
    WithoutMessageDistinct(w.chat.messages, id);
    forall x | x in v.chat.outbox
      ensures RowFine(v, x)
    {
      assert RowFine(w, x);
      StoredAsIs(w.chat.messages, w.composed[x.id]);
      StoredAsIs(v.chat.messages, w.composed[x.id]);
    }
    forall k | Owed(v, k)
      ensures KeptFine(v, k)
    {
      assert Owed(w, k) && KeptFine(w, k);
      StoredAsIs(w.chat.messages, w.composed[k]);
      StoredAsIs(v.chat.messages, w.composed[k]);
      QueuedIs(w.chat.outbox, k);
      QueuedIs(v.chat.outbox, k);
    }
    forall x
      ensures Queued(v.chat.outbox, x) ==> Queued(w.chat.outbox, x)
    {
      QueuedIs(w.chat.outbox, x);
      QueuedIs(v.chat.outbox, x);
    }
    forall n | n in w.reseals
      ensures ResealFine(v, w.reseals[n])
    {
      assert ResealFine(w, w.reseals[n]);
    }
  }

  lemma SettleSound(w: World, id: Text, granted: bool)
    requires Sound(w)
    ensures Sound(Settled(w, id, granted))
  {
    hide RowsFine, PassesFine, ResealsFine, AllKept, Keyed, KeysFine, DraftsFine;
    var v := Settled(w, id, granted);
    if v != w {
      DraftOf(w, id);
      if granted {
        hide Sound, KeptFine, Queued, Seal;
        DraftMoves(w, v, id);
      } else {
        RowDropped(w, v, id);
      }
    }
  }

  lemma SendPostSound(w: World, id: Text, sending: Sending)
    requires Sound(w)
    ensures Sound(HandedOver(w, id, sending))
  {
    hide Sound, KeptFine, Queued, Seal, DraftsFine;
    var v := HandedOver(w, id, sending);
    if v != w {
      DraftIsFine(w, id);
      DraftMoves(w, v, id);
    }
  }

  lemma DraftIsFine(w: World, id: Text)
    requires Sound(w) && id in w.posts
    ensures DraftFine(w, id, w.posts[id])
  {
  }

  lemma DeletePostSound(w: World, id: Text)
    requires Sound(w)
    ensures Sound(PostDeleted(w, id))
  {
    hide RowsFine, PassesFine, ResealsFine, AllKept, Keyed, KeysFine, DraftsFine;
    var v := PostDeleted(w, id);
    if v != w {
      DraftOf(w, id);
      RowDropped(w, v, id);
    }
  }

  /** A draft goes together with its row. */
  lemma RowDropped(w: World, v: World, id: Text)
    requires Sound(w) && id in w.posts && (id in w.sent || !Owed(v, id))
    requires v.chat.outbox == WithoutItem(w.chat.outbox, id)
    requires v.chat.messages == w.chat.messages
      || (!Owed(v, id) && v.chat.messages == WithoutMessage(w.chat.messages, id))
    requires v == w.(chat := v.chat, posts := w.posts - {id})
    ensures Sound(v)
  {
    RowGone(w, v, id);
    hide RowsFine, PassesFine, ResealsFine, AllKept, Keyed, KeysFine, DraftsFine, DraftFine, Queued;
    TasksStay(w, v);
    KeysStay(w, v);
    DraftsGrow(w, v, id);
  }

  /** A step on the tasks and keys alone. */
  lemma QuietSound(w: World, v: World)
    requires Sound(w) && Grows(w, v) && v.kept == w.kept && v.posts == w.posts && KeysFine(v)
    requires v == w.(keys := v.keys, previous := v.previous, passes := v.passes, reseals := v.reseals, sent := v.sent)
    requires PassesFine(v) && ResealsFine(v)
    ensures Sound(v)
  {
    RecordsGrow(w, v);
    hide RowsFine, PassesFine, ResealsFine, AllKept, Keyed, KeysFine, DraftsFine, Grows, Owed;
    DraftsStay(w, v);
  }

  lemma DraftsStay(w: World, v: World)
    requires Grows(w, v) && DraftsFine(w) && v.posts == w.posts && v.kept == w.kept && v.place == w.place
    requires forall k :: Queued(v.chat.outbox, k) ==> Queued(w.chat.outbox, k)
    ensures DraftsFine(v)
  {
    hide Grows, Queued, SealedAt;
    forall k | k in v.posts
      ensures DraftFine(v, k, v.posts[k])
    {
      DraftOf(w, k);
      DraftGrows(w, v, k, w.posts[k]);
    }
  }

  /** The queue as loaded is sealed where the record says. */
  lemma QueueFine(w: World, mesh: Text)
    requires RowsFine(w)
    ensures var items := Queue(w.chat.outbox, mesh); ItemsFine(w, mesh, items, Places(w.place, items))
  {
    hide Seal;
    var items := Queue(w.chat.outbox, mesh);
    QueueHolds(w.chat.outbox, mesh);
    forall i | 0 <= i < |items|
      ensures items[i].mesh == mesh && SealedAt(w, items[i], Places(w.place, items)[i])
    {
      assert items[i] in items;
      assert RowFine(w, items[i]);
    }
  }

  lemma LoadSound(w: World, n: nat, mesh: Text)
    requires Sound(w)
    ensures Sound(Loaded(w, n, mesh))
  {
    var v := Loaded(w, n, mesh);
    if v != w {
      QueueFine(w, mesh);
      assert PassFine(v, v.passes[n]) by {
        ItemsGrow(w, v, mesh, v.passes[n].items, v.passes[n].places);
        assert forall i :: 0 <= i < |v.passes[n].items| ==> SealedAt(w, v.passes[n].items[i], v.passes[n].places[i]);
      }
      TasksGrow(w, v);
      hide RowsFine, AllKept, Keyed, DraftsFine, PassFine, ResealFine, Queue, Places, KeysFine;
      KeysStay(w, v);
      QuietSound(w, v);
    }
  }

  lemma SendNextSound(w: World, n: nat, sending: Sending)
    requires Sound(w)
    ensures Sound(NextHanded(w, n, sending))
  {
    hide RowsFine, AllKept, Keyed, DraftsFine, KeysFine, PassFine, ResealsFine;
    var v := NextHanded(w, n, sending);
    if v != w {
      assert Grows(w, v);
      KeysStay(w, v);
      TasksStay(w, v);
      TasksGrow(w, v);
      if n in v.passes {
        HandedFine(w, v, w.passes[n]);
      }
      hide Grows;
      QuietSound(w, v);
    }
  }

  lemma HandedFine(w: World, v: World, p: Pass)
    requires PassFine(w, p) && p.items != [] && Grows(w, v) && p.items[0].id in v.sent
    ensures PassFine(v, p.(handed := true))
  {
    ItemsGrow(w, v, p.mesh, p.items, p.places);
    hide ItemsFine;
  }

  lemma DeleteNextSound(w: World, n: nat)
    requires Sound(w)
    ensures Sound(NextDeleted(w, n))
  {
    var v := NextDeleted(w, n);
    if v != w {
      assert PassFine(w, w.passes[n]);
      hide RowsFine, AllKept, Keyed, ResealsFine, ItemsFine, Queued, DraftsFine, KeysFine;
      RowGone(w, v, w.passes[n].items[0].id);
      KeysStay(w, v);
      TasksGrow(w, v);
      TailFine(w, v, w.passes[n]);
      DraftsStay(w, v);
      hide PassFine;
    }
  }

  lemma TailFine(w: World, v: World, p: Pass)
    requires PassFine(w, p) && p.items != [] && v == w.(chat := v.chat, passes := v.passes)
    ensures PassFine(v, p.(items := p.items[1..], places := p.places[1..], handed := false))
  {
    hide Seal;
    assert forall i :: 0 <= i < |p.items| ==> SealedAt(w, p.items[i], p.places[i]);
  }

  lemma ChangeKeySound(w: World, n: nat, mesh: Text, newKey: Bytes)
    requires Sound(w)
    ensures Sound(KeyChanged(w, n, mesh, newKey))
  {
    hide RowsFine, AllKept, Keyed, DraftsFine, PassesFine, ResealFine;
    var v := KeyChanged(w, n, mesh, newKey);
    if v != w {
      KeysAppended(w, v, mesh, newKey);
      TasksStay(w, v);
      TasksGrow(w, v);
      NewReseal(v, v.reseals[n]);
      hide KeysFine, Grows;
      QuietSound(w, v);
    }
  }

  lemma NewReseal(v: World, r: Reseal)
    requires r.items == [] && r.places == [] && r.mesh in v.keys && r.turn + 1 < |v.keys[r.mesh]|
    ensures ResealFine(v, r)
  {
  }

  lemma KeysAppended(w: World, v: World, mesh: Text, newKey: Bytes)
    requires KeysFine(w) && |newKey| == 32
    requires v == w.(keys := w.keys[mesh := if mesh in w.keys then w.keys[mesh] + [newKey] else [newKey]],
                     previous := v.previous, reseals := v.reseals)
    requires v.previous == w.previous - {mesh}
      || (Holds(w, mesh) && v.previous == w.previous[mesh := Current(w, mesh)])
    ensures KeysFine(v) && Grows(w, v)
  {
  }

  lemma RejoinSound(w: World, mesh: Text, newKey: Bytes)
    requires Sound(w)
    ensures Sound(Rejoined(w, mesh, newKey))
  {
    hide RowsFine, AllKept, Keyed, DraftsFine, PassesFine, ResealsFine;
    var v := Rejoined(w, mesh, newKey);
    if v != w {
      KeysAppended(w, v, mesh, newKey);
      TasksStay(w, v);
      hide KeysFine, Grows;
      QuietSound(w, v);
    }
  }

  lemma LoadResealSound(w: World, n: nat)
    requires Sound(w)
    ensures Sound(ResealLoaded(w, n))
  {
    var v := ResealLoaded(w, n);
    if v != w {
      QueueFine(w, w.reseals[n].mesh);
      assert ResealFine(w, w.reseals[n]);
      var r := v.reseals[n];
      hide RowsFine, AllKept, Keyed, DraftsFine, PassesFine, Queue, Places, KeysFine, ItemsFine;
      KeysStay(w, v);
      TasksStay(w, v);
      TasksGrow(w, v);
      ItemsGrow(w, v, r.mesh, r.items, r.places);
      assert ResealFine(v, r);
      hide ResealFine;
      QuietSound(w, v);
    }
  }

  /** A reseal that goes on to its next item. */
  lemma ResealTail(w: World, v: World, r: Reseal)
    requires Grows(w, v) && ResealFine(w, r) && r.items != []
    ensures ResealFine(v, r.(items := r.items[1..], places := r.places[1..]))
  {
    hide Seal;
    ItemsGrow(w, v, r.mesh, r.items, r.places);
  }

  /** Nothing else depends on what a reseal has left. */
  lemma ResealMoves(w: World, v: World, n: nat)
    requires Sound(w) && v == w.(reseals := v.reseals) && n in w.reseals
    requires v.reseals == w.reseals - {n} || (n in v.reseals && ResealFine(w, v.reseals[n])
      && v.reseals == w.reseals[n := v.reseals[n]])
    ensures Sound(v)
  {
    hide RowsFine, AllKept, Keyed, DraftsFine, PassesFine, KeysFine;
    KeysStay(w, v);
    TasksStay(w, v);
    TasksGrow(w, v);
    if n in v.reseals {
      ItemsGrow(w, v, v.reseals[n].mesh, v.reseals[n].items, v.reseals[n].places);
    }
    hide Grows, ItemsFine;
    QuietSound(w, v);
  }

  lemma ResealNextSound(w: World, n: nat, works: bool)
    requires Sound(w)
    ensures Sound(NextResealed(w, n, works))
  {
    hide Sound, Rewriting, Queued;
    if CanReseal(w, n) {
      var r := w.reseals[n];
      ResealIsFine(w, n);
      ResealTail(w, w, r);
      hide ResealFine;
      if Rewriting(w, n).Some? && !works {
        ResealMoves(w, w.(reseals := w.reseals - {n}), n);
      } else if Rewriting(w, n).Some? && Queued(w.chat.outbox, r.items[0].id) {
        RewriteSound(w, n);
      } else {
        ResealMoves(w, w.(reseals := w.reseals[n := r.(items := r.items[1..], places := r.places[1..])]), n);
      }
    }
  }

  lemma ResealIsFine(w: World, n: nat)
    requires Sound(w) && n in w.reseals
    ensures ResealFine(w, w.reseals[n])
  {
  }

  /** The row holds what the reseal read, under the next key. */
  lemma RewrittenWire(w: World, n: nat)
    requires CanReseal(w, n) && Rewriting(w, n).Some? && ResealFine(w, w.reseals[n])
    ensures var r := w.reseals[n];
      var id := r.items[0].id;
      && id in w.composed && w.composed[id].mesh == r.mesh && w.composed[id].id == id
      && Seal(w.keys[r.mesh][r.turn + 1], w.composed[id]) == Rewriting(w, n)
  {
    var r := w.reseals[n];
    assert SealedAt(w, r.items[0], r.places[0]);
  }

  /** What a rewrite changes. */
  lemma RewrittenView(w: World, v: World, n: nat)
    requires CanReseal(w, n) && Rewriting(w, n).Some? && Queued(w.chat.outbox, w.reseals[n].items[0].id)
    requires v == NextResealed(w, n, true)
    ensures var r := w.reseals[n];
      && v == w.(chat := v.chat, reseals := v.reseals, place := v.place, moved := v.moved)
      && v.reseals == w.reseals[n := r.(items := r.items[1..], places := r.places[1..])]
      && v.place == w.place[r.items[0].id := r.turn + 1] && v.moved.Keys == w.moved.Keys + {r.items[0].id}
      && v.chat == w.chat.(outbox := WithWire(w.chat.outbox, r.items[0].id, Rewriting(w, n).value))
  {
    hide Rewriting, Queued, WithWire;
  }

  lemma RewriteSound(w: World, n: nat)
    requires Sound(w) && CanReseal(w, n) && Rewriting(w, n).Some? && Queued(w.chat.outbox, w.reseals[n].items[0].id)
    ensures Sound(NextResealed(w, n, true))
  {
    hide NextResealed, RowsFine, AllKept, Keyed, DraftsFine, PassesFine, ResealsFine, KeysFine, Rewriting, Queued;
    RewriteRows(w, n);
    RewriteTasks(w, n);
    RewriteDrafts(w, n);
  }

  lemma RewriteTasks(w: World, n: nat)
    requires Sound(w) && CanReseal(w, n) && Rewriting(w, n).Some? && Queued(w.chat.outbox, w.reseals[n].items[0].id)
    ensures var v := NextResealed(w, n, true); KeysFine(v) && PassesFine(v) && ResealsFine(v)
  {
    var v := NextResealed(w, n, true);
    ResealIsFine(w, n);
    RewriteRows(w, n);
    RewrittenView(w, v, n);
    RewrittenWire(w, n);
    RecordsOf(w);
    hide NextResealed, RowsFine, AllKept, Keyed, DraftsFine, PassesFine, KeysFine, ResealFine, Rewriting, Queued, Seal;
    KeysStay(w, v);
    TasksStay(w, v);
    TasksGrow(w, v);
    ResealTail(w, v, w.reseals[n]);
  }

  lemma RewriteDrafts(w: World, n: nat)
    requires Sound(w) && CanReseal(w, n) && Rewriting(w, n).Some? && Queued(w.chat.outbox, w.reseals[n].items[0].id)
    ensures DraftsFine(NextResealed(w, n, true))
  {
    var v := NextResealed(w, n, true);
    var id := w.reseals[n].items[0].id;
    RewriteRows(w, n);
    RewrittenView(w, v, n);
    hide NextResealed, RowsFine, AllKept, Keyed, DraftsFine, PassesFine, ResealsFine, KeysFine, Rewriting, Queued,
      Grows, SealedAt, CanReseal, WithWire;
    if id in v.posts {
      DraftOf(w, id);
      DraftGrows(w, v, id, w.posts[id]);
    }
    DraftsGrow(w, v, id);
  }

  lemma RecordsOf(w: World)
    requires KeysFine(w)
    ensures w.born.Keys == w.place.Keys == w.moved.Keys == w.composed.Keys
  {
  }

  lemma RewriteRows(w: World, n: nat)
    requires Sound(w) && CanReseal(w, n) && Rewriting(w, n).Some? && Queued(w.chat.outbox, w.reseals[n].items[0].id)
    ensures var v := NextResealed(w, n, true);
      && Grows(w, v) && Keyed(v.chat) && RowsFine(v) && AllKept(v)
      && forall k :: Queued(v.chat.outbox, k) <==> Queued(w.chat.outbox, k)
  {
    var v := NextResealed(w, n, true);
    var r := w.reseals[n];
    ResealIsFine(w, n);
    RewrittenWire(w, n);
    RewrittenView(w, v, n);
    RecordsOf(w);
    hide NextResealed, Rewriting, Seal, ResealFine, RowsFine, AllKept, DraftsFine, PassesFine, ResealsFine, Queued,
      KeysFine;
    SameRows(w.chat, v.chat, r.items[0].id, Rewriting(w, n).value);
    RewrittenRows(w, v, r, Rewriting(w, n).value);
    SameKept(w, v);
  }

  /** Writing a wire keeps the rows' ids. */
  lemma SameRows(c: Chat, d: Chat, id: Text, wire: Wire)
    requires Keyed(c) && d == c.(outbox := WithWire(c.outbox, id, wire))
    ensures Keyed(d) && forall k :: Queued(d.outbox, k) <==> Queued(c.outbox, k)
  {
    assert forall i :: 0 <= i < |c.outbox| ==> d.outbox[i].id == c.outbox[i].id;
  }

  lemma RewrittenRows(w: World, v: World, r: Reseal, wire: Wire)
    requires RowsFine(w) && r.items != [] && r.mesh in w.keys && r.turn + 1 < |w.keys[r.mesh]|
    requires var id := r.items[0].id;
      && id in w.composed && w.composed[id].id == id && w.composed[id].mesh == r.mesh
      && Seal(w.keys[r.mesh][r.turn + 1], w.composed[id]) == Some(wire)
      && v.chat == w.chat.(outbox := WithWire(w.chat.outbox, id, wire)) && v.place == w.place[id := r.turn + 1]
    requires v.keys == w.keys && v.composed == w.composed
    ensures RowsFine(v)
  {
    hide Seal, StoredAs;
    forall x | x in v.chat.outbox
      ensures RowFine(v, x)
    {
      var i :| 0 <= i < |v.chat.outbox| && v.chat.outbox[i] == x;
      assert RowFine(w, w.chat.outbox[i]);
    }
  }

  lemma SameKept(w: World, v: World)
    requires AllKept(w) && v.kept == w.kept && v.posts == w.posts && v.sent == w.sent && v.composed == w.composed
    requires v.chat.messages == w.chat.messages && forall k :: Queued(v.chat.outbox, k) <==> Queued(w.chat.outbox, k)
    ensures AllKept(v)
  {
    hide Queued, StoredAs;
    forall k | Owed(v, k)
      ensures KeptFine(v, k)
    {
      assert Owed(w, k) && KeptFine(w, k);
    }
  }

  lemma DeliverSound(w: World, v: World)
    requires Sound(w) && v == w.(chat := v.chat) && v.chat.outbox == w.chat.outbox && Keyed(v.chat)
    requires |w.chat.messages| <= |v.chat.messages|
    requires forall i :: 0 <= i < |w.chat.messages| ==> v.chat.messages[i].envelope == w.chat.messages[i].envelope
    ensures Sound(v)
  {
    assert Grows(w, v);
    DeliverRecords(w, v);
    hide RowsFine, AllKept, Keyed, DraftsFine, PassesFine, ResealsFine, KeysFine, Queued, Grows;
    KeysStay(w, v);
    TasksStay(w, v);
    DraftsStay(w, v);
  }

  lemma DeliverRecords(w: World, v: World)
    requires Sound(w) && v == w.(chat := v.chat) && v.chat.outbox == w.chat.outbox && Grows(w, v)
    requires |w.chat.messages| <= |v.chat.messages|
    requires forall i :: 0 <= i < |w.chat.messages| ==> v.chat.messages[i].envelope == w.chat.messages[i].envelope
    ensures RowsFine(v) && AllKept(v)
  {
    hide Keyed, DraftsFine, PassesFine, ResealsFine, KeysFine, Seal, Grows;
    forall x | x in v.chat.outbox
      ensures RowFine(v, x)
    {
      assert RowFine(w, x);
      var i :| 0 <= i < |w.chat.messages| && w.chat.messages[i].envelope == w.composed[x.id];
      assert v.chat.messages[i].envelope == w.composed[x.id];
    }
    forall k | Owed(v, k)
      ensures KeptFine(v, k)
    {
      assert Owed(w, k) && KeptFine(w, k);
      var i :| 0 <= i < |w.chat.messages| && w.chat.messages[i].envelope == w.composed[k];
      assert v.chat.messages[i].envelope == w.composed[k];
    }
  }

  lemma StopSound(w: World)
    requires Sound(w)
    ensures Sound(Next(w, Stop))
  {
    var v := Next(w, Stop);
    RecordsGrow(w, v);
    KeysStay(w, v);
    hide RowsFine, AllKept, Keyed, KeysFine;
  }

  lemma StepSound(w: World, e: Event)
    requires Sound(w)
    ensures Sound(Next(w, e))
  {
    hide Sound, Composed, SavedDraft, Settled, HandedOver, PostDeleted, Loaded, NextHanded, NextDeleted, KeyChanged,
      Rejoined, ResealLoaded, NextResealed;
    match e {
      case Compose(env, topic, qos) => ComposeSound(w, env, topic, qos);
      case Save(id) => SaveSound(w, id);
      case Settle(id, granted) => SettleSound(w, id, granted);
      case SendPost(id, sending) => SendPostSound(w, id, sending);
      case DeletePost(id) => DeletePostSound(w, id);
      case Load(n, mesh) => LoadSound(w, n, mesh);
      case SendNext(n, sending) => SendNextSound(w, n, sending);
      case DeleteNext(n) => DeleteNextSound(w, n);
      case ChangeKey(n, mesh, newKey) => ChangeKeySound(w, n, mesh, newKey);
      case Rejoin(mesh, newKey) => RejoinSound(w, mesh, newKey);
      case LoadReseal(n) => LoadResealSound(w, n);
      case ResealNext(n, works) => ResealNextSound(w, n, works);
      case Deliver(_, _, _, _, _) => TableStepSound(w, e);
      case Read(_, _) => TableStepSound(w, e);
      case Stop => StopSound(w);
    }
  }

  lemma TableStepSound(w: World, e: Event)
    requires Sound(w) && (e.Deliver? || e.Read?)
    ensures Sound(Next(w, e))
  {
    var v := Next(w, e);
    KeyedOf(w);
    hide Sound, OpenAny, OpenKeys, FromMember;
    if e.Deliver? {
      InsertKeyed(w.chat, v.chat);
    } else {
      assert Keyed(v.chat);
    }
    DeliverSound(w, v);
  }

  lemma KeyedOf(w: World)
    requires Sound(w)
    ensures Keyed(w.chat)
  {
  }

  lemma InsertKeyed(c: Chat, d: Chat)
    requires Keyed(c) && d.outbox == c.outbox
    requires d.messages == c.messages
      || exists m: Message :: !Stored(c.messages, m.envelope.id) && d.messages == c.messages + [m]
    ensures Keyed(d)
  {
  }

  /** Conservation over every run: each post that was kept is stored, and was handed over or is still queued; each
      queued item is the stored post, sealed under the key of its last sealing. */
  lemma {:induction false} RunSound(w: World, events: seq<Event>)
    requires Sound(w)
    ensures Sound(Run(w, events))
    decreases |events|
  {
    hide Sound, Next;
    if events == [] {
    } else {
      StepSound(w, events[0]);
      RunSound(Next(w, events[0]), events[1..]);
    }
  }
}
