/** Where the rows of the outbox stand among their circle's keys, when no key comes back: each rewrite by a reseal moves
    a row on by exactly one key. */
module OutboxTurns {
  import opened Wrappers
  import opened Identity
  import opened Circles
  import opened Keys
  import opened Outbox
  import opened OutboxLaws
  import opened OutboxRuns
  import opened OutboxSound

  /** What is sealed under a key opens under the keys equal to it, and gives the envelope composed. */
  lemma SealedOpensIff(w: World, item: Item, q: nat, key: Bytes)
    requires SealedAt(w, item, q)
    ensures Open(key, item.wire).Some? <==> key == w.keys[item.mesh][q]
    ensures Open(key, item.wire).Some? ==> Open(key, item.wire) == Some(w.composed[item.id])
  {
  }

  /** A new key is 32 random bytes, never one the circle had on this core. */
  predicate Fit(w: World, e: Event) {
    && (e.ChangeKey? && e.mesh in w.keys ==> e.newKey !in w.keys[e.mesh])
    && (e.Rejoin? && e.mesh in w.keys ==> e.newKey !in w.keys[e.mesh])
  }

  predicate FitRun(w: World, events: seq<Event>)
    decreases |events|
  {
    events == [] || (Fit(w, events[0]) && FitRun(Next(w, events[0]), events[1..]))
  }

  ghost predicate DistinctKeys(w: World) {
    forall mesh, a, b :: mesh in w.keys && 0 <= a < b < |w.keys[mesh]| ==> w.keys[mesh][a] != w.keys[mesh][b]
  }

  /** What was rewritten once for each key since it was sealed. */
  ghost predicate PlacesFollow(w: World) {
    forall id :: id in w.composed ==>
      id in w.place && id in w.born && id in w.moved && w.place[id] == w.born[id] + w.moved[id]
  }

  /** A reseal read each row once; a row it read under its old key is still under that key. */
  ghost predicate SnapshotFine(w: World, r: Reseal) {
    && |r.places| == |r.items| && DistinctItems(r.items)
    && (forall i :: 0 <= i < |r.items| ==> r.items[i].id in w.composed)
    && (forall i :: 0 <= i < |r.items| && r.items[i].id in w.posts ==> w.posts[r.items[i].id].stage != Sealed)
    && (forall i :: 0 <= i < |r.items| && r.places[i] == r.turn && Queued(w.chat.outbox, r.items[i].id) ==>
          r.items[i].id in w.place && w.place[r.items[i].id] == r.turn)
  }

  ghost predicate SnapshotsFine(w: World) {
    forall n :: n in w.reseals ==> SnapshotFine(w, w.reseals[n])
  }

  /** A key change starts one reseal. */
  ghost predicate OneReseal(w: World) {
    forall m, n :: m in w.reseals && n in w.reseals && m != n && w.reseals[m].mesh == w.reseals[n].mesh ==>
      w.reseals[m].turn != w.reseals[n].turn
  }

  ghost predicate InTurn(w: World) {
    Sound(w) && DistinctKeys(w) && PlacesFollow(w) && SnapshotsFine(w) && OneReseal(w)
  }

  lemma StartInTurn()
    ensures InTurn(START)
  {
    StartSound();
  }

  /** A step that changes no key, no place and no reseal, and queues nothing a reseal has read. */
  ghost predicate Tame(w: World, v: World) {
    && v.keys == w.keys && v.reseals == w.reseals
    && (forall id :: id in w.composed ==> id in v.composed)
    && (forall id :: id in w.place ==> id in v.place && v.place[id] == w.place[id])
    && (forall id :: id in v.posts && v.posts[id].stage == Sealed ==>
          id !in w.composed || (id in w.posts && w.posts[id].stage == Sealed))
    && (forall id :: Queued(v.chat.outbox, id) ==>
          Queued(w.chat.outbox, id) || (id in w.posts && w.posts[id].stage == Sealed))
  }

  lemma StaysInTurn(w: World, v: World)
    requires InTurn(w) && Sound(v) && Tame(w, v) && PlacesFollow(v)
    ensures InTurn(v)
  {
    hide Sound, PlacesFollow, Queued, OneReseal, DistinctItems;
    forall n | n in v.reseals
      ensures SnapshotFine(v, v.reseals[n])
    {
      assert SnapshotFine(w, w.reseals[n]);
    }
    SameReseals(w, v);
  }

  lemma SameReseals(w: World, v: World)
    requires OneReseal(w) && DistinctKeys(w) && v.reseals == w.reseals && v.keys == w.keys
    ensures OneReseal(v) && DistinctKeys(v)
  {
  }

  lemma ComposeTame(w: World, e: Envelope, topic: Text, qos: nat)
    requires KeysFine(w) && PlacesFollow(w)
    ensures var v := Composed(w, e, topic, qos); Tame(w, v) && PlacesFollow(v)
  {
    hide Queued, Seal;
    var v := Composed(w, e, topic, qos);
    if v != w {
      ComposeGrows(w, v, e, topic, qos);
    }
  }

  lemma SaveTame(w: World, id: Text)
    requires DraftsFine(w)
    ensures Tame(w, SavedDraft(w, id)) && SameRecords(w, SavedDraft(w, id))
  {
    hide SavedDraft, Tame, DraftsFine, Taken;
    if id in w.posts && w.posts[id].stage == Sealed && !Taken(w.chat, w.posts[id].envelope) {
      SaveAppends(w, id);
    } else {
      SaveDrops(w, id);
    }
  }

  lemma SaveAppends(w: World, id: Text)
    requires DraftsFine(w) && id in w.posts && w.posts[id].stage == Sealed && !Taken(w.chat, w.posts[id].envelope)
    ensures Tame(w, SavedDraft(w, id)) && SameRecords(w, SavedDraft(w, id))
  {
    hide Taken, Tame, DraftFine, DraftsFine;
    DraftOf(w, id);
    DraftIds(w, id);
    AppendTame(w, SavedDraft(w, id), w.posts[id].item);
  }

  lemma SaveDrops(w: World, id: Text)
    requires id in w.posts && w.posts[id].stage == Sealed ==> Taken(w.chat, w.posts[id].envelope)
    ensures Tame(w, SavedDraft(w, id)) && SameRecords(w, SavedDraft(w, id))
  {
    hide Taken, Tame;
    SameTableTame(w, SavedDraft(w, id));
  }

  /** A row of a draft that was sealed only. */
  lemma AppendTame(w: World, v: World, x: Item)
    requires v == w.(chat := v.chat, posts := v.posts) && v.chat.outbox == w.chat.outbox + [x]
    requires x.id in w.posts && w.posts[x.id].stage == Sealed
    requires forall k :: k in v.posts && v.posts[k].stage == Sealed ==> k in w.posts && w.posts[k].stage == Sealed
    ensures Tame(w, v)
  {
    forall k | Queued(v.chat.outbox, k)
      ensures Queued(w.chat.outbox, k) || k == x.id
    {
      var i :| 0 <= i < |v.chat.outbox| && v.chat.outbox[i].id == k;
      assert i < |w.chat.outbox| ==> v.chat.outbox[i] == w.chat.outbox[i];
    }
  }

  /** Deleting rows queues nothing. */
  lemma WithoutTame(w: World, v: World, id: Text)
    requires v == w.(chat := v.chat, posts := v.posts, passes := v.passes)
      && v.chat.outbox == WithoutItem(w.chat.outbox, id)
    requires forall k :: k in v.posts && v.posts[k].stage == Sealed ==> k in w.posts && w.posts[k].stage == Sealed
    ensures Tame(w, v)
  {
    WithoutHolds(w.chat.outbox, id);
    forall k | Queued(v.chat.outbox, k)
      ensures Queued(w.chat.outbox, k)
    {
      QueuedIs(v.chat.outbox, k);
      QueuedIs(w.chat.outbox, k);
    }
  }

  lemma SameTableTame(w: World, v: World)
    requires v.chat.outbox == w.chat.outbox && v.keys == w.keys && v.reseals == w.reseals
    requires v.composed == w.composed && v.place == w.place
    requires forall k :: k in v.posts && v.posts[k].stage == Sealed ==> k in w.posts && w.posts[k].stage == Sealed
    ensures Tame(w, v)
  {
  }

  lemma SettleTame(w: World, id: Text, granted: bool)
    ensures Tame(w, Settled(w, id, granted)) && SameRecords(w, Settled(w, id, granted))
  {
    var v := Settled(w, id, granted);
    hide Tame;
    if v != w && !granted {
      WithoutTame(w, v, id);
    } else {
      SameTableTame(w, v);
    }
  }

  lemma DeletePostTame(w: World, id: Text)
    ensures Tame(w, PostDeleted(w, id)) && SameRecords(w, PostDeleted(w, id))
  {
    var v := PostDeleted(w, id);
    hide Tame;
    if v != w {
      WithoutTame(w, v, id);
    } else {
      SameTableTame(w, v);
    }
  }

  lemma DeleteNextTame(w: World, n: nat)
    ensures Tame(w, NextDeleted(w, n)) && SameRecords(w, NextDeleted(w, n))
  {
    var v := NextDeleted(w, n);
    hide Tame;
    if v != w {
      WithoutTame(w, v, w.passes[n].items[0].id);
    } else {
      SameTableTame(w, v);
    }
  }

  lemma SendTame(w: World, e: Event)
    requires e.SendPost? || e.Load? || e.SendNext? || e.Deliver? || e.Read?
    ensures Tame(w, Next(w, e)) && SameRecords(w, Next(w, e))
  {
    hide Tame, Accepted, ConversationRead, HandedOver, Loaded, NextHanded;
    match e {
      case SendPost(id, sending) => SendPostTame(w, id, sending);
      case Load(n, mesh) => LoadTame(w, n, mesh);
      case SendNext(n, sending) => SendNextTame(w, n, sending);
      case Deliver(circle, inGrace, wire, self, admit) =>
        SameQueue(w.chat, circle, inGrace, wire, self, admit);
        SameTableTame(w, Next(w, e));
      case Read(_, _) => SameTableTame(w, Next(w, e));
    }
  }

  lemma SameQueue(c: Chat, circle: Circle, inGrace: bool, wire: Wire, self: DeviceId, admit: bool)
    ensures Accepted(c, circle, inGrace, wire, self, admit).outbox == c.outbox
  {
    hide OpenAny, OpenKeys, FromMember;
  }

  lemma SendPostTame(w: World, id: Text, sending: Sending)
    ensures Tame(w, HandedOver(w, id, sending)) && SameRecords(w, HandedOver(w, id, sending))
  {
    hide Tame;
    if id !in w.posts || w.posts[id].stage != Kept {
    } else if sending.Delivered? {
    } else {
    }
    SameTableTame(w, HandedOver(w, id, sending));
  }

  lemma LoadTame(w: World, n: nat, mesh: Text)
    ensures Tame(w, Loaded(w, n, mesh)) && SameRecords(w, Loaded(w, n, mesh))
  {
    hide Queue, Places, Tame;
    if n in w.passes || !Holds(w, mesh) {
    } else {
    }
    SameTableTame(w, Loaded(w, n, mesh));
  }

  lemma SendNextTame(w: World, n: nat, sending: Sending)
    ensures Tame(w, NextHanded(w, n, sending)) && SameRecords(w, NextHanded(w, n, sending))
  {
    hide Tame;
    if n !in w.passes || w.passes[n].items == [] || w.passes[n].handed {
      SameTableTame(w, w);
    } else if !sending.Delivered? {
      SameTableTame(w, w.(passes := w.passes - {n}));
    } else {
      var p := w.passes[n];
      SameTableTame(w, w.(passes := w.passes[n := p.(handed := true)], sent := w.sent + {p.items[0].id}));
    }
  }

  predicate SameRecords(w: World, v: World) {
    v.composed == w.composed && v.place == w.place && v.born == w.born && v.moved == w.moved
  }

  lemma PlacesStay(w: World, v: World)
    requires PlacesFollow(w) && SameRecords(w, v)
    ensures PlacesFollow(v)
  {
  }

  predicate OnTables(e: Event) {
    e.Save? || e.Settle? || e.DeletePost? || e.DeleteNext? || e.SendPost? || e.Load? || e.SendNext? || e.Deliver?
      || e.Read?
  }

  lemma TableInTurn(w: World, e: Event)
    requires InTurn(w) && OnTables(e)
    ensures InTurn(Next(w, e))
  {
    var v := Next(w, e);
    StepSound(w, e);
    DraftsOf(w);
    hide Sound, InTurn, Tame, SavedDraft, Settled, HandedOver, PostDeleted, Loaded, NextHanded, NextDeleted, Composed,
      KeyChanged, Rejoined, ResealLoaded, NextResealed, PlacesFollow, DraftsFine;
    if e.Save? {
      SaveTame(w, e.id);
    } else if e.Settle? {
      SettleTame(w, e.id, e.granted);
    } else if e.DeletePost? {
      DeletePostTame(w, e.id);
    } else if e.DeleteNext? {
      DeleteNextTame(w, e.n);
    } else {
      SendTame(w, e);
    }
    PlacesStay(w, v);
    StaysInTurn(w, v);
  }

  lemma DraftsOf(w: World)
    requires InTurn(w)
    ensures DraftsFine(w) && PlacesFollow(w)
  {
  }

  lemma ComposeInTurn(w: World, e: Envelope, topic: Text, qos: nat)
    requires InTurn(w)
    ensures InTurn(Composed(w, e, topic, qos))
  {
    ComposeSound(w, e, topic, qos);
    KeysOf(w);
    DraftsOf(w);
    hide Sound, InTurn, Tame, PlacesFollow, KeysFine, Composed;
    ComposeTame(w, e, topic, qos);
    StaysInTurn(w, Composed(w, e, topic, qos));
  }

  lemma KeysOf(w: World)
    requires InTurn(w)
    ensures KeysFine(w) && Keyed(w.chat) && Sound(w)
  {
  }

  lemma StopInTurn(w: World)
    requires InTurn(w)
    ensures InTurn(Next(w, Stop))
  {
    StopSound(w);
    hide Sound;
  }

  /** A new key, with or without a reseal to follow. */
  lemma KeyAdded(w: World, v: World, mesh: Text, newKey: Bytes)
    requires InTurn(w) && (mesh in w.keys ==> newKey !in w.keys[mesh])
    requires v == w.(keys := v.keys, previous := v.previous, reseals := v.reseals)
    requires v.keys == w.keys[mesh := if mesh in w.keys then w.keys[mesh] + [newKey] else [newKey]]
    ensures DistinctKeys(v) && PlacesFollow(v) && forall n :: n in w.reseals ==> SnapshotFine(v, w.reseals[n])
  {
    hide Queued, Sound, DistinctItems;
    KeysDistinct(w, v, mesh, newKey);
    hide DistinctKeys;
    PlacesStay(w, v);
    hide PlacesFollow;
    forall n | n in w.reseals
      ensures SnapshotFine(v, w.reseals[n])
    {
      assert SnapshotFine(w, w.reseals[n]);
    }
  }

  lemma KeysDistinct(w: World, v: World, mesh: Text, newKey: Bytes)
    requires DistinctKeys(w) && (mesh in w.keys ==> newKey !in w.keys[mesh])
    requires v.keys == w.keys[mesh := if mesh in w.keys then w.keys[mesh] + [newKey] else [newKey]]
    ensures DistinctKeys(v)
  {
  }

  lemma TurnsPass(w: World, mesh: Text)
    requires Sound(w) && Holds(w, mesh)
    ensures forall n :: n in w.reseals && w.reseals[n].mesh == mesh ==> w.reseals[n].turn < Latest(w, mesh)
  {
    assert forall n :: n in w.reseals ==> ResealFine(w, w.reseals[n]);
  }

  lemma ChangeKeyInTurn(w: World, n: nat, mesh: Text, newKey: Bytes)
    requires InTurn(w) && (mesh in w.keys ==> newKey !in w.keys[mesh])
    ensures InTurn(KeyChanged(w, n, mesh, newKey))
  {
    var v := KeyChanged(w, n, mesh, newKey);
    ChangeKeySound(w, n, mesh, newKey);
    if Holds(w, mesh) && n !in w.reseals && |newKey| == 32 {
      KeyAdded(w, v, mesh, newKey);
      KeysOf(w);
      TurnsPass(w, mesh);
      OneMore(w, v, n);
      EmptySnapshot(v, v.reseals[n]);
      hide Sound, SnapshotFine, DistinctKeys, PlacesFollow, KeysFine, OneReseal;
    }
  }

  lemma EmptySnapshot(v: World, r: Reseal)
    requires r.items == [] && r.places == []
    ensures SnapshotFine(v, r)
  {
  }

  lemma OneMore(w: World, v: World, n: nat)
    requires OneReseal(w) && n in v.reseals && n !in w.reseals && v.reseals == w.reseals[n := v.reseals[n]]
    requires forall k :: k in w.reseals && w.reseals[k].mesh == v.reseals[n].mesh ==>
      w.reseals[k].turn < v.reseals[n].turn
    ensures OneReseal(v)
  {
  }

  lemma RejoinInTurn(w: World, mesh: Text, newKey: Bytes)
    requires InTurn(w) && (mesh in w.keys ==> newKey !in w.keys[mesh])
    ensures InTurn(Rejoined(w, mesh, newKey))
  {
    var v := Rejoined(w, mesh, newKey);
    RejoinSound(w, mesh, newKey);
    if |newKey| == 32 {
      KeyAdded(w, v, mesh, newKey);
      hide Sound, SnapshotFine, DistinctKeys, PlacesFollow;
    }
  }

  /** A step on one reseal alone. */
  lemma ResealInTurn(w: World, v: World, n: nat)
    requires InTurn(w) && Sound(v) && v == w.(reseals := v.reseals) && n in w.reseals
    requires v.reseals == w.reseals - {n} || (n in v.reseals && v.reseals == w.reseals[n := v.reseals[n]]
      && v.reseals[n].mesh == w.reseals[n].mesh && v.reseals[n].turn == w.reseals[n].turn
      && SnapshotFine(w, v.reseals[n]))
    ensures InTurn(v)
  {
    hide Queued, PlacesFollow, Sound, DistinctItems;
    PlacesStay(w, v);
    forall k | k in v.reseals
      ensures SnapshotFine(v, v.reseals[k])
    {
      if k != n {
        assert SnapshotFine(w, w.reseals[k]);
      }
    }
  }

  lemma LoadResealInTurn(w: World, n: nat)
    requires InTurn(w)
    ensures InTurn(ResealLoaded(w, n))
  {
    var v := ResealLoaded(w, n);
    LoadResealSound(w, n);
    if v != w {
      LoadedSnapshot(w, v.reseals[n]);
      hide InTurn, Sound, SnapshotFine, Queue, Places;
      ResealInTurn(w, v, n);
    }
  }

  lemma LoadedSnapshot(w: World, r: Reseal)
    requires Sound(w) && r.items == Queue(w.chat.outbox, r.mesh) && r.places == Places(w.place, r.items)
    ensures SnapshotFine(w, r)
  {
    QueueHolds(w.chat.outbox, r.mesh);
    QueueDistinct(w.chat.outbox, r.mesh);
    hide Queue, SealedAt, KeysFine, PassesFine, ResealsFine, AllKept;
    forall i | 0 <= i < |r.items|
      ensures r.items[i].id in w.place && r.items[i].id in w.composed
      ensures r.items[i].id in w.posts ==> w.posts[r.items[i].id].stage != Sealed
    {
      var x := r.items[i];
      assert x in r.items && RowFine(w, x);
      RowComposed(w, x);
      QueuedIs(w.chat.outbox, x.id);
      if x.id in w.posts {
        assert DraftFine(w, x.id, w.posts[x.id]);
      }
    }
  }

  lemma RowComposed(w: World, x: Item)
    requires RowFine(w, x)
    ensures x.id in w.composed
  {
  }

  /** A reseal that opens a row read it under its old key. */
  lemma OpensAtTurn(w: World, n: nat)
    requires DistinctKeys(w) && CanReseal(w, n) && ResealFine(w, w.reseals[n]) && Rewriting(w, n).Some?
    ensures w.reseals[n].places[0] == w.reseals[n].turn
  {
    var r := w.reseals[n];
    SealedOpensIff(w, r.items[0], r.places[0], w.keys[r.mesh][r.turn]);
  }

  lemma RewriteInTurn(w: World, n: nat)
    requires InTurn(w) && CanReseal(w, n) && Rewriting(w, n).Some? && Queued(w.chat.outbox, w.reseals[n].items[0].id)
    ensures InTurn(NextResealed(w, n, true))
  {
    var v := NextResealed(w, n, true);
    KeysOf(w);
    RewriteSound(w, n);
    RewriteRows(w, n);
    ResealIsFine(w, n);
    TurnsOf(w, n);
    RewrittenSnapshots(w, v, n);
    RewrittenPlaces(w, v, n);
    SameTurns(w, v, n);
    hide NextResealed, Sound, Queued, Rewriting, SnapshotsFine, PlacesFollow, ResealFine, DistinctKeys, OneReseal;
  }

  lemma TurnsOf(w: World, n: nat)
    requires InTurn(w) && CanReseal(w, n) && Rewriting(w, n).Some?
    ensures w.reseals[n].places[0] == w.reseals[n].turn
  {
    ResealIsFine(w, n);
    hide Sound, SnapshotsFine, PlacesFollow, OneReseal, Rewriting, ResealFine;
    OpensAtTurn(w, n);
  }

  lemma SameTurns(w: World, v: World, n: nat)
    requires InTurn(w) && CanReseal(w, n) && v == NextResealed(w, n, true)
    requires Rewriting(w, n).Some? && Queued(w.chat.outbox, w.reseals[n].items[0].id)
    ensures DistinctKeys(v) && OneReseal(v)
  {
    hide Sound, SnapshotsFine, PlacesFollow, Rewriting, Queued;
    SameKeys(w, v);
    hide DistinctKeys;
  }

  lemma SameKeys(w: World, v: World)
    requires DistinctKeys(w) && v.keys == w.keys
    ensures DistinctKeys(v)
  {
  }

  /** The row moves on by one key, and that is counted. */
  lemma RewrittenPlaces(w: World, v: World, n: nat)
    requires InTurn(w) && CanReseal(w, n) && Rewriting(w, n).Some? && Queued(w.chat.outbox, w.reseals[n].items[0].id)
    requires v == NextResealed(w, n, true) && w.reseals[n].places[0] == w.reseals[n].turn
    ensures PlacesFollow(v)
  {
    assert SnapshotFine(w, w.reseals[n]);
    hide Sound, Rewriting, Queued, DistinctItems;
  }

  /** No other reseal read that row under its own old key. */
  lemma RewrittenSnapshots(w: World, v: World, n: nat)
    requires InTurn(w) && CanReseal(w, n) && Rewriting(w, n).Some? && Queued(w.chat.outbox, w.reseals[n].items[0].id)
    requires v == NextResealed(w, n, true) && w.reseals[n].places[0] == w.reseals[n].turn && Sound(w)
    requires forall k :: Queued(v.chat.outbox, k) <==> Queued(w.chat.outbox, k)
    ensures SnapshotsFine(v)
  {
    hide InTurn, Sound, Rewriting, Queued, NextResealed, SnapshotFine, ResealFine;
    var r := w.reseals[n];
    ResealIsFine(w, n);
    RewrittenView(w, v, n);
    hide CanReseal;
    forall k | k in v.reseals
      ensures SnapshotFine(v, v.reseals[k])
    {
      SnapshotOf(w, k);
      ResealIsFine(w, k);
      if k == n {
        TailSnapshot(w, r);
        TailDistinct(r.items);
        SnapshotKeeps(w, v, v.reseals[k], r.items[0].id);
      } else {
        TurnsDiffer(w);
        SnapshotOf(w, n);
        PlaceOfFirst(w, n);
        ReadElsewhere(w, k, n);
        SnapshotKeeps(w, v, w.reseals[k], r.items[0].id);
      }
    }
  }

  lemma TurnsDiffer(w: World)
    requires InTurn(w)
    ensures OneReseal(w)
  {
  }

  lemma PlaceOfFirst(w: World, n: nat)
    requires n in w.reseals && SnapshotFine(w, w.reseals[n]) && w.reseals[n].items != []
    requires w.reseals[n].places[0] == w.reseals[n].turn && Queued(w.chat.outbox, w.reseals[n].items[0].id)
    ensures w.reseals[n].items[0].id in w.place && w.place[w.reseals[n].items[0].id] == w.reseals[n].turn
  {
    hide Queued;
  }

  lemma SnapshotKeeps(w: World, v: World, r: Reseal, id: Text)
    requires SnapshotFine(w, r) && v.posts == w.posts && v.composed == w.composed && id in v.place
    requires v.place == w.place[id := v.place[id]]
    requires forall k :: Queued(v.chat.outbox, k) <==> Queued(w.chat.outbox, k)
    requires forall i :: 0 <= i < |r.items| && r.items[i].id == id ==> r.places[i] != r.turn
    ensures SnapshotFine(v, r)
  {
    hide Queued, DistinctItems;
  }

  lemma ReadElsewhere(w: World, k: nat, n: nat)
    requires OneReseal(w) && k in w.reseals && n in w.reseals && k != n && w.reseals[n].items != []
    requires ResealFine(w, w.reseals[k]) && ResealFine(w, w.reseals[n]) && SnapshotFine(w, w.reseals[k])
    requires var id := w.reseals[n].items[0].id;
      Queued(w.chat.outbox, id) && id in w.place && w.place[id] == w.reseals[n].turn
    ensures forall i :: 0 <= i < |w.reseals[k].items| && w.reseals[k].items[i].id == w.reseals[n].items[0].id ==>
      w.reseals[k].places[i] != w.reseals[k].turn
  {
    hide Queued, DistinctItems, ResealFine;
    forall i | 0 <= i < |w.reseals[k].items| && w.reseals[k].items[i].id == w.reseals[n].items[0].id
      ensures w.reseals[k].places[i] != w.reseals[k].turn
    {
      SameMesh(w, k, i, n);
    }
  }

  lemma SnapshotOf(w: World, n: nat)
    requires InTurn(w) && n in w.reseals
    ensures SnapshotFine(w, w.reseals[n])
  {
  }

  lemma SameMesh(w: World, k: nat, i: nat, n: nat)
    requires k in w.reseals && n in w.reseals && ResealFine(w, w.reseals[k]) && ResealFine(w, w.reseals[n])
    requires i < |w.reseals[k].items| && w.reseals[n].items != []
      && w.reseals[k].items[i].id == w.reseals[n].items[0].id
    ensures w.reseals[k].mesh == w.reseals[n].mesh
  {
    assert SealedAt(w, w.reseals[k].items[i], w.reseals[k].places[i]);
    assert SealedAt(w, w.reseals[n].items[0], w.reseals[n].places[0]);
  }

  lemma TailDistinct(items: seq<Item>)
    requires DistinctItems(items) && items != []
    ensures DistinctItems(items[1..]) && forall i :: 0 <= i < |items[1..]| ==> items[1..][i].id != items[0].id
  {
    assert forall i :: 0 <= i < |items[1..]| ==> items[1..][i] == items[i + 1];
  }

  lemma ResealNextInTurn(w: World, n: nat, works: bool)
    requires InTurn(w)
    ensures InTurn(NextResealed(w, n, works))
  {
    ResealNextSound(w, n, works);
    if CanReseal(w, n) {
      var r := w.reseals[n];
      SnapshotOf(w, n);
      TailSnapshot(w, r);
      hide InTurn, Sound, Queued, Rewriting, SnapshotFine;
      if Rewriting(w, n).Some? && !works {
        ResealInTurn(w, w.(reseals := w.reseals - {n}), n);
      } else if Rewriting(w, n).Some? && Queued(w.chat.outbox, r.items[0].id) {
        RewriteInTurn(w, n);
      } else {
        ResealInTurn(w, w.(reseals := w.reseals[n := r.(items := r.items[1..], places := r.places[1..])]), n);
      }
    }
  }

  lemma TailSnapshot(w: World, r: Reseal)
    requires SnapshotFine(w, r) && r.items != []
    ensures SnapshotFine(w, r.(items := r.items[1..], places := r.places[1..]))
  {
    TailDistinct(r.items);
    hide DistinctItems, Queued;
  }

  lemma StepInTurn(w: World, e: Event)
    requires InTurn(w) && Fit(w, e)
    ensures InTurn(Next(w, e))
  {
    if OnTables(e) {
      TableInTurn(w, e);
    } else {
      hide InTurn, Composed, KeyChanged, Rejoined, ResealLoaded, NextResealed;
      match e {
        case Compose(env, topic, qos) => ComposeInTurn(w, env, topic, qos);
        case ChangeKey(n, mesh, newKey) => ChangeKeyInTurn(w, n, mesh, newKey);
        case Rejoin(mesh, newKey) => RejoinInTurn(w, mesh, newKey);
        case LoadReseal(n) => LoadResealInTurn(w, n);
        case ResealNext(n, works) => ResealNextInTurn(w, n, works);
        case Stop => StopInTurn(w);
      }
    }
  }

  lemma {:induction false} RunInTurn(w: World, events: seq<Event>)
    requires InTurn(w) && FitRun(w, events)
    ensures InTurn(Run(w, events))
    decreases |events|
  {
    hide InTurn, Next, Fit;
    if events == [] {
    } else {
      StepInTurn(w, events[0]);
      RunInTurn(Next(w, events[0]), events[1..]);
    }
  }
}
