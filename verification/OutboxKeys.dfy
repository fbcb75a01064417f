/** Which queued and handed-over chat opens under a circle's keys, over every interleaving. */
module OutboxKeys {
  import opened Wrappers
  import opened Identity
  import opened Circles
  import opened Keys
  import opened Outbox
  import opened OutboxLaws
  import opened OutboxRuns
  import opened OutboxSound
  import opened OutboxTurns

  /** A queued item opens under its circle's current key, and then to the post as it is stored, if and only if that is
      the key its last sealing used: nobody can change the key in between without a trace. */
  lemma QueuedOpensIff(w: World, events: seq<Event>, x: Item)
    requires Sound(w) && x in Run(w, events).chat.outbox
    ensures var v := Run(w, events);
      && Holds(v, x.mesh) && x.id in v.place && v.place[x.id] <= Latest(v, x.mesh) && x.id in v.composed
      && (Open(Current(v, x.mesh), x.wire).Some? <==> v.keys[x.mesh][v.place[x.id]] == Current(v, x.mesh))
      && (Open(Current(v, x.mesh), x.wire).Some? ==>
            Open(Current(v, x.mesh), x.wire) == Some(v.composed[x.id]) && StoredAs(v.chat.messages, v.composed[x.id]))
  {
    RunSound(w, events);
    var v := Run(w, events);
    RowOf(v, x);
    SealedOpensIff(v, x, v.place[x.id], Current(v, x.mesh));
    hide Open, Sound, Run;
  }

  lemma RowOf(w: World, x: Item)
    requires Sound(w) && x in w.chat.outbox
    ensures RowFine(w, x)
  {
  }

  /** The event gives the circle a new key. */
  predicate Rekeys(w: World, e: Event, mesh: Text) {
    || (e.ChangeKey? && e.mesh == mesh && Holds(w, mesh) && e.n !in w.reseals && |e.newKey| == 32)
    || (e.Rejoin? && e.mesh == mesh && |e.newKey| == 32)
  }

  /** A reseal rewrites the row. */
  predicate Rewrites(w: World, e: Event, id: Text) {
    && e.ResealNext? && e.works && CanReseal(w, e.n) && w.reseals[e.n].items[0].id == id
    && Rewriting(w, e.n).Some? && Queued(w.chat.outbox, id)
  }

  function KeyChanges(w: World, events: seq<Event>, mesh: Text): nat
    decreases |events|
  {
    if events == [] then 0
    else (if Rekeys(w, events[0], mesh) then 1 else 0) + KeyChanges(Next(w, events[0]), events[1..], mesh)
  }

  function RowRewrites(w: World, events: seq<Event>, id: Text): nat
    decreases |events|
  {
    if events == [] then 0
    else (if Rewrites(w, events[0], id) then 1 else 0) + RowRewrites(Next(w, events[0]), events[1..], id)
  }

  /** What the steps on the tables leave alone. */
  predicate SameBooks(w: World, v: World) {
    v.keys == w.keys && v.previous == w.previous && v.reseals == w.reseals && SameRecords(w, v)
  }

  lemma SaveFrame(w: World, id: Text)
    ensures SameBooks(w, SavedDraft(w, id))
  {
    hide Taken;
    if id !in w.posts || w.posts[id].stage != Sealed {
    } else if Taken(w.chat, w.posts[id].envelope) {
    } else {
    }
  }

  lemma SettleFrame(w: World, id: Text, granted: bool)
    ensures SameBooks(w, Settled(w, id, granted))
  {
    hide Discarded;
    if id !in w.posts || w.posts[id].stage != Saved {
    } else if !granted {
    } else {
    }
  }

  lemma SendPostFrame(w: World, id: Text, sending: Sending)
    ensures SameBooks(w, HandedOver(w, id, sending))
  {
    if id !in w.posts || w.posts[id].stage != Kept {
    } else if sending.Delivered? {
    } else {
    }
  }

  lemma DeletePostFrame(w: World, id: Text)
    ensures SameBooks(w, PostDeleted(w, id))
  {
    hide WithoutItem;
    if id !in w.posts || w.posts[id].stage != Handed {
    } else {
    }
  }

  lemma LoadFrame(w: World, n: nat, mesh: Text)
    ensures SameBooks(w, Loaded(w, n, mesh))
  {
    hide Queue, Places;
    if n in w.passes || !Holds(w, mesh) {
    } else {
    }
  }

  lemma SendNextFrame(w: World, n: nat, sending: Sending)
    ensures SameBooks(w, NextHanded(w, n, sending))
  {
    if n !in w.passes || w.passes[n].items == [] || w.passes[n].handed {
    } else if !sending.Delivered? {
    } else {
    }
  }

  lemma DeleteNextFrame(w: World, n: nat)
    ensures SameBooks(w, NextDeleted(w, n))
  {
    hide WithoutItem;
    if n !in w.passes || !w.passes[n].handed || w.passes[n].items == [] || w.passes[n].places == [] {
    } else {
    }
  }

  lemma TablesFrame(w: World, e: Event)
    requires OnTables(e)
    ensures SameBooks(w, Next(w, e))
  {
    hide SavedDraft, Settled, HandedOver, PostDeleted, Loaded, NextHanded, NextDeleted, Accepted, ConversationRead;
    match e {
      case Save(id) => SaveFrame(w, id);
      case Settle(id, granted) => SettleFrame(w, id, granted);
      case SendPost(id, sending) => SendPostFrame(w, id, sending);
      case DeletePost(id) => DeletePostFrame(w, id);
      case Load(n, mesh) => LoadFrame(w, n, mesh);
      case SendNext(n, sending) => SendNextFrame(w, n, sending);
      case DeleteNext(n) => DeleteNextFrame(w, n);
      case _ =>
    }
  }

  lemma ComposeKeys(w: World, e: Envelope, topic: Text, qos: nat)
    ensures var v := Composed(w, e, topic, qos);
      v.keys == w.keys && v.previous == w.previous && v.reseals == w.reseals
  {
    hide Seal;
    if !Holds(w, e.mesh) || e.id in w.composed {
    } else if Seal(Current(w, e.mesh), e).None? {
    } else {
    }
  }

  lemma StepCountsKeys(w: World, e: Event, mesh: Text)
    requires mesh in w.keys && w.keys[mesh] != []
    ensures var v := Next(w, e);
      mesh in v.keys && |v.keys[mesh]| == |w.keys[mesh]| + (if Rekeys(w, e, mesh) then 1 else 0)
  {
    hide Composed, KeyChanged, Rejoined, ResealLoaded, NextResealed;
    match e {
      case Compose(env, topic, qos) => ComposeKeys(w, env, topic, qos);
      case ChangeKey(n, k, newKey) => ChangeKeys(w, n, k, newKey);
      case Rejoin(k, newKey) => RejoinKeys(w, k, newKey);
      case LoadReseal(n) => LoadResealKeys(w, n);
      case ResealNext(n, works) => ResealKeys(w, n, works);
      case Stop =>
      case _ => TablesFrame(w, e);
    }
  }

  lemma ChangeKeys(w: World, n: nat, mesh: Text, newKey: Bytes)
    ensures var v := KeyChanged(w, n, mesh, newKey);
      && SameRecords(w, v)
      && v.keys == if !Holds(w, mesh) || n in w.reseals || |newKey| != 32 then w.keys
                   else w.keys[mesh := w.keys[mesh] + [newKey]]
  {
    if !Holds(w, mesh) || n in w.reseals || |newKey| != 32 {
    } else {
    }
  }

  lemma RejoinKeys(w: World, mesh: Text, newKey: Bytes)
    ensures var v := Rejoined(w, mesh, newKey);
      && SameRecords(w, v) && v.reseals == w.reseals
      && v.keys == if |newKey| != 32 then w.keys
                   else w.keys[mesh := if mesh in w.keys then w.keys[mesh] + [newKey] else [newKey]]
  {
    if |newKey| != 32 {
    } else {
    }
  }

  lemma LoadResealKeys(w: World, n: nat)
    ensures var v := ResealLoaded(w, n); v.keys == w.keys && v.previous == w.previous && SameRecords(w, v)
  {
    hide Queue, Places;
    if n !in w.reseals || w.reseals[n].loaded {
    } else {
    }
  }

  lemma ResealKeys(w: World, n: nat, works: bool)
    ensures var v := NextResealed(w, n, works);
      && v.keys == w.keys && v.previous == w.previous && v.posts == w.posts && v.composed == w.composed
      && v.born == w.born
  {
    if CanReseal(w, n) && Rewriting(w, n).Some? && works && Queued(w.chat.outbox, w.reseals[n].items[0].id) {
      RewriteKeys(w, n);
    } else {
      SkipKeys(w, n, works);
    }
    hide NextResealed, Rewriting, Queued;
  }

  lemma RewriteKeys(w: World, n: nat)
    requires CanReseal(w, n) && Rewriting(w, n).Some? && Queued(w.chat.outbox, w.reseals[n].items[0].id)
    ensures var v := NextResealed(w, n, true);
      && v.keys == w.keys && v.previous == w.previous && v.posts == w.posts && v.composed == w.composed
      && v.born == w.born
  {
    hide Rewriting, Queued, WithWire;
  }

  lemma SkipKeys(w: World, n: nat, works: bool)
    requires CanReseal(w, n) && Rewriting(w, n).Some? && works ==> !Queued(w.chat.outbox, w.reseals[n].items[0].id)
    ensures var v := NextResealed(w, n, works);
      && v.keys == w.keys && v.previous == w.previous && v.posts == w.posts && v.composed == w.composed
      && v.born == w.born
  {
    hide Rewriting, Queued, WithWire;
    if !CanReseal(w, n) {
    } else if Rewriting(w, n).None? {
    } else if !works {
    } else {
    }
  }

  lemma ResealMoved(w: World, n: nat, works: bool)
    ensures var v := NextResealed(w, n, works);
      forall id :: id in w.moved ==>
        id in v.moved && v.moved[id] == w.moved[id] + (if Rewrites(w, ResealNext(n, works), id) then 1 else 0)
  {
    hide Rewriting, Queued, WithWire;
    if !CanReseal(w, n) {
    } else if Rewriting(w, n).None? {
    } else if !works {
    } else if !Queued(w.chat.outbox, w.reseals[n].items[0].id) {
    } else {
    }
  }

  lemma ComposeRecordsStay(w: World, e: Envelope, topic: Text, qos: nat, id: Text)
    requires id in w.composed && id in w.moved && id in w.born
    ensures var v := Composed(w, e, topic, qos);
      && id in v.composed && v.composed[id] == w.composed[id]
      && id in v.moved && v.moved[id] == w.moved[id] && id in v.born && v.born[id] == w.born[id]
  {
    hide Seal;
    if !Holds(w, e.mesh) || e.id in w.composed {
    } else if Seal(Current(w, e.mesh), e).None? {
    } else {
    }
  }

  lemma StepCountsRewrites(w: World, e: Event, id: Text)
    requires id in w.composed && id in w.moved && id in w.born
    ensures var v := Next(w, e);
      && id in v.composed && v.composed[id] == w.composed[id]
      && id in v.moved && v.moved[id] == w.moved[id] + (if Rewrites(w, e, id) then 1 else 0)
      && id in v.born && v.born[id] == w.born[id]
  {
    hide Composed, KeyChanged, Rejoined, ResealLoaded, NextResealed;
    match e {
      case Compose(env, topic, qos) => ComposeRecordsStay(w, env, topic, qos, id);
      case ChangeKey(n, k, newKey) => ChangeKeys(w, n, k, newKey);
      case Rejoin(k, newKey) => RejoinKeys(w, k, newKey);
      case LoadReseal(n) => LoadResealKeys(w, n);
      case ResealNext(n, works) =>
        ResealKeys(w, n, works);
        ResealMoved(w, n, works);
      case Stop =>
      case _ => TablesFrame(w, e);
    }
  }

  lemma {:induction false} RunCounts(w: World, events: seq<Event>, id: Text, mesh: Text)
    requires id in w.composed && id in w.moved && id in w.born && mesh in w.keys && w.keys[mesh] != []
    ensures var v := Run(w, events);
      && id in v.moved && v.moved[id] == w.moved[id] + RowRewrites(w, events, id)
      && mesh in v.keys && |v.keys[mesh]| == |w.keys[mesh]| + KeyChanges(w, events, mesh)
      && id in v.born && v.born[id] == w.born[id]
    decreases |events|
  {
    hide Next, Rekeys, Rewrites;
    if events == [] {
    } else {
      StepCountsKeys(w, events[0], mesh);
      StepCountsRewrites(w, events[0], id);
      RunCounts(Next(w, events[0]), events[1..], id, mesh);
    }
  }

  /** By how many keys a composed id is behind its circle's current one. */
  function Behind(w: World, id: Text, mesh: Text): int
    requires Holds(w, mesh) && id in w.place
  {
    Latest(w, mesh) - w.place[id]
  }

  /** With keys that never come back, a row is behind by the keys of its circle that no reseal followed, and opens under
      the current key if and only if it is not behind. */
  lemma BehindDecides(w: World, x: Item)
    requires InTurn(w) && x in w.chat.outbox
    ensures Holds(w, x.mesh) && x.id in w.place && Behind(w, x.id, x.mesh) >= 0
    ensures Open(Current(w, x.mesh), x.wire).Some? <==> Behind(w, x.id, x.mesh) == 0
    ensures x.id in w.born && x.id in w.moved && w.place[x.id] == w.born[x.id] + w.moved[x.id]
  {
    KeysOf(w);
    RowOf(w, x);
    SealedOpensIff(w, x, w.place[x.id], Current(w, x.mesh));
    hide Open, Sound, SnapshotsFine, OneReseal;
  }

  /** Over every interleaving from the sealing of a post on, with keys that never come back: its row opens under the
      circle's current key if and only if every key the circle got since was followed by a rewrite of the row. */
  lemma FollowedIff(w: World, post: Event, events: seq<Event>, x: Item)
    requires InTurn(w) && post.Compose? && Next(w, post) != w && FitRun(Next(w, post), events)
    requires x in Run(Next(w, post), events).chat.outbox && x.id == post.e.id
    ensures var first := Next(w, post);
      var v := Run(first, events);
      && Holds(v, x.mesh)
      && (Open(Current(v, x.mesh), x.wire).Some? <==>
          RowRewrites(first, events, x.id) == KeyChanges(first, events, x.mesh))
  {
    var first := Next(w, post);
    StepInTurn(w, post);
    RunInTurn(first, events);
    ComposedAt(w, post);
    MeshStays(w, post, events, x);
    RunCounts(first, events, x.id, x.mesh);
    BehindDecides(Run(first, events), x);
    hide InTurn, Open, Run, RowRewrites, KeyChanges, Next;
  }

  lemma ComposedAt(w: World, post: Event)
    requires post.Compose? && Next(w, post) != w
    ensures var v, id, mesh := Next(w, post), post.e.id, post.e.mesh;
      && id in v.composed && v.composed[id] == post.e && id in v.moved && v.moved[id] == 0
      && Holds(v, mesh) && id in v.born && v.born[id] == Latest(v, mesh)
  {
    hide Seal;
  }

  /** The row is of the circle its post was composed for. */
  lemma MeshStays(w: World, post: Event, events: seq<Event>, x: Item)
    requires InTurn(w) && post.Compose? && Next(w, post) != w && FitRun(Next(w, post), events)
    requires x in Run(Next(w, post), events).chat.outbox && x.id == post.e.id
    ensures x.mesh == post.e.mesh
  {
    var first := Next(w, post);
    StepInTurn(w, post);
    RunInTurn(first, events);
    ComposedAt(w, post);
    ComposedStays(first, events, x.id);
    KeysOf(Run(first, events));
    RowOf(Run(first, events), x);
    RowMesh(Run(first, events), x);
  }

  lemma RowMesh(w: World, x: Item)
    requires RowFine(w, x)
    ensures x.id in w.composed && w.composed[x.id].mesh == x.mesh
  {
  }

  lemma {:induction false} ComposedStays(w: World, events: seq<Event>, id: Text)
    requires id in w.composed && id in w.moved && id in w.born
    ensures id in Run(w, events).composed && Run(w, events).composed[id] == w.composed[id]
    decreases |events|
  {
    hide Next, Rewrites;
    if events == [] {
    } else {
      StepCountsRewrites(w, events[0], id);
      ComposedStays(Next(w, events[0]), events[1..], id);
    }
  }

  /** What a receiver that follows the circle's keys can open of the queue: inside the grace window of the previous key
      also what is behind by the latest key alone, and nothing that is further behind. */
  lemma GraceOpensIff(w: World, x: Item, c: Circle, inGrace: bool, epoch: nat)
    requires InTurn(w) && x in w.chat.outbox && Holds(w, x.mesh) && x.id in w.place && c.groupKey == Current(w, x.mesh)
    requires c.previousKey
      == if x.mesh in w.previous then Some(PreviousKey(epoch, w.previous[x.mesh])) else None
    ensures OpenAny(OpenKeys(c, inGrace), x.wire).Some? <==>
      Behind(w, x.id, x.mesh) == 0 || (inGrace && x.mesh in w.previous && Behind(w, x.id, x.mesh) == 1)
  {
    BehindDecides(w, x);
    OpensAmong(c, inGrace, x.wire);
    if x.mesh in w.previous {
      PreviousOpens(w, x);
    }
    hide InTurn, Open, OpenAny, OpenKeys;
  }

  lemma PreviousOpens(w: World, x: Item)
    requires InTurn(w) && x in w.chat.outbox && Holds(w, x.mesh) && x.id in w.place && x.mesh in w.previous
    ensures w.previous[x.mesh] != []
    ensures Open(w.previous[x.mesh], x.wire).Some? <==> Behind(w, x.id, x.mesh) == 1
  {
    KeysOf(w);
    RowOf(w, x);
    SealedOpensIff(w, x, w.place[x.id], w.previous[x.mesh]);
    hide Open, Sound, SnapshotsFine, OneReseal, PlacesFollow, SealedAt;
  }

  /** The item a flush hands over next carries the envelope composed; it opens under the circle's current key if and
      only if it did when the flush loaded the queue and the circle got no key since. */
  lemma PassHandsIff(w: World, n: nat)
    requires InTurn(w) && n in w.passes && w.passes[n].items != []
    ensures var p := w.passes[n];
      var item := p.items[0];
      && |p.places| == |p.items| && Holds(w, p.mesh) && item.mesh == p.mesh && item.id in w.composed
      && (Open(Current(w, p.mesh), item.wire).Some? <==> p.places[0] == p.turn == Latest(w, p.mesh))
      && (Open(Current(w, p.mesh), item.wire).Some? ==>
         Open(Current(w, p.mesh), item.wire) == Some(w.composed[item.id]))
  {
    KeysOf(w);
    PassOf(w, n);
    var p := w.passes[n];
    SealedOpensIff(w, p.items[0], p.places[0], Current(w, p.mesh));
    hide Open, Sound, SnapshotsFine, OneReseal, PlacesFollow;
  }

  lemma PassOf(w: World, n: nat)
    requires Sound(w) && n in w.passes
    ensures PassFine(w, w.passes[n])
  {
  }

  /** The wire a post hands over itself opens under the circle's current key if and only if the circle got no key since
      it was sealed. */
  lemma PostHandsIff(w: World, id: Text)
    requires InTurn(w) && id in w.posts
    ensures var item := w.posts[id].item;
      && Holds(w, item.mesh) && id in w.born && id in w.composed
      && (Open(Current(w, item.mesh), item.wire).Some? <==> w.born[id] == Latest(w, item.mesh))
      && (Open(Current(w, item.mesh), item.wire).Some? ==>
            Open(Current(w, item.mesh), item.wire) == Some(w.composed[id]))
  {
    KeysOf(w);
    DraftIsFine(w, id);
    var item := w.posts[id].item;
    SealedOpensIff(w, item, w.born[id], Current(w, item.mesh));
    hide Open, Sound, SnapshotsFine, OneReseal, PlacesFollow;
  }

  /** The id is behind, and no reseal that could move it on is left. */
  ghost predicate Stranded(w: World, id: Text, mesh: Text) {
    && id in w.composed && w.composed[id].mesh == mesh && Holds(w, mesh) && id in w.place && Behind(w, id, mesh) > 0
    && forall n :: n in w.reseals && w.reseals[n].mesh == mesh && w.reseals[n].turn == w.place[id] ==>
         w.reseals[n].loaded && id !in IdsOf(w.reseals[n].items)
  }

  /** Once a key change has missed it, a queued item never opens under its circle's current key again, whatever
      follows. */
  lemma MissedStrands(w: World, events: seq<Event>, x: Item)
    requires InTurn(w) && FitRun(w, events) && Stranded(w, x.id, x.mesh) && x in Run(w, events).chat.outbox
    ensures var v := Run(w, events); Holds(v, x.mesh) && Open(Current(v, x.mesh), x.wire).None?
  {
    StrandedStays(w, events, x.id, x.mesh);
    RunInTurn(w, events);
    BehindDecides(Run(w, events), x);
  }

  lemma {:induction false} StrandedStays(w: World, events: seq<Event>, id: Text, mesh: Text)
    requires InTurn(w) && FitRun(w, events) && Stranded(w, id, mesh)
    ensures Stranded(Run(w, events), id, mesh)
    decreases |events|
  {
    hide InTurn, Next, Fit, Stranded;
    if events == [] {
    } else {
      StepStranded(w, events[0], id, mesh);
      StepInTurn(w, events[0]);
      StrandedStays(Next(w, events[0]), events[1..], id, mesh);
    }
  }

  lemma StepStranded(w: World, e: Event, id: Text, mesh: Text)
    requires InTurn(w) && Stranded(w, id, mesh)
    ensures Stranded(Next(w, e), id, mesh)
  {
    hide InTurn, IdsOf, Queue, Places, Seal, NextResealed;
    match e {
      case ResealNext(n, works) => ResealStranded(w, n, works, id, mesh);
      case ChangeKey(n, k, newKey) => ChangeStranded(w, n, k, newKey, id, mesh);
      case Rejoin(k, newKey) => RejoinStranded(w, k, newKey, id, mesh);
      case LoadReseal(_) =>
      case Compose(_, _, _) =>
      case Stop =>
      case _ =>
        TablesFrame(w, e);
        hide Next;
    }
  }

  lemma ChangeStranded(w: World, n: nat, k: Text, newKey: Bytes, id: Text, mesh: Text)
    requires Stranded(w, id, mesh)
    ensures Stranded(KeyChanged(w, n, k, newKey), id, mesh)
  {
    hide IdsOf;
  }

  lemma RejoinStranded(w: World, k: Text, newKey: Bytes, id: Text, mesh: Text)
    requires Stranded(w, id, mesh)
    ensures Stranded(Rejoined(w, k, newKey), id, mesh)
  {
    hide IdsOf;
  }

  /** Whatever reseals are left, the id stays where it is. */
  lemma FewerReseals(w: World, v: World, n: nat, id: Text, mesh: Text)
    requires Stranded(w, id, mesh) && n in w.reseals && v.keys == w.keys && v.composed == w.composed
    requires id in v.place && v.place[id] == w.place[id]
    requires v.reseals == w.reseals - {n} || (n in v.reseals && v.reseals == w.reseals[n := v.reseals[n]]
      && v.reseals[n].mesh == w.reseals[n].mesh && v.reseals[n].turn == w.reseals[n].turn
      && v.reseals[n].loaded == w.reseals[n].loaded && IdsOf(v.reseals[n].items) <= IdsOf(w.reseals[n].items))
    ensures Stranded(v, id, mesh)
  {
    hide IdsOf;
  }

  lemma ResealStranded(w: World, n: nat, works: bool, id: Text, mesh: Text)
    requires InTurn(w) && Stranded(w, id, mesh)
    ensures Stranded(NextResealed(w, n, works), id, mesh)
  {
    hide InTurn, NextResealed, Rewriting, Queued, IdsOf, Stranded;
    if CanReseal(w, n) && Rewriting(w, n).Some? && works && Queued(w.chat.outbox, w.reseals[n].items[0].id) {
      TailIds(w.reseals[n].items);
      NotTheFirst(w, n, id, mesh);
      RewrittenView(w, NextResealed(w, n, true), n);
      FewerReseals(w, NextResealed(w, n, true), n, id, mesh);
    } else {
      SkipStranded(w, n, works, id, mesh);
    }
  }

  lemma SkipStranded(w: World, n: nat, works: bool, id: Text, mesh: Text)
    requires Stranded(w, id, mesh)
    requires CanReseal(w, n) && Rewriting(w, n).Some? && works ==> !Queued(w.chat.outbox, w.reseals[n].items[0].id)
    ensures Stranded(NextResealed(w, n, works), id, mesh)
  {
    hide Rewriting, Queued, IdsOf, WithWire;
    if CanReseal(w, n) {
      TailIds(w.reseals[n].items);
      StrandedPlace(w, id, mesh);
      hide Stranded;
      if Rewriting(w, n).Some? && !works {
        FewerReseals(w, w.(reseals := w.reseals - {n}), n, id, mesh);
      } else {
        var r := w.reseals[n];
        FewerReseals(w, w.(reseals := w.reseals[n := r.(items := r.items[1..], places := r.places[1..])]), n, id, mesh);
      }
    }
  }

  lemma StrandedPlace(w: World, id: Text, mesh: Text)
    requires Stranded(w, id, mesh)
    ensures id in w.place
  {
    hide IdsOf;
  }

  lemma NotTheFirst(w: World, n: nat, id: Text, mesh: Text)
    requires InTurn(w) && Stranded(w, id, mesh) && CanReseal(w, n) && Rewriting(w, n).Some?
    requires Queued(w.chat.outbox, w.reseals[n].items[0].id)
    ensures w.reseals[n].items[0].id != id && id in w.place
  {
    SnapshotOf(w, n);
    KeysOf(w);
    ResealIsFine(w, n);
    TailIds(w.reseals[n].items);
    TurnsOf(w, n);
    FirstMesh(w, n);
    PlaceOfFirst(w, n);
    hide InTurn, Sound, Rewriting, Queued, IdsOf, DistinctItems, ResealFine, SnapshotFine;
  }

  lemma FirstMesh(w: World, n: nat)
    requires n in w.reseals && ResealFine(w, w.reseals[n]) && w.reseals[n].items != []
    ensures w.reseals[n].items[0].id in w.composed && w.composed[w.reseals[n].items[0].id].mesh == w.reseals[n].mesh
  {
    assert SealedAt(w, w.reseals[n].items[0], w.reseals[n].places[0]);
  }

  lemma TailIds(items: seq<Item>)
    requires items != []
    ensures items[0].id in IdsOf(items) && IdsOf(items[1..]) <= IdsOf(items)
  {
    assert forall i :: 0 <= i < |items[1..]| ==> items[1..][i] == items[i + 1];
  }
}
