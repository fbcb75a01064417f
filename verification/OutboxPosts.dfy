/** What the error of a post means when a flush runs at the same time. */
module OutboxPosts {
  import opened Identity
  import opened Outbox
  import opened OutboxLaws
  import opened OutboxRuns
  import opened OutboxAtomic
  import opened OutboxSound

  /** The event hands the id to the network. */
  predicate Hands(w: World, e: Event, id: Text) {
    || (e.SendNext? && e.sending.Delivered? && e.n in w.passes && w.passes[e.n].items != [] && !w.passes[e.n].handed
        && w.passes[e.n].items[0].id == id)
    || (e.SendPost? && e.id == id && e.sending.Delivered? && id in w.posts && w.posts[id].stage == Kept)
  }

  predicate HandsEver(w: World, events: seq<Event>, id: Text)
    decreases |events|
  {
    events != [] && (Hands(w, events[0], id) || HandsEver(Next(w, events[0]), events[1..], id))
  }

  lemma StepSent(w: World, e: Event, id: Text)
    ensures id in Next(w, e).sent <==> id in w.sent || Hands(w, e, id)
  {
    hide Composed, SavedDraft, Settled, PostDeleted, Loaded, NextDeleted, KeyChanged, Rejoined, ResealLoaded,
      NextResealed, HandedOver, NextHanded;
    match e {
      case SendPost(k, sending) => SentByPost(w, k, sending);
      case SendNext(n, sending) => SentByPass(w, n, sending);
      case _ => OthersSend(w, e);
    }
  }

  lemma SentByPost(w: World, k: Text, sending: Sending)
    ensures HandedOver(w, k, sending).sent == w.sent + if Hands(w, SendPost(k, sending), k) then {k} else {}
  {
    if k !in w.posts || w.posts[k].stage != Kept {
    } else if sending.Delivered? {
    } else {
    }
  }

  lemma SentByPass(w: World, n: nat, sending: Sending)
    ensures NextHanded(w, n, sending).sent == w.sent
      + if n in w.passes && w.passes[n].items != [] && !w.passes[n].handed && sending.Delivered?
        then {w.passes[n].items[0].id} else {}
  {
    if n !in w.passes || w.passes[n].items == [] || w.passes[n].handed {
    } else if !sending.Delivered? {
    } else {
    }
  }

  lemma OthersSend(w: World, e: Event)
    requires !e.SendPost? && !e.SendNext?
    ensures Next(w, e).sent == w.sent
  {
    hide Composed, SavedDraft, Settled, PostDeleted, Loaded, NextDeleted, KeyChanged, Rejoined, ResealLoaded,
      NextResealed, Accepted, ConversationRead;
    match e {
      case Compose(env, topic, qos) => ComposeSends(w, env, topic, qos);
      case Save(id) => SaveSends(w, id);
      case Settle(id, granted) => SettleSends(w, id, granted);
      case DeletePost(id) => DeleteSends(w, id, 0, 0);
      case DeleteNext(n) => DeleteSends(w, 0, n, 0);
      case Load(n, mesh) => DeleteSends(w, 0, n, mesh);
      case ChangeKey(n, mesh, newKey) => KeySends(w, n, mesh, newKey);
      case Rejoin(mesh, newKey) => KeySends(w, 0, mesh, newKey);
      case LoadReseal(n) => ResealSends(w, n, true);
      case ResealNext(n, works) => ResealSends(w, n, works);
      case _ =>
    }
  }

  lemma ComposeSends(w: World, e: Envelope, topic: Text, qos: nat)
    ensures Composed(w, e, topic, qos).sent == w.sent
  {
    hide Seal;
    if !Holds(w, e.mesh) || e.id in w.composed {
    } else if Seal(Current(w, e.mesh), e).None? {
    } else {
    }
  }

  lemma SaveSends(w: World, id: Text)
    ensures SavedDraft(w, id).sent == w.sent
  {
    hide Taken;
    if id !in w.posts || w.posts[id].stage != Sealed {
    } else if Taken(w.chat, w.posts[id].envelope) {
    } else {
    }
  }

  lemma SettleSends(w: World, id: Text, granted: bool)
    ensures Settled(w, id, granted).sent == w.sent
  {
    hide Discarded;
    if id !in w.posts || w.posts[id].stage != Saved {
    } else if !granted {
    } else {
    }
  }

  lemma DeleteSends(w: World, id: Text, n: nat, mesh: Text)
    ensures PostDeleted(w, id).sent == w.sent && NextDeleted(w, n).sent == w.sent && Loaded(w, n, mesh).sent == w.sent
  {
    hide WithoutItem, Queue, Places;
  }

  lemma KeySends(w: World, n: nat, mesh: Text, newKey: Bytes)
    ensures KeyChanged(w, n, mesh, newKey).sent == w.sent && Rejoined(w, mesh, newKey).sent == w.sent
  {
    if |newKey| != 32 {
    } else if !Holds(w, mesh) || n in w.reseals {
    } else {
    }
  }

  lemma ResealSends(w: World, n: nat, works: bool)
    ensures ResealLoaded(w, n).sent == w.sent && NextResealed(w, n, works).sent == w.sent
  {
    hide Queue, Places, WithWire, Queued, Rewriting;
    if !CanReseal(w, n) {
    } else if Rewriting(w, n).None? {
    } else if !works {
    } else if !Queued(w.chat.outbox, w.reseals[n].items[0].id) {
    } else {
    }
  }

  /** The record of what was handed over is what the events did. */
  lemma {:induction false} SentIff(w: World, events: seq<Event>, id: Text)
    ensures id in Run(w, events).sent <==> id in w.sent || HandsEver(w, events, id)
    decreases |events|
  {
    hide Next, Hands;
    if events == [] {
    } else {
      StepSent(w, events[0], id);
      SentIff(Next(w, events[0]), events[1..], id);
    }
  }

  /** The pass has the id among the items it still goes through. */
  predicate Lists(p: Pass, id: Text) {
    exists i :: 0 <= i < |p.items| && p.items[i].id == id
  }

  /** A flush under way has the id before it. */
  predicate Listed(w: World, id: Text) {
    exists n :: n in w.passes && Lists(w.passes[n], id)
  }

  /** Nothing under way or in the queue has the id, and no post can get it again. */
  predicate Gone(w: World, id: Text) {
    id in w.composed && id !in w.posts && !Queued(w.chat.outbox, id) && !Listed(w, id)
  }

  /** On some run from here the post is handed over. */
  ghost predicate GoesOut(w: World, id: Text) {
    exists later :: id in Run(w, later).sent
  }

  lemma TailLists(p: Pass, id: Text)
    requires p.items != [] && p.places != []
    ensures var tail := p.(items := p.items[1..], places := p.places[1..], handed := false);
      Lists(tail, id) || p.items[0].id == id <==> Lists(p, id)
  {
    if i :| 0 < i < |p.items| && p.items[i].id == id {
      assert p.items[1..][i - 1].id == id;
    }
    if i :| 0 <= i < |p.items[1..]| && p.items[1..][i].id == id {
      assert p.items[i + 1].id == id;
    }
  }

  lemma QueueLists(outbox: seq<Item>, mesh: Text, id: Text)
    requires !Queued(outbox, id)
    ensures forall i :: 0 <= i < |Queue(outbox, mesh)| ==> Queue(outbox, mesh)[i].id != id
  {
    QueueHolds(outbox, mesh);
    QueuedIs(outbox, id);
    hide Queue, Queued;
    forall i | 0 <= i < |Queue(outbox, mesh)|
      ensures Queue(outbox, mesh)[i].id != id
    {
      assert Queue(outbox, mesh)[i] in Queue(outbox, mesh);
    }
  }

  lemma WithoutGone(outbox: seq<Item>, k: Text, id: Text)
    requires !Queued(outbox, id)
    ensures !Queued(WithoutItem(outbox, k), id)
  {
    WithoutHolds(outbox, k);
    QueuedIs(outbox, id);
    QueuedIs(WithoutItem(outbox, k), id);
    hide WithoutItem, Queued;
  }

  /** At most one pass changed, and it does not list the id. */
  lemma PassGone(w: World, v: World, n: nat, id: Text)
    requires !Listed(w, id) && forall k :: k in v.passes && k != n ==> k in w.passes && v.passes[k] == w.passes[k]
    requires n in v.passes ==> !Lists(v.passes[n], id)
    ensures !Listed(v, id)
  {
    hide Lists;
  }

  /** The step leaves the passes alone and brings the id nowhere. */
  predicate Quiet(w: World, v: World, id: Text) {
    && v.passes == w.passes && w.composed.Keys <= v.composed.Keys && (id in v.posts ==> id in w.posts)
    && (Queued(v.chat.outbox, id) ==> Queued(w.chat.outbox, id))
  }

  lemma ComposeQuiet(w: World, e: Envelope, topic: Text, qos: nat, id: Text)
    requires id in w.composed
    ensures Quiet(w, Composed(w, e, topic, qos), id)
  {
    hide Seal, Queued;
    if !Holds(w, e.mesh) || e.id in w.composed {
    } else if Seal(Current(w, e.mesh), e).None? {
    } else {
    }
  }

  lemma SaveQuiet(w: World, k: Text, id: Text)
    requires Sound(w) && id !in w.posts
    ensures Quiet(w, SavedDraft(w, k), id)
  {
    hide Sound, Taken;
    if k !in w.posts || w.posts[k].stage != Sealed {
    } else if Taken(w.chat, w.posts[k].envelope) {
    } else {
      DraftIsFine(w, k);
      DraftIds(w, k);
      AppendGone(w.chat.outbox, w.posts[k].item, id);
      hide Queued, DraftFine;
    }
  }

  lemma AppendGone(outbox: seq<Item>, x: Item, id: Text)
    requires x.id != id
    ensures Queued(outbox + [x], id) ==> Queued(outbox, id)
  {
  }

  lemma SettleQuiet(w: World, k: Text, granted: bool, id: Text)
    requires !Queued(w.chat.outbox, id)
    ensures Quiet(w, Settled(w, k, granted), id)
  {
    hide Queued, WithoutItem, WithoutMessage, Discarded;
    if k !in w.posts || w.posts[k].stage != Saved {
    } else if !granted {
      DiscardGone(w.chat, k, id);
    } else {
    }
  }

  lemma DiscardGone(c: Chat, k: Text, id: Text)
    requires !Queued(c.outbox, id)
    ensures !Queued(Discarded(c, k).outbox, id)
  {
    WithoutGone(c.outbox, k, id);
    hide Queued, WithoutItem, WithoutMessage;
  }

  lemma HandQuiet(w: World, k: Text, sending: Sending, id: Text)
    ensures Quiet(w, HandedOver(w, k, sending), id)
  {
    hide Queued;
    if k !in w.posts || w.posts[k].stage != Kept {
    } else if sending.Delivered? {
    } else {
    }
  }

  lemma DeleteQuiet(w: World, k: Text, id: Text)
    requires !Queued(w.chat.outbox, id)
    ensures Quiet(w, PostDeleted(w, k), id)
  {
    WithoutGone(w.chat.outbox, k, id);
    hide WithoutItem, Queued;
    if k !in w.posts || w.posts[k].stage != Handed {
    } else {
    }
  }

  lemma KeyQuiet(w: World, n: nat, mesh: Text, newKey: Bytes, id: Text)
    ensures Quiet(w, KeyChanged(w, n, mesh, newKey), id)
  {
    hide Queued;
    if !Holds(w, mesh) || n in w.reseals || |newKey| != 32 {
    } else {
    }
  }

  lemma RejoinQuiet(w: World, mesh: Text, newKey: Bytes, id: Text)
    ensures Quiet(w, Rejoined(w, mesh, newKey), id)
  {
    hide Queued;
    if |newKey| != 32 {
    } else {
    }
  }

  lemma LoadResealQuiet(w: World, n: nat, id: Text)
    ensures Quiet(w, ResealLoaded(w, n), id)
  {
    hide Queued, Queue, Places;
    if n !in w.reseals || w.reseals[n].loaded {
    } else {
    }
  }

  lemma ResealQuiet(w: World, n: nat, works: bool, id: Text)
    ensures Quiet(w, NextResealed(w, n, works), id)
  {
    if !CanReseal(w, n) || Rewriting(w, n).None? {
      SkipQuiet(w, n, works, id);
    } else if !works {
      FailQuiet(w, n, id);
    } else {
      RewriteQuiet(w, n, id);
    }
  }

  lemma SkipQuiet(w: World, n: nat, works: bool, id: Text)
    requires CanReseal(w, n) ==> Rewriting(w, n).None?
    ensures Quiet(w, NextResealed(w, n, works), id)
  {
    hide Queued, WithWire, Rewriting;
    if !CanReseal(w, n) {
    } else {
    }
  }

  lemma FailQuiet(w: World, n: nat, id: Text)
    requires CanReseal(w, n) && Rewriting(w, n).Some?
    ensures Quiet(w, NextResealed(w, n, false), id)
  {
    hide Queued, WithWire, Rewriting;
  }

  lemma RewriteQuiet(w: World, n: nat, id: Text)
    requires CanReseal(w, n) && Rewriting(w, n).Some?
    ensures Quiet(w, NextResealed(w, n, true), id)
  {
    hide Queued, WithWire, Rewriting;
    WireQuiet(w.chat.outbox, w.reseals[n].items[0].id, Rewriting(w, n).value, id);
    if !Queued(w.chat.outbox, w.reseals[n].items[0].id) {
    } else {
    }
  }

  lemma WireQuiet(outbox: seq<Item>, k: Text, wire: Wire, id: Text)
    ensures Queued(WithWire(outbox, k, wire), id) ==> Queued(outbox, id)
  {
  }

  lemma TableQuiet(w: World, e: Event, id: Text)
    requires e.Deliver? || e.Read?
    ensures Quiet(w, Next(w, e), id)
  {
    hide Queued, OpenAny, FromMember, ConversationRead, Stored;
  }

  lemma StepQuiet(w: World, e: Event, id: Text)
    requires Sound(w) && Gone(w, id) && !e.Load? && !e.SendNext? && !e.DeleteNext? && !e.Stop?
    ensures Quiet(w, Next(w, e), id)
  {
    hide Sound, Listed, Quiet, Queued, Composed, SavedDraft, Settled, HandedOver, PostDeleted, KeyChanged, Rejoined,
      ResealLoaded, NextResealed, Accepted, ConversationRead;
    match e {
      case Compose(env, topic, qos) => ComposeQuiet(w, env, topic, qos, id);
      case Save(k) => SaveQuiet(w, k, id);
      case Settle(k, granted) => SettleQuiet(w, k, granted, id);
      case SendPost(k, sending) => HandQuiet(w, k, sending, id);
      case DeletePost(k) => DeleteQuiet(w, k, id);
      case ChangeKey(n, mesh, newKey) => KeyQuiet(w, n, mesh, newKey, id);
      case Rejoin(mesh, newKey) => RejoinQuiet(w, mesh, newKey, id);
      case LoadReseal(n) => LoadResealQuiet(w, n, id);
      case ResealNext(n, works) => ResealQuiet(w, n, works, id);
      case _ => TableQuiet(w, e, id);
    }
  }

  /** What the steps of a pass leave. */
  lemma LoadGone(w: World, n: nat, mesh: Text, id: Text)
    requires Gone(w, id)
    ensures Gone(Loaded(w, n, mesh), id)
  {
    QueueLists(w.chat.outbox, mesh, id);
    hide Queued, Queue, Places, Listed;
    var v := Loaded(w, n, mesh);
    if n in w.passes || !Holds(w, mesh) {
    } else {
      PassGone(w, v, n, id);
    }
  }

  lemma HandGone(w: World, n: nat, sending: Sending, id: Text)
    requires Gone(w, id)
    ensures Gone(NextHanded(w, n, sending), id)
  {
    PassesOf(w, id);
    hide Queued, Listed;
    var v := NextHanded(w, n, sending);
    if n !in w.passes || w.passes[n].items == [] || w.passes[n].handed {
    } else if !sending.Delivered? {
      PassGone(w, v, n, id);
    } else {
      assert v.passes[n].items == w.passes[n].items;
      PassGone(w, v, n, id);
    }
  }

  lemma DeleteGone(w: World, n: nat, id: Text)
    requires Gone(w, id)
    ensures Gone(NextDeleted(w, n), id)
  {
    PassesOf(w, id);
    hide Queued, Listed, WithoutItem;
    var v := NextDeleted(w, n);
    if n !in w.passes || !w.passes[n].handed || w.passes[n].items == [] || w.passes[n].places == [] {
    } else {
      TailLists(w.passes[n], id);
      WithoutGone(w.chat.outbox, w.passes[n].items[0].id, id);
      hide Lists;
      PassGone(w, v, n, id);
    }
  }

  lemma PassesOf(w: World, id: Text)
    requires !Listed(w, id)
    ensures forall n :: n in w.passes ==> !Lists(w.passes[n], id)
  {
  }

  lemma NoHands(w: World, e: Event, id: Text)
    requires Gone(w, id)
    ensures !Hands(w, e, id)
  {
    PassesOf(w, id);
    hide Listed, Queued;
  }

  lemma StepGone(w: World, e: Event, id: Text)
    requires Sound(w) && Gone(w, id)
    ensures Gone(Next(w, e), id) && !Hands(w, e, id)
  {
    hide Sound, Hands, Queued, Lists, Loaded, NextHanded, NextDeleted, Composed, SavedDraft, Settled, HandedOver,
      PostDeleted, KeyChanged, Rejoined, ResealLoaded, NextResealed, Accepted, ConversationRead;
    NoHands(w, e, id);
    match e {
      case Load(n, mesh) => LoadGone(w, n, mesh, id);
      case SendNext(n, sending) => HandGone(w, n, sending, id);
      case DeleteNext(n) => DeleteGone(w, n, id);
      case Stop =>
      case _ => StepQuiet(w, e, id);
    }
  }

  lemma {:induction false} GoneForGood(w: World, later: seq<Event>, id: Text)
    requires Sound(w) && Gone(w, id) && id !in w.sent
    ensures id !in Run(w, later).sent
    decreases |later|
  {
    hide Sound, Gone, Next, Hands;
    if later == [] {
    } else {
      StepGone(w, later[0], id);
      StepSent(w, later[0], id);
      StepSound(w, later[0]);
      GoneForGood(Next(w, later[0]), later[1..], id);
    }
  }

  /** The pass as far as its first item: whether that is handed over, and what is left behind it. */
  lemma PassMoves(w: World, n: nat) returns (some: seq<Event>, v: World)
    requires Sound(w) && n in w.passes && w.passes[n].items != []
    ensures Sound(v) && n in v.passes && v.passes[n].items == w.passes[n].items && v.passes[n].handed
    ensures forall later :: Run(w, some + later) == Run(v, later)
  {
    hide Sound, Run;
    if w.passes[n].handed {
      some, v := [], w;
      assert forall later: seq<Event> :: [] + later == later;
    } else {
      some, v := [SendNext(n, Delivered)], Next(w, SendNext(n, Delivered));
      StepSound(w, SendNext(n, Delivered));
      forall later
        ensures Run(w, some + later) == Run(v, later)
      {
        Steps(w, SendNext(n, Delivered), later);
      }
    }
  }

  lemma PassOf(w: World, n: nat)
    requires Sound(w) && n in w.passes
    ensures var p := w.passes[n]; |p.places| == |p.items| && (p.handed ==> p.items != [] && p.items[0].id in w.sent)
  {
    assert PassFine(w, w.passes[n]);
  }

  lemma PassDrops(w: World, n: nat, id: Text)
    requires n in w.passes && w.passes[n].handed && w.passes[n].places != [] && w.passes[n].items != []
    requires Lists(w.passes[n], id) && w.passes[n].items[0].id != id
    ensures var v := Next(w, DeleteNext(n));
      n in v.passes && Lists(v.passes[n], id) && |v.passes[n].items| < |w.passes[n].items|
  {
    TailLists(w.passes[n], id);
    hide Lists, WithoutItem;
  }

  /** A pass that lists the id can get to it. */
  lemma {:induction false} PassReaches(w: World, n: nat, id: Text) returns (later: seq<Event>)
    requires Sound(w) && n in w.passes && Lists(w.passes[n], id)
    ensures id in Run(w, later).sent
    decreases |w.passes[n].items|
  {
    hide Sound, Run, Next;
    var some, v := PassMoves(w, n);
    PassOf(v, n);
    if v.passes[n].items[0].id == id {
      later := some + [];
      Here(v);
    } else {
      PassDrops(v, n, id);
      StepSound(v, DeleteNext(n));
      var rest := PassReaches(Next(v, DeleteNext(n)), n, id);
      later := some + ([DeleteNext(n)] + rest);
      Steps(v, DeleteNext(n), rest);
    }
  }

  lemma Here(w: World)
    ensures Run(w, []) == w
  {
  }

  /** What a failure leaves under way. */
  lemma FailureLeaves(v: World, id: Text)
    requires Sound(v) && id in v.posts && v.posts[id].stage == Saved
    ensures var u := Next(v, Settle(id, false));
      && Sound(u) && u.chat == Discarded(v.chat, id) && u.kept == v.kept && u.posts == v.posts - {id}
      && u.sent == v.sent && u.passes == v.passes && (Gone(u, id) <==> !Listed(v, id))
  {
    var u := Next(v, Settle(id, false));
    DraftIsFine(v, id);
    StepSound(v, Settle(id, false));
    WithoutHolds(v.chat.outbox, id);
    QueuedIs(WithoutItem(v.chat.outbox, id), id);
    hide Sound, WithoutItem, WithoutMessage, Queued, Lists;
  }

  /** A post that fails leaves no row and is not kept. It goes out all the same, on some later run if not before, if and
      only if a flush handed it over before the failure or had loaded it by then and is not past it. */
  lemma FailedPost(w: World, events: seq<Event>, id: Text)
    requires Sound(w) && var v := Run(w, events); id in v.posts && v.posts[id].stage == Saved
    ensures var v, u := Run(w, events), Next(Run(w, events), Settle(id, false));
      && u.chat == Discarded(v.chat, id) && u.kept == v.kept && u.posts == v.posts - {id}
      && (id in u.sent <==> id in w.sent || HandsEver(w, events, id))
      && (GoesOut(u, id) <==> id in w.sent || HandsEver(w, events, id) || Listed(v, id))
  {
    var v, u := Run(w, events), Next(Run(w, events), Settle(id, false));
    SentIff(w, events, id);
    RunSound(w, events);
    FailureLeaves(v, id);
    hide Run, HandsEver, Discarded, Sound, Next, Gone;
    if id in u.sent {
      NoMore(u, id);
    } else if Listed(v, id) {
      var n :| n in v.passes && Lists(v.passes[n], id);
      var later := PassReaches(u, n, id);
    } else {
      forall later
        ensures id !in Run(u, later).sent
      {
        GoneForGood(u, later, id);
      }
    }
  }

  lemma NoMore(u: World, id: Text)
    requires id in u.sent
    ensures GoesOut(u, id)
  {
    Here(u);
  }

  /** The first post of a core, up to its row. */
  function FirstSteps(e: Envelope, key: Bytes, topic: Text, qos: nat, rest: seq<Event>): seq<Event> {
    [Rejoin(e.mesh, key)] + ([Compose(e, topic, qos)] + ([Save(e.id)] + rest))
  }

  ghost predicate FirstSaved(w: World, e: Envelope, item: Item) {
    && w.chat == Chat([Message(e, false)], [item]) && item.id == e.id && item.mesh == e.mesh && Holds(w, e.mesh)
    && e.id in w.posts && w.posts[e.id].stage == Saved && 0 !in w.passes && e.id !in w.kept && w.sent == {}
  }

  lemma FirstPost(e: Envelope, key: Bytes, topic: Text, qos: nat, rest: seq<Event>) returns (w: World, item: Item)
    requires |key| == 32
    ensures Run(START, FirstSteps(e, key, topic, qos, rest)) == Run(w, rest) && FirstSaved(w, e, item)
  {
    var w1 := Next(START, Rejoin(e.mesh, key));
    var w2 := Next(w1, Compose(e, topic, qos));
    item := Item(e.id, e.mesh, topic, qos, Seal(key, e).value, e.timestamp);
    Steps(START, Rejoin(e.mesh, key), [Compose(e, topic, qos)] + ([Save(e.id)] + rest));
    Steps(w1, Compose(e, topic, qos), [Save(e.id)] + rest);
    Steps(w2, Save(e.id), rest);
    assert Holds(w1, e.mesh) && Current(w1, e.mesh) == key && w1.chat == Chat([], []) && w1.kept == {};
    ComposedIs(w1, e, topic, qos);
    w := Next(w2, Save(e.id));
    assert w2.kept == {} && Holds(w2, e.mesh) && w2.passes == map[] && w2.sent == {};
    assert w == w2.(chat := Chat([Message(e, false)], [item]), posts := w2.posts[e.id := Draft(e, item, Saved)]);
    hide Run, Next, Seal;
  }

  /** What a flush of the one row reads. */
  lemma LoadFirst(w: World, e: Envelope, item: Item)
    requires FirstSaved(w, e, item)
    ensures var v := Next(w, Load(0, e.mesh));
      && v.chat == w.chat && v.posts == w.posts && v.kept == w.kept && v.sent == w.sent
      && 0 in v.passes && v.passes[0].items == [item] && !v.passes[0].handed
    ensures WithoutItem([item], e.id) == [] && WithoutMessage([Message(e, false)], e.id) == []
  {
    var none: seq<Item> := [];
    assert [item][1..] == none && Queue(none, e.mesh) == [];
    assert Queue([item], e.mesh) == [item];
  }

  /** A post that fails can go out before that: a flush comes between its save and the failing step after it. */
  lemma FailedPostGoesOut(e: Envelope, key: Bytes, topic: Text, qos: nat)
    requires |key| == 32
    ensures var v := Run(START, FirstSteps(e, key, topic, qos,
        [Load(0, e.mesh)] + ([SendNext(0, Delivered)] + [Settle(e.id, false)])));
      e.id in v.sent && e.id !in v.kept && v.chat == Chat([], [])
  {
    var rest := [Load(0, e.mesh)] + ([SendNext(0, Delivered)] + [Settle(e.id, false)]);
    var w, item := FirstPost(e, key, topic, qos, rest);
    LoadFirst(w, e, item);
    var v := Next(w, Load(0, e.mesh));
    Steps(w, Load(0, e.mesh), [SendNext(0, Delivered)] + [Settle(e.id, false)]);
    TwoSteps(v, SendNext(0, Delivered), Settle(e.id, false));
    hide Run, FirstSteps, Queue, WithoutItem, WithoutMessage;
  }

  /** And after it: the flush loaded the queue before the failure and sends from it when both tables are empty again. */
  lemma FailedPostGoesLate(e: Envelope, key: Bytes, topic: Text, qos: nat)
    requires |key| == 32
    ensures var v := Run(START, FirstSteps(e, key, topic, qos, [Load(0, e.mesh)] + [Settle(e.id, false)]));
      && e.id !in v.sent && e.id !in v.kept && e.id !in v.posts && v.chat == Chat([], [])
      && e.id in Next(v, SendNext(0, Delivered)).sent
  {
    var w, item := FirstPost(e, key, topic, qos, [Load(0, e.mesh)] + [Settle(e.id, false)]);
    LoadFirst(w, e, item);
    TwoSteps(w, Load(0, e.mesh), Settle(e.id, false));
    hide Run, FirstSteps, Queue, WithoutItem, WithoutMessage;
  }
}
