/** A core's chat while posts, flushes, reseals and changes of the circles' keys interleave. A step is one statement or
    transaction on the tables, one hand-over to the network, or one update of a circle's stored key. */
module OutboxRuns {
  import opened Wrappers
  import opened Identity
  import opened Circles
  import opened Outbox

  /** A post under way: sealed, saved, allowed to stay, handed to the network. */
  datatype Stage = Sealed | Saved | Kept | Handed
  datatype Draft = Draft(envelope: Envelope, item: Item, stage: Stage)

  /** A flush under way: the items it loaded and has left, where in the circle's keys each was sealed and the current
      key was at that time, and whether the first item is handed over but not yet deleted. */
  datatype Pass = Pass(mesh: Text, turn: nat, items: seq<Item>, places: seq<nat>, handed: bool)

  /** A reseal under way, from the circle's key number `turn` to the next one. */
  datatype Reseal = Reseal(mesh: Text, turn: nat, loaded: bool, items: seq<Item>, places: seq<nat>)

  /** `keys` are all keys a circle had on this core, the last being the current one. On record are the envelopes
      composed, the ids kept and handed over, the number of the key a post was sealed under first (`born`) and last
      (`place`), and how often a reseal rewrote its row (`moved`). */
  datatype World = World(
    chat: Chat, keys: map<Text, seq<Bytes>>, previous: map<Text, Bytes>,
    posts: map<Text, Draft>, passes: map<nat, Pass>, reseals: map<nat, Reseal>,
    composed: map<Text, Envelope>, kept: set<Text>, sent: set<Text>,
    born: map<Text, nat>, place: map<Text, nat>, moved: map<Text, nat>)

  /** `ChangeKey` is a rotation or an adopted update, which a reseal follows; `Rejoin` is a welcome, which none does.
      `Stop` ends the process and all it has under way. */
  datatype Event =
    | Compose(e: Envelope, topic: Text, qos: nat)
    | Save(id: Text)
    | Settle(id: Text, granted: bool)
    | SendPost(id: Text, sending: Sending)
    | DeletePost(id: Text)
    | Load(n: nat, mesh: Text)
    | SendNext(n: nat, sending: Sending)
    | DeleteNext(n: nat)
    | ChangeKey(n: nat, mesh: Text, newKey: Bytes)
    | Rejoin(mesh: Text, newKey: Bytes)
    | LoadReseal(n: nat)
    | ResealNext(n: nat, works: bool)
    | Deliver(circle: Circle, inGrace: bool, wire: Wire, self: DeviceId, admit: bool)
    | Read(mesh: Text, conversation: Text)
    | Stop

  predicate Holds(w: World, mesh: Text) {
    mesh in w.keys && w.keys[mesh] != []
  }

  function Latest(w: World, mesh: Text): nat
    requires Holds(w, mesh)
  {
    |w.keys[mesh]| - 1
  }

  function Current(w: World, mesh: Text): Bytes
    requires Holds(w, mesh)
  {
    w.keys[mesh][Latest(w, mesh)]
  }

  function Places(place: map<Text, nat>, items: seq<Item>): seq<nat> {
    seq(|items|, i requires 0 <= i < |items| => if items[i].id in place then place[items[i].id] else 0)
  }

  /** The circle is loaded and the envelope sealed; ids are random and new. */
  function Composed(w: World, e: Envelope, topic: Text, qos: nat): World {
    if !Holds(w, e.mesh) || e.id in w.composed then w
    else
      match Seal(Current(w, e.mesh), e)
      case None => w
      case Some(wire) =>
        var at := Latest(w, e.mesh);
        w.(posts := w.posts[e.id := Draft(e, Item(e.id, e.mesh, topic, qos, wire, e.timestamp), Sealed)],
           composed := w.composed[e.id := e],
           born := w.born[e.id := at], place := w.place[e.id := at], moved := w.moved[e.id := 0])
  }

  function SavedDraft(w: World, id: Text): World {
    if id !in w.posts || w.posts[id].stage != Sealed then w
    else
      var d := w.posts[id];
      if Taken(w.chat, d.envelope) then w.(posts := w.posts - {id})
      else
        w.(chat := Chat(w.chat.messages + [Message(d.envelope, false)], w.chat.outbox + [d.item]),
           posts := w.posts[id := d.(stage := Saved)])
  }

  function Settled(w: World, id: Text, granted: bool): World {
    if id !in w.posts || w.posts[id].stage != Saved then w
    else if !granted then w.(chat := Discarded(w.chat, id), posts := w.posts - {id})
    else w.(posts := w.posts[id := w.posts[id].(stage := Kept)], kept := w.kept + {id})
  }

  function HandedOver(w: World, id: Text, sending: Sending): World {
    if id !in w.posts || w.posts[id].stage != Kept then w
    else if sending.Delivered? then w.(posts := w.posts[id := w.posts[id].(stage := Handed)], sent := w.sent + {id})
    else w.(posts := w.posts - {id})
  }

  function PostDeleted(w: World, id: Text): World {
    if id !in w.posts || w.posts[id].stage != Handed then w
    else w.(posts := w.posts - {id}, chat := w.chat.(outbox := WithoutItem(w.chat.outbox, id)))
  }

  function Loaded(w: World, n: nat, mesh: Text): World {
    if n in w.passes || !Holds(w, mesh) then w
    else
      var items := Queue(w.chat.outbox, mesh);
      w.(passes := w.passes[n := Pass(mesh, Latest(w, mesh), items, Places(w.place, items), false)])
  }

  function NextHanded(w: World, n: nat, sending: Sending): World {
    if n !in w.passes || w.passes[n].items == [] || w.passes[n].handed then w
    else if !sending.Delivered? then w.(passes := w.passes - {n})
    else w.(passes := w.passes[n := w.passes[n].(handed := true)], sent := w.sent + {w.passes[n].items[0].id})
  }

  function NextDeleted(w: World, n: nat): World {
    if n !in w.passes || !w.passes[n].handed || w.passes[n].items == [] || w.passes[n].places == [] then w
    else
      var p := w.passes[n];
      w.(passes := w.passes[n := p.(items := p.items[1..], places := p.places[1..], handed := false)],
         chat := w.chat.(outbox := WithoutItem(w.chat.outbox, p.items[0].id)))
  }

  /** Keys that are no key are refused before they get here. */
  function KeyChanged(w: World, n: nat, mesh: Text, newKey: Bytes): World {
    if !Holds(w, mesh) || n in w.reseals || |newKey| != 32 then w
    else
      w.(keys := w.keys[mesh := w.keys[mesh] + [newKey]], previous := w.previous[mesh := Current(w, mesh)],
         reseals := w.reseals[n := Reseal(mesh, Latest(w, mesh), false, [], [])])
  }

  function Rejoined(w: World, mesh: Text, newKey: Bytes): World {
    if |newKey| != 32 then w
    else
      w.(keys := w.keys[mesh := if mesh in w.keys then w.keys[mesh] + [newKey] else [newKey]],
         previous := w.previous - {mesh})
  }

  function ResealLoaded(w: World, n: nat): World {
    if n !in w.reseals || w.reseals[n].loaded then w
    else
      var items := Queue(w.chat.outbox, w.reseals[n].mesh);
      w.(reseals := w.reseals[n := w.reseals[n].(loaded := true, items := items, places := Places(w.place, items))])
  }

  predicate CanReseal(w: World, n: nat) {
    && n in w.reseals && w.reseals[n].items != [] && |w.reseals[n].places| == |w.reseals[n].items|
    && w.reseals[n].mesh in w.keys && w.reseals[n].turn + 1 < |w.keys[w.reseals[n].mesh]|
  }

  /** What the first item left to a reseal is rewritten to. */
  function Rewriting(w: World, n: nat): Option<Wire>
    requires CanReseal(w, n)
  {
    var r := w.reseals[n];
    match Open(w.keys[r.mesh][r.turn], r.items[0].wire)
    case None => None
    case Some(e) => Seal(w.keys[r.mesh][r.turn + 1], e)
  }

  /** A write that fails ends the reseal. */
  function NextResealed(w: World, n: nat, works: bool): World {
    if !CanReseal(w, n) then w
    else
      var r := w.reseals[n];
      var id := r.items[0].id;
      var next := w.(reseals := w.reseals[n := r.(items := r.items[1..], places := r.places[1..])]);
      match Rewriting(w, n)
      case None => next
      case Some(wire) =>
        if !works then w.(reseals := w.reseals - {n})
        else if !Queued(w.chat.outbox, id) then next
        else
          next.(chat := w.chat.(outbox := WithWire(w.chat.outbox, id, wire)), place := w.place[id := r.turn + 1],
                moved := w.moved[id := if id in w.moved then w.moved[id] + 1 else 1])
  }

  function Next(w: World, e: Event): World {
    match e
    case Compose(env, topic, qos) => Composed(w, env, topic, qos)
    case Save(id) => SavedDraft(w, id)
    case Settle(id, granted) => Settled(w, id, granted)
    case SendPost(id, sending) => HandedOver(w, id, sending)
    case DeletePost(id) => PostDeleted(w, id)
    case Load(n, mesh) => Loaded(w, n, mesh)
    case SendNext(n, sending) => NextHanded(w, n, sending)
    case DeleteNext(n) => NextDeleted(w, n)
    case ChangeKey(n, mesh, newKey) => KeyChanged(w, n, mesh, newKey)
    case Rejoin(mesh, newKey) => Rejoined(w, mesh, newKey)
    case LoadReseal(n) => ResealLoaded(w, n)
    case ResealNext(n, works) => NextResealed(w, n, works)
    case Deliver(circle, inGrace, wire, self, admit) => w.(chat := Accepted(w.chat, circle, inGrace, wire, self, admit))
    case Read(mesh, conversation) =>
      w.(chat := w.chat.(messages := ConversationRead(w.chat.messages, mesh, conversation)))
    case Stop => w.(posts := map[], passes := map[], reseals := map[])
  }

  function Run(w: World, events: seq<Event>): World
    decreases |events|
  {
    if events == [] then w else Run(Next(w, events[0]), events[1..])
  }

  /** The item carries the envelope composed under its id, sealed under key number q of its circle. */
  predicate SealedAt(w: World, item: Item, q: nat) {
    && item.id in w.composed && w.composed[item.id].id == item.id && w.composed[item.id].mesh == item.mesh
    && item.mesh in w.keys && q < |w.keys[item.mesh]|
    && Seal(w.keys[item.mesh][q], w.composed[item.id]) == Some(item.wire)
  }

  predicate StoredAs(messages: seq<Message>, e: Envelope) {
    exists i :: 0 <= i < |messages| && messages[i].envelope == e
  }

  /** A queued item is the stored post, sealed under the key its last sealing used. */
  ghost predicate RowFine(w: World, x: Item) {
    && x.id in w.place && SealedAt(w, x, w.place[x.id]) && StoredAs(w.chat.messages, w.composed[x.id])
  }

  ghost predicate DraftFine(w: World, id: Text, d: Draft) {
    && d.item.id == id && id in w.composed && w.composed[id] == d.envelope
    && id in w.born && SealedAt(w, d.item, w.born[id])
    && id in w.place && (d.stage == Sealed ==> w.place[id] == w.born[id] && !Queued(w.chat.outbox, id))
    && (d.stage == Sealed || d.stage == Saved ==> id !in w.kept) && (d.stage == Handed ==> id in w.sent)
  }

  ghost predicate ItemsFine(w: World, mesh: Text, items: seq<Item>, places: seq<nat>) {
    |places| == |items| && forall i :: 0 <= i < |items| ==> items[i].mesh == mesh && SealedAt(w, items[i], places[i])
  }

  ghost predicate PassFine(w: World, p: Pass) {
    && ItemsFine(w, p.mesh, p.items, p.places) && p.mesh in w.keys && p.turn < |w.keys[p.mesh]|
    && (forall i :: 0 <= i < |p.places| ==> p.places[i] <= p.turn)
    && (p.handed ==> p.items != [] && p.items[0].id in w.sent)
  }

  ghost predicate ResealFine(w: World, r: Reseal) {
    ItemsFine(w, r.mesh, r.items, r.places) && r.mesh in w.keys && r.turn + 1 < |w.keys[r.mesh]|
  }

  /** A post that was saved and not discarded. */
  predicate Owed(w: World, id: Text) {
    id in w.kept || (id in w.posts && w.posts[id].stage == Saved)
  }

  /** It is stored as composed, and was handed over or is still queued. */
  ghost predicate KeptFine(w: World, id: Text) {
    && id in w.composed && w.composed[id].id == id && StoredAs(w.chat.messages, w.composed[id])
    && (id in w.sent || Queued(w.chat.outbox, id))
  }

  ghost predicate KeysFine(w: World) {
    && w.born.Keys == w.place.Keys == w.moved.Keys == w.composed.Keys
    && (forall mesh :: mesh in w.keys ==> w.keys[mesh] != [])
    && (forall mesh, q :: mesh in w.keys && 0 <= q < |w.keys[mesh]| ==> |w.keys[mesh][q]| == 32)
    && (forall mesh :: mesh in w.previous ==>
          mesh in w.keys && |w.keys[mesh]| >= 2 && w.previous[mesh] == w.keys[mesh][|w.keys[mesh]| - 2])
  }

  ghost predicate RowsFine(w: World) {
    forall x :: x in w.chat.outbox ==> RowFine(w, x)
  }

  ghost predicate DraftsFine(w: World) {
    forall id :: id in w.posts ==> DraftFine(w, id, w.posts[id])
  }

  ghost predicate PassesFine(w: World) {
    forall n :: n in w.passes ==> PassFine(w, w.passes[n])
  }

  ghost predicate ResealsFine(w: World) {
    forall n :: n in w.reseals ==> ResealFine(w, w.reseals[n])
  }

  ghost predicate AllKept(w: World) {
    forall id :: Owed(w, id) ==> KeptFine(w, id)
  }

  /** What every run keeps. */
  ghost predicate Sound(w: World) {
    && Keyed(w.chat) && KeysFine(w) && RowsFine(w) && DraftsFine(w) && PassesFine(w) && ResealsFine(w) && AllKept(w)
  }

  /** An empty chat without keys is where runs start; the first key of a circle comes with a welcome or its creation. */
  const START := World(Chat([], []), map[], map[], map[], map[], map[], map[], {}, {}, map[], map[], map[])

  lemma StartSound()
    ensures Sound(START)
  {
  }

  /** Nothing on record is forgotten or changed, and keys are only added. */
  ghost predicate Grows(w: World, v: World) {
    && (forall id :: id in w.composed ==> id in v.composed && v.composed[id] == w.composed[id])
    && (forall mesh :: mesh in w.keys ==> mesh in v.keys && w.keys[mesh] <= v.keys[mesh])
    && (forall id :: id in w.born ==> id in v.born && v.born[id] == w.born[id])
    && w.place.Keys <= v.place.Keys && w.kept <= v.kept && w.sent <= v.sent
  }

  lemma ItemsGrow(w: World, v: World, mesh: Text, items: seq<Item>, places: seq<nat>)
    requires Grows(w, v) && ItemsFine(w, mesh, items, places)
    ensures ItemsFine(v, mesh, items, places)
  {
    hide Seal;
    forall i | 0 <= i < |items|
      ensures SealedAt(v, items[i], places[i])
    {
      assert SealedAt(w, items[i], places[i]);
    }
  }

  lemma TasksGrow(w: World, v: World)
    requires Grows(w, v)
    ensures forall n :: n in w.passes && PassFine(w, w.passes[n]) ==> PassFine(v, w.passes[n])
    ensures forall n :: n in w.reseals && ResealFine(w, w.reseals[n]) ==> ResealFine(v, w.reseals[n])
  {
    hide ItemsFine;
    forall n | n in w.passes && PassFine(w, w.passes[n])
      ensures PassFine(v, w.passes[n])
    {
      ItemsGrow(w, v, w.passes[n].mesh, w.passes[n].items, w.passes[n].places);
    }
    forall n | n in w.reseals && ResealFine(w, w.reseals[n])
      ensures ResealFine(v, w.reseals[n])
    {
      ItemsGrow(w, v, w.reseals[n].mesh, w.reseals[n].items, w.reseals[n].places);
    }
  }

  lemma RowGrows(w: World, v: World, x: Item)
    requires Grows(w, v) && RowFine(w, x) && x.id in v.place && v.place[x.id] == w.place[x.id]
    requires StoredAs(v.chat.messages, w.composed[x.id])
    ensures RowFine(v, x)
  {
    hide Seal, StoredAs;
  }

  /** The same tables, more on record: everything but the drafts stays fine. */
  lemma RecordsGrow(w: World, v: World)
    requires Sound(w) && Grows(w, v) && v.chat == w.chat
    requires forall id :: id in w.place ==> v.place[id] == w.place[id]
    ensures Keyed(v.chat) && RowsFine(v)
    ensures (forall id :: Owed(v, id) ==> Owed(w, id)) ==> AllKept(v)
    ensures v.passes == w.passes ==> PassesFine(v)
    ensures v.reseals == w.reseals ==> ResealsFine(v)
  {
    TasksGrow(w, v);
    hide PassFine, ResealFine, Keyed, StoredAs, Seal;
    forall x | x in v.chat.outbox
      ensures RowFine(v, x)
    {
      RowGrows(w, v, x);
    }
    forall id | Owed(w, id)
      ensures KeptFine(v, id)
    {
      assert KeptFine(w, id);
    }
  }
}
