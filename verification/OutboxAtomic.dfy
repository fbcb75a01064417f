/** Run without interruption, the steps of a post, a flush and a reseal do what the operations do as a whole. */
module OutboxAtomic {
  import opened Identity
  import opened Outbox
  import opened OutboxLaws
  import opened OutboxRuns

  lemma Steps(w: World, e: Event, events: seq<Event>)
    ensures Run(w, [e] + events) == Run(Next(w, e), events)
  {
    assert ([e] + events)[1..] == events;
  }

  /** A crash comes between the hand-over and the deletion. */
  function PostEnds(id: Text, sending: Sending): seq<Event> {
    match sending
    case Delivered => [SendPost(id, Delivered)] + [DeletePost(id)]
    case Crashed => [SendPost(id, Delivered)] + [Stop]
    case _ => [SendPost(id, sending)] + []
  }

  function PostSteps(e: Envelope, topic: Text, qos: nat, granted: bool, sending: Sending): seq<Event> {
    [Compose(e, topic, qos)] + ([Save(e.id)] + ([Settle(e.id, granted)] + PostEnds(e.id, sending)))
  }

  lemma TwoSteps(w: World, a: Event, b: Event)
    ensures Run(w, [a] + [b]) == Next(Next(w, a), b) && Run(w, [a] + []) == Next(w, a)
  {
    Steps(w, a, [b]);
    Steps(w, a, []);
    assert [b] == [b] + [];
    Steps(Next(w, a), b, []);
    hide Next;
  }

  /** How a kept post ends. */
  lemma PostEndIs(w: World, id: Text, sending: Sending)
    requires id in w.posts && w.posts[id].stage == Kept
    ensures var v := Run(w, PostEnds(id, sending));
      && v.chat == (if sending.Delivered? then w.chat.(outbox := WithoutItem(w.chat.outbox, id)) else w.chat)
      && v.sent == w.sent + (if sending.Delivered? || sending.Crashed? then {id} else {}) && v.kept == w.kept
  {
    TwoSteps(w, SendPost(id, Delivered), DeletePost(id));
    TwoSteps(w, SendPost(id, Delivered), Stop);
    TwoSteps(w, SendPost(id, sending), Stop);
    hide Run, WithoutItem;
    if sending.Delivered? {
      assert HandedOver(w, id, Delivered).posts[id].stage == Handed;
    } else if sending.Crashed? {
    } else {
    }
  }

  /** Nothing is left to do for a post that is gone. */
  lemma PostGone(w: World, id: Text, granted: bool, sending: Sending)
    requires id !in w.posts
    ensures var v := Run(w, [Settle(id, granted)] + PostEnds(id, sending));
      v.chat == w.chat && v.sent == w.sent && v.kept == w.kept
    ensures var v := Run(w, PostEnds(id, sending)); v.chat == w.chat && v.sent == w.sent && v.kept == w.kept
  {
    GoneSteps(w, id, granted, Delivered);
    GoneSteps(w, id, granted, sending);
    hide Settled, HandedOver, PostDeleted;
    TwoSteps(w, SendPost(id, Delivered), DeletePost(id));
    TwoSteps(w, SendPost(id, Delivered), Stop);
    TwoSteps(w, SendPost(id, sending), Stop);
    Steps(w, Settle(id, granted), PostEnds(id, sending));
    hide Run;
  }

  lemma GoneSteps(w: World, id: Text, granted: bool, sending: Sending)
    requires id !in w.posts
    ensures HandedOver(w, id, sending) == w && PostDeleted(w, id) == w && Settled(w, id, granted) == w
  {
  }

  lemma ComposedIs(w: World, e: Envelope, topic: Text, qos: nat)
    requires Holds(w, e.mesh) && |Current(w, e.mesh)| == 32 && e.id !in w.composed
    ensures var v := Next(w, Compose(e, topic, qos));
      && v.chat == w.chat && v.sent == w.sent && v.kept == w.kept && e.id in v.posts
      && v.posts[e.id]
        == Draft(e, Item(e.id, e.mesh, topic, qos, Seal(Current(w, e.mesh), e).value, e.timestamp), Sealed)
  {
  }

  /** What a post as a whole leaves. */
  lemma PostedIs(c: Chat, e: Envelope, topic: Text, qos: nat, wire: Wire, granted: bool, sending: Sending)
    ensures var item := Item(e.id, e.mesh, topic, qos, wire, e.timestamp);
      var saved := Chat(c.messages + [Message(e, false)], c.outbox + [item]);
      var (after, result) := PostedChat(c, e, topic, qos, wire, granted, sending);
      && after == (if Taken(c, e) then c
           else if !granted then Discarded(saved, e.id)
           else if sending.Delivered? then saved.(outbox := WithoutItem(saved.outbox, e.id)) else saved)
      && (result.Failed? <==> Taken(c, e) || !granted)
      && (result.Sent? <==> !Taken(c, e) && granted && (sending.Delivered? || sending.Crashed?))
  {
    hide Taken, WithoutItem, Discarded;
  }

  lemma SaveRefused(w: World, id: Text)
    requires id in w.posts && w.posts[id].stage == Sealed && Taken(w.chat, w.posts[id].envelope)
    ensures Next(w, Save(id)) == w.(posts := w.posts - {id})
  {
    hide Taken;
  }

  /** A post whose steps nothing interrupts: the tables, and whether it is kept and handed over. */
  lemma PostIsAtomic(w: World, e: Envelope, topic: Text, qos: nat, granted: bool, sending: Sending)
    requires Holds(w, e.mesh) && |Current(w, e.mesh)| == 32 && e.id !in w.composed
    ensures var v := Run(w, PostSteps(e, topic, qos, granted, sending));
      var (after, result) := PostedChat(w.chat, e, topic, qos, Seal(Current(w, e.mesh), e).value, granted, sending);
      && v.chat == after && v.sent == w.sent + (if result.Sent? then {e.id} else {})
      && v.kept == w.kept + (if result.Failed? then {} else {e.id})
  {
    hide Run, PostedChat, Taken, WithoutItem, PostEnds, Discarded;
    ComposedIs(w, e, topic, qos);
    var w1 := Next(w, Compose(e, topic, qos));
    var w2 := Next(w1, Save(e.id));
    PostedIs(w.chat, e, topic, qos, Seal(Current(w, e.mesh), e).value, granted, sending);
    hide Next, Seal;
    Steps(w, Compose(e, topic, qos), [Save(e.id)] + ([Settle(e.id, granted)] + PostEnds(e.id, sending)));
    Steps(w1, Save(e.id), [Settle(e.id, granted)] + PostEnds(e.id, sending));
    if Taken(w.chat, e) {
      SaveRefused(w1, e.id);
      PostGone(w2, e.id, granted, sending);
    } else {
      SavedThen(w1, e.id, granted, sending);
    }
  }

  lemma SavedThen(w: World, id: Text, granted: bool, sending: Sending)
    requires id in w.posts && w.posts[id].stage == Sealed && !Taken(w.chat, w.posts[id].envelope)
    ensures var d := w.posts[id];
      var saved := Chat(w.chat.messages + [Message(d.envelope, false)], w.chat.outbox + [d.item]);
      var v := Run(Next(w, Save(id)), [Settle(id, granted)] + PostEnds(id, sending));
      && v.chat == (if !granted then Discarded(saved, id)
           else if sending.Delivered? then saved.(outbox := WithoutItem(saved.outbox, id)) else saved)
      && v.sent == w.sent + (if granted && (sending.Delivered? || sending.Crashed?) then {id} else {})
      && v.kept == w.kept + (if granted then {id} else {})
  {
    var w2 := Next(w, Save(id));
    var w3 := Next(w2, Settle(id, granted));
    assert w2.posts[id].stage == Saved && w2.chat.outbox == w.chat.outbox + [w.posts[id].item];
    assert w2.sent == w.sent && w2.kept == w.kept;
    Steps(w2, Settle(id, granted), PostEnds(id, sending));
    if granted {
      assert w3.posts[id].stage == Kept && w3.chat == w2.chat && w3.sent == w2.sent && w3.kept == w2.kept + {id};
      PostEndIs(w3, id, sending);
    } else {
      assert id !in w3.posts && w3.chat == Discarded(w2.chat, id) && w3.sent == w2.sent && w3.kept == w2.kept;
      PostGone(w3, id, granted, sending);
    }
    hide Run, Next, WithoutItem, Discarded, Taken;
  }

  /** The sends of a flush, as far as they go. */
  function FlushSteps(n: nat, items: seq<Item>, env: seq<Sending>): seq<Event>
    decreases |items|
  {
    if items == [] || env == [] then []
    else
      match env[0]
      case Delivered => [SendNext(n, Delivered)] + ([DeleteNext(n)] + FlushSteps(n, items[1..], env[1..]))
      case Crashed => [SendNext(n, Delivered)] + [Stop]
      case _ => [SendNext(n, env[0])] + []
  }

  lemma {:induction false} FlushIsFlushed(w: World, n: nat, env: seq<Sending>)
    requires n in w.passes && !w.passes[n].handed && |w.passes[n].places| == |w.passes[n].items|
    ensures var v, f := Run(w, FlushSteps(n, w.passes[n].items, env)), Flushed(w.chat.outbox, w.passes[n].items, env);
      v.chat == w.chat.(outbox := f.outbox) && v.sent == w.sent + IdsOf(f.sent)
    decreases |w.passes[n].items|
  {
    hide Next, WithoutItem, IdsOf;
    var items := w.passes[n].items;
    if items == [] || env == [] {
      NoIds();
    } else if env[0].Delivered? {
      FlushSends(w, n, env[0]);
      var w1 := Next(w, SendNext(n, Delivered));
      var w2 := Next(w1, DeleteNext(n));
      var rest := FlushSteps(n, items[1..], env[1..]);
      Steps(w, SendNext(n, Delivered), [DeleteNext(n)] + rest);
      Steps(w1, DeleteNext(n), rest);
      hide Run;
      FlushIsFlushed(w2, n, env[1..]);
      FirstIds(items[0], Flushed(w2.chat.outbox, items[1..], env[1..]).sent);
    } else {
      FlushEnds(w, n, env);
    }
  }

  lemma NoIds()
    ensures IdsOf([]) == {}
  {
  }

  /** A flush whose first send is not followed by its deletion. */
  lemma FlushEnds(w: World, n: nat, env: seq<Sending>)
    requires n in w.passes && !w.passes[n].handed && |w.passes[n].places| == |w.passes[n].items|
    requires w.passes[n].items != [] && env != [] && !env[0].Delivered?
    ensures var v, f := Run(w, FlushSteps(n, w.passes[n].items, env)), Flushed(w.chat.outbox, w.passes[n].items, env);
      v.chat == w.chat.(outbox := f.outbox) && v.sent == w.sent + IdsOf(f.sent)
  {
    hide Run, Next, WithoutItem, IdsOf;
    var x := w.passes[n].items[0];
    FlushSends(w, n, env[0]);
    FirstIds(x, []);
    assert [x] + [] == [x];
    if env[0].Crashed? {
      TwoSteps(w, SendNext(n, Delivered), Stop);
      StopKeeps(Next(w, SendNext(n, Delivered)));
    } else {
      TwoSteps(w, SendNext(n, env[0]), Stop);
    }
  }

  lemma StopKeeps(w: World)
    ensures Next(w, Stop).chat == w.chat && Next(w, Stop).sent == w.sent
  {
  }

  lemma FirstIds(x: Item, items: seq<Item>)
    ensures IdsOf([x] + items) == {x.id} + IdsOf(items) && IdsOf([]) == {}
  {
    assert ([x] + items)[0] == x && forall i :: 0 <= i < |items| ==> ([x] + items)[i + 1] == items[i];
  }

  lemma FlushSends(w: World, n: nat, sending: Sending)
    requires n in w.passes && !w.passes[n].handed && |w.passes[n].places| == |w.passes[n].items|
      && w.passes[n].items != []
    ensures var p, v := w.passes[n], Next(w, SendNext(n, Delivered));
      var u := Next(v, DeleteNext(n));
      && v.chat == w.chat && Next(w, SendNext(n, sending)).chat == w.chat && n in u.passes
      && v.sent == u.sent == w.sent + {p.items[0].id}
      && (!sending.Delivered? ==> Next(w, SendNext(n, sending)).sent == w.sent)
      && u.passes[n] == p.(items := p.items[1..], places := p.places[1..], handed := false)
      && u.chat == w.chat.(outbox := WithoutItem(w.chat.outbox, p.items[0].id))
  {
    hide WithoutItem;
    var v := NextHanded(w, n, Delivered);
    assert n in v.passes && v.passes[n] == w.passes[n].(handed := true);
    if sending.Delivered? {
    } else {
    }
  }

  /** A flush whose steps nothing interrupts: the tables, and what it hands over. */
  lemma FlushIsAtomic(w: World, n: nat, mesh: Text, env: seq<Sending>)
    requires n !in w.passes && Holds(w, mesh)
    ensures var items := Queue(w.chat.outbox, mesh);
      var v, f := Run(w, [Load(n, mesh)] + FlushSteps(n, items, env)), Flushed(w.chat.outbox, items, env);
      v.chat == w.chat.(outbox := f.outbox) && v.sent == w.sent + IdsOf(f.sent)
  {
    var items := Queue(w.chat.outbox, mesh);
    var v := Next(w, Load(n, mesh));
    assert n in v.passes && v.passes[n].items == items && v.chat == w.chat && |v.passes[n].places| == |items|;
    assert v.sent == w.sent;
    Steps(w, Load(n, mesh), FlushSteps(n, items, env));
    FlushIsFlushed(v, n, env);
    hide Run, Next, Flushed, FlushSteps, Queue, IdsOf;
  }

  /** The writes of a reseal work as far as `works`. */
  function ResealSteps(n: nat, count: nat, works: nat): seq<Event> {
    if count == 0 then []
    else [ResealNext(n, works > 0)] + ResealSteps(n, count - 1, if works > 0 then works - 1 else 0)
  }

  /** The rows among `some`, rewritten. */
  function RewrittenOf(outbox: seq<Item>, some: seq<Item>, mesh: Text, oldKey: Bytes, newKey: Bytes): seq<Item> {
    seq(|outbox|, k requires 0 <= k < |outbox| =>
      if outbox[k] in some then ResealedItem(outbox[k], mesh, oldKey, newKey) else outbox[k])
  }

  ghost predicate Reads(w: World, n: nat) {
    && n in w.reseals && w.reseals[n].loaded && |w.reseals[n].places| == |w.reseals[n].items|
    && w.reseals[n].mesh in w.keys && w.reseals[n].turn + 1 < |w.keys[w.reseals[n].mesh]|
    && |w.keys[w.reseals[n].mesh][w.reseals[n].turn + 1]| == 32
    && DistinctItems(w.chat.outbox) && DistinctItems(w.reseals[n].items)
    && (forall x :: x in w.reseals[n].items ==> x in w.chat.outbox && x.mesh == w.reseals[n].mesh)
  }

  lemma IdleReseal(w: World, n: nat, count: nat, works: nat)
    requires n !in w.reseals
    ensures Run(w, ResealSteps(n, count, works)) == w
    decreases count
  {
    if count == 0 {
    } else {
      var rest := if works > 0 then works - 1 else 0;
      Steps(w, ResealNext(n, works > 0), ResealSteps(n, count - 1, rest));
      assert Next(w, ResealNext(n, works > 0)) == w;
      IdleReseal(w, n, count - 1, rest);
    }
  }

  /** What the first step of a reseal does to the table, and whether the reseal goes on. */
  lemma FirstRewrite(w: World, n: nat, works: bool)
    requires Reads(w, n) && w.reseals[n].items != []
    ensures var r, v := w.reseals[n], Next(w, ResealNext(n, works));
      var oldKey, newKey := w.keys[r.mesh][r.turn], w.keys[r.mesh][r.turn + 1];
      && v.keys == w.keys && v.chat.messages == w.chat.messages
      && v.chat.outbox == (if works then RewrittenOf(w.chat.outbox, [r.items[0]], r.mesh, oldKey, newKey)
         else w.chat.outbox)
      && (if !works && Open(oldKey, r.items[0].wire).Some? then n !in v.reseals
          else n in v.reseals && v.reseals[n] == r.(items := r.items[1..], places := r.places[1..]))
  {
    var r := w.reseals[n];
    FirstCan(w, n);
    hide Next, Reads, Open, Seal, RewrittenOf;
    if Open(w.keys[r.mesh][r.turn], r.items[0].wire).None? {
      FirstSkipped(w, n, works);
    } else {
      SealOpens(w.keys[r.mesh][r.turn + 1], Open(w.keys[r.mesh][r.turn], r.items[0].wire).value);
      if works {
        FirstWritten(w, n);
      } else {
        FirstFails(w, n);
      }
    }
  }

  lemma FirstCan(w: World, n: nat)
    requires Reads(w, n) && w.reseals[n].items != []
    ensures CanReseal(w, n) && |w.keys[w.reseals[n].mesh][w.reseals[n].turn + 1]| == 32
  {
  }

  lemma FirstSkipped(w: World, n: nat, works: bool)
    requires CanReseal(w, n) && Open(w.keys[w.reseals[n].mesh][w.reseals[n].turn], w.reseals[n].items[0].wire).None?
    ensures var r, v := w.reseals[n], Next(w, ResealNext(n, works));
      && v == w.(reseals := w.reseals[n := r.(items := r.items[1..], places := r.places[1..])])
      && w.chat.outbox
        == RewrittenOf(w.chat.outbox, [r.items[0]], r.mesh, w.keys[r.mesh][r.turn], w.keys[r.mesh][r.turn + 1])
  {
    var r := w.reseals[n];
    SameRow(w.chat.outbox, r.items[0], r.mesh, w.keys[r.mesh][r.turn], w.keys[r.mesh][r.turn + 1]);
    hide Open, RewrittenOf;
  }

  lemma FirstFails(w: World, n: nat)
    requires CanReseal(w, n) && Rewriting(w, n).Some?
    ensures Next(w, ResealNext(n, false)) == w.(reseals := w.reseals - {n})
  {
    hide Rewriting;
  }

  lemma FirstWritten(w: World, n: nat)
    requires Reads(w, n) && w.reseals[n].items != [] && Rewriting(w, n).Some?
    ensures var r, v := w.reseals[n], Next(w, ResealNext(n, true));
      && v.keys == w.keys && v.chat.messages == w.chat.messages
      && v.reseals == w.reseals[n := r.(items := r.items[1..], places := r.places[1..])]
      && v.chat.outbox
        == RewrittenOf(w.chat.outbox, [r.items[0]], r.mesh, w.keys[r.mesh][r.turn], w.keys[r.mesh][r.turn + 1])
  {
    var r := w.reseals[n];
    var x := r.items[0];
    var oldKey, newKey := w.keys[r.mesh][r.turn], w.keys[r.mesh][r.turn + 1];
    assert x in r.items;
    InQueue(w.chat.outbox, x);
    RowById(w.chat.outbox, x);
    OneRow(w.chat.outbox, x, r.mesh, oldKey, newKey);
    hide Open, Seal, RewrittenOf, DistinctItems, WithWire, Queued, ResealedItem;
  }

  lemma InQueue(outbox: seq<Item>, x: Item)
    requires x in outbox
    ensures Queued(outbox, x.id)
  {
    var i :| 0 <= i < |outbox| && outbox[i] == x;
  }

  lemma RowById(outbox: seq<Item>, x: Item)
    requires DistinctItems(outbox) && x in outbox
    ensures forall k :: 0 <= k < |outbox| ==> (outbox[k].id == x.id <==> outbox[k] == x)
  {
    var i :| 0 <= i < |outbox| && outbox[i] == x;
  }

  lemma SameRow(outbox: seq<Item>, x: Item, mesh: Text, oldKey: Bytes, newKey: Bytes)
    requires Open(oldKey, x.wire).None?
    ensures RewrittenOf(outbox, [x], mesh, oldKey, newKey) == outbox
  {
  }

  lemma OneRow(outbox: seq<Item>, x: Item, mesh: Text, oldKey: Bytes, newKey: Bytes)
    requires x.mesh == mesh && Open(oldKey, x.wire).Some? && Seal(newKey, Open(oldKey, x.wire).value).Some?
    requires forall k :: 0 <= k < |outbox| ==> (outbox[k].id == x.id <==> outbox[k] == x)
    ensures WithWire(outbox, x.id, Seal(newKey, Open(oldKey, x.wire).value).value)
      == RewrittenOf(outbox, [x], mesh, oldKey, newKey)
  {
  }

  lemma {:induction false} ResealIsRewritten(w: World, n: nat, works: nat)
    requires Reads(w, n)
    ensures var r := w.reseals[n];
      Run(w, ResealSteps(n, |r.items|, works)).chat == w.chat.(outbox := RewrittenOf(w.chat.outbox,
        r.items[..Lesser(works, |r.items|)], r.mesh, w.keys[r.mesh][r.turn], w.keys[r.mesh][r.turn + 1]))
    decreases |w.reseals[n].items|
  {
    hide Next, Run, Open, RewrittenOf, DistinctItems, ResealSteps;
    var r := w.reseals[n];
    var oldKey, newKey := w.keys[r.mesh][r.turn], w.keys[r.mesh][r.turn + 1];
    hide Reads;
    if r.items == [] {
      NoSteps(w, n, works);
      NothingRewritten(w.chat.outbox, r.items, works, r.mesh, oldKey, newKey);
    } else {
      var rest := if works > 0 then works - 1 else 0;
      var v := Next(w, ResealNext(n, works > 0));
      FirstRewrite(w, n, works > 0);
      OneStep(w, n, works);
      if n !in v.reseals {
        IdleReseal(v, n, |r.items| - 1, rest);
        NothingRewritten(w.chat.outbox, r.items, works, r.mesh, oldKey, newKey);
      } else {
        TailReads(w, v, n, works > 0);
        ResealIsRewritten(v, n, rest);
        RestRewritten(w, n, works, oldKey, newKey);
      }
    }
  }

  lemma OneStep(w: World, n: nat, works: nat)
    requires n in w.reseals && w.reseals[n].items != []
    ensures Run(w, ResealSteps(n, |w.reseals[n].items|, works))
      == Run(Next(w, ResealNext(n, works > 0)),
             ResealSteps(n, |w.reseals[n].items| - 1, if works > 0 then works - 1 else 0))
  {
    Steps(w, ResealNext(n, works > 0),
          ResealSteps(n, |w.reseals[n].items| - 1, if works > 0 then works - 1 else 0));
    hide Run, Next;
  }

  lemma NothingRewritten(outbox: seq<Item>, items: seq<Item>, works: nat, mesh: Text, oldKey: Bytes, newKey: Bytes)
    requires works == 0 || items == []
    ensures RewrittenOf(outbox, items[..Lesser(works, |items|)], mesh, oldKey, newKey) == outbox
  {
    assert items[..0] == [];
    NoneRewritten(outbox, mesh, oldKey, newKey);
  }

  lemma NoSteps(w: World, n: nat, works: nat)
    ensures Run(w, ResealSteps(n, 0, works)) == w
  {
  }

  lemma RestRewritten(w: World, n: nat, works: nat, oldKey: Bytes, newKey: Bytes)
    requires Reads(w, n) && w.reseals[n].items != []
    ensures var outbox, items, mesh := w.chat.outbox, w.reseals[n].items, w.reseals[n].mesh;
      var first := if works > 0 then RewrittenOf(outbox, [items[0]], mesh, oldKey, newKey) else outbox;
      var rest := if works > 0 then works - 1 else 0;
      RewrittenOf(first, items[1..][..Lesser(rest, |items| - 1)], mesh, oldKey, newKey)
        == RewrittenOf(outbox, items[..Lesser(works, |items|)], mesh, oldKey, newKey)
  {
    hide RewrittenOf;
    var items := w.reseals[n].items;
    if works > 0 {
      var k := Lesser(works, |items|);
      assert items[1..][..k - 1] == items[1..k] == items[..k][1..] && items[..k][0] == items[0];
      FirstThenRest(w.chat.outbox, items[..k], w.reseals[n].mesh, oldKey, newKey);
    } else {
      assert items[1..][..0] == [] && items[..0] == [];
    }
  }

  lemma NoneRewritten(outbox: seq<Item>, mesh: Text, oldKey: Bytes, newKey: Bytes)
    ensures RewrittenOf(outbox, [], mesh, oldKey, newKey) == outbox
  {
  }

  lemma TailReads(w: World, v: World, n: nat, works: bool)
    requires Reads(w, n) && w.reseals[n].items != [] && v.keys == w.keys && n in v.reseals
    requires var r := w.reseals[n];
      && v.reseals[n] == r.(items := r.items[1..], places := r.places[1..])
      && v.chat.outbox == (if works then RewrittenOf(w.chat.outbox, [r.items[0]], r.mesh, w.keys[r.mesh][r.turn],
                                                     w.keys[r.mesh][r.turn + 1]) else w.chat.outbox)
    ensures Reads(v, n)
  {
    var r := w.reseals[n];
    hide Open, Seal;
    assert forall i :: 0 <= i < |r.items[1..]| ==> r.items[1..][i] == r.items[i + 1];
    assert forall k :: 0 <= k < |w.chat.outbox| ==> v.chat.outbox[k].id == w.chat.outbox[k].id;
    forall x | x in r.items[1..]
      ensures x in v.chat.outbox && x.mesh == r.mesh
    {
      assert x in r.items;
      var k :| 0 <= k < |w.chat.outbox| && w.chat.outbox[k] == x;
      assert v.chat.outbox[k] == x;
    }
  }

  lemma FirstThenRest(outbox: seq<Item>, some: seq<Item>, mesh: Text, oldKey: Bytes, newKey: Bytes)
    requires some != [] && DistinctItems(some)
    ensures RewrittenOf(RewrittenOf(outbox, [some[0]], mesh, oldKey, newKey), some[1..], mesh, oldKey, newKey)
      == RewrittenOf(outbox, some, mesh, oldKey, newKey)
  {
    hide Open, Seal;
    var once := RewrittenOf(outbox, [some[0]], mesh, oldKey, newKey);
    assert some == [some[0]] + some[1..];
    forall k | 0 <= k < |outbox|
      ensures RewrittenOf(once, some[1..], mesh, oldKey, newKey)[k]
        == RewrittenOf(outbox, some, mesh, oldKey, newKey)[k]
    {
      if outbox[k] == some[0] {
        assert once[k].id == some[0].id;
      }
    }
  }

  /** A reseal whose steps nothing interrupts, up to the first row that cannot be written. */
  lemma ResealIsAtomic(w: World, n: nat, works: nat)
    requires n in w.reseals && !w.reseals[n].loaded && Keyed(w.chat) && w.reseals[n].mesh in w.keys
    requires w.reseals[n].turn + 1 < |w.keys[w.reseals[n].mesh]|
    requires |w.keys[w.reseals[n].mesh][w.reseals[n].turn + 1]| == 32
    ensures var r := w.reseals[n];
      var queue := Queue(w.chat.outbox, r.mesh);
      Run(w, [LoadReseal(n)] + ResealSteps(n, |queue|, works)).chat == w.chat.(outbox := Resealed(w.chat.outbox, r.mesh,
        w.keys[r.mesh][r.turn], w.keys[r.mesh][r.turn + 1], IdsOf(queue[Lesser(works, |queue|)..])))
  {
    var r := w.reseals[n];
    var queue := Queue(w.chat.outbox, r.mesh);
    var v := Next(w, LoadReseal(n));
    QueueHolds(w.chat.outbox, r.mesh);
    QueueDistinct(w.chat.outbox, r.mesh);
    assert v.reseals[n].items == queue && v.chat == w.chat && v.keys == w.keys && v.reseals[n].mesh == r.mesh;
    assert v.reseals[n].turn == r.turn && v.reseals[n].loaded && |v.reseals[n].places| == |queue|;
    assert Reads(v, n);
    Steps(w, LoadReseal(n), ResealSteps(n, |queue|, works));
    hide Next, Run, Queue;
    ResealIsRewritten(v, n, works);
    var k := Lesser(works, |queue|);
    var oldKey, newKey := w.keys[r.mesh][r.turn], w.keys[r.mesh][r.turn + 1];
    var after := RewrittenOf(w.chat.outbox, queue[..k], r.mesh, oldKey, newKey);
    Rewritten(w.chat.outbox, after, queue, r.mesh, oldKey, newKey, k);
  }
}
