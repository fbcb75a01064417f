/** The stored messages over every interleaving: none is lost or replaced, and none comes from nowhere. */
module OutboxRows {
  import opened Wrappers
  import opened Identity
  import opened Circles
  import opened Keys
  import RosterSteps
  import RosterRuns
  import opened Outbox
  import opened OutboxRuns
  import opened OutboxSound

  /** A reader of the conversation along the run. */
  predicate ReadEver(events: seq<Event>, e: Envelope) {
    exists i :: 0 <= i < |events| && events[i] == Read(e.mesh, e.conversation)
  }

  /** The id is not a post's that may still be discarded. */
  predicate Settled(w: World, id: Text) {
    id in w.posts ==> w.posts[id].stage != Saved
  }

  function After(m: Message, e: Event): Message {
    m.(unread := m.unread && e != Read(m.envelope.mesh, m.envelope.conversation))
  }

  lemma StoredIn(messages: seq<Message>, m: Message)
    requires m in messages
    ensures Stored(messages, m.envelope.id)
  {
    var i :| 0 <= i < |messages| && messages[i] == m;
  }

  lemma SaveRow(w: World, m: Message, id: Text)
    requires m in w.chat.messages && Settled(w, m.envelope.id) && (id in w.posts ==> w.posts[id].envelope.id == id)
    ensures var v := SavedDraft(w, id); m in v.chat.messages && Settled(v, m.envelope.id)
  {
    SaveKeepsRow(w, m, id);
    hide Stored, Queued, Settled;
    StoredIn(w.chat.messages, m);
    if id !in w.posts || w.posts[id].stage != Sealed {
      PostsSettled(w, w, id, m.envelope.id);
    } else if Taken(w.chat, w.posts[id].envelope) {
      PostsSettled(w, w.(posts := w.posts - {id}), id, m.envelope.id);
    } else {
      PostsSettled(w, SavedDraft(w, id), id, m.envelope.id);
    }
  }

  /** No other post comes to a stage it was not at. */
  lemma PostsSettled(w: World, v: World, id: Text, k: Text)
    requires Settled(w, k) && (k == id && id in v.posts ==> v.posts[id].stage != Saved)
    requires v.posts == w.posts || v.posts == w.posts - {id} || (id in v.posts && v.posts == w.posts[id := v.posts[id]])
    ensures Settled(v, k)
  {
  }

  lemma SaveKeepsRow(w: World, m: Message, id: Text)
    requires m in w.chat.messages
    ensures m in SavedDraft(w, id).chat.messages
  {
    hide Taken;
    if id !in w.posts || w.posts[id].stage != Sealed {
    } else if Taken(w.chat, w.posts[id].envelope) {
    } else {
    }
  }

  lemma DiscardRow(w: World, m: Message, id: Text, granted: bool)
    requires m in w.chat.messages && Settled(w, m.envelope.id)
    ensures var v := OutboxRuns.Settled(w, id, granted); m in v.chat.messages && Settled(v, m.envelope.id)
  {
    DiscardKeepsRow(w, m, id, granted);
    hide Discarded, Settled;
    var k := m.envelope.id;
    if id !in w.posts || w.posts[id].stage != Saved {
      PostsSettled(w, w, id, k);
    } else {
      PostsSettled(w, OutboxRuns.Settled(w, id, granted), id, k);
    }
  }

  lemma DiscardKeepsRow(w: World, m: Message, id: Text, granted: bool)
    requires m in w.chat.messages && Settled(w, m.envelope.id)
    ensures m in OutboxRuns.Settled(w, id, granted).chat.messages
  {
    WithoutMessageHolds(w.chat.messages, id);
    hide WithoutItem, WithoutMessage;
    if id !in w.posts || w.posts[id].stage != Saved {
    } else if !granted {
    } else {
    }
  }

  lemma ReadRow(messages: seq<Message>, m: Message, mesh: Text, conversation: Text)
    requires m in messages
    ensures After(m, Read(mesh, conversation)) in ConversationRead(messages, mesh, conversation)
  {
    var i :| 0 <= i < |messages| && messages[i] == m;
    assert ConversationRead(messages, mesh, conversation)[i] == After(m, Read(mesh, conversation));
  }

  lemma DeliverRow(c: Chat, m: Message, e: Event)
    requires m in c.messages && e.Deliver?
    ensures m in Accepted(c, e.circle, e.inGrace, e.wire, e.self, e.admit).messages
  {
    hide OpenAny, OpenKeys, FromMember, Stored;
  }

  /** Steps that leave the messages alone save or compose nothing that could be discarded. */
  lemma OtherRow(w: World, m: Message, e: Event)
    requires m in w.chat.messages && Settled(w, m.envelope.id)
    requires !e.Save? && !e.Settle? && !e.Read? && !e.Deliver?
    ensures m in Next(w, e).chat.messages && Settled(Next(w, e), m.envelope.id)
  {
    hide Composed, KeyChanged, Rejoined, ResealLoaded, NextResealed, HandedOver, PostDeleted, Loaded, NextHanded,
      NextDeleted;
    match e {
      case Compose(env, topic, qos) => ComposeRow(w, m, env, topic, qos);
      case SendPost(id, sending) => SendRow(w, m, id, sending);
      case DeletePost(id) => DeleteRow(w, m, id);
      case _ => TaskRow(w, m, e);
    }
  }

  lemma ComposeRow(w: World, m: Message, e: Envelope, topic: Text, qos: nat)
    requires m in w.chat.messages && Settled(w, m.envelope.id)
    ensures var v := Composed(w, e, topic, qos); m in v.chat.messages && Settled(v, m.envelope.id)
  {
    hide Seal;
    if !Holds(w, e.mesh) || e.id in w.composed {
    } else if Seal(Current(w, e.mesh), e).None? {
    } else {
    }
  }

  lemma SendRow(w: World, m: Message, id: Text, sending: Sending)
    requires m in w.chat.messages && Settled(w, m.envelope.id)
    ensures var v := HandedOver(w, id, sending); m in v.chat.messages && Settled(v, m.envelope.id)
  {
    if id !in w.posts || w.posts[id].stage != Kept {
    } else if sending.Delivered? {
    } else {
    }
  }

  lemma DeleteRow(w: World, m: Message, id: Text)
    requires m in w.chat.messages && Settled(w, m.envelope.id)
    ensures var v := PostDeleted(w, id); m in v.chat.messages && Settled(v, m.envelope.id)
  {
    hide WithoutItem;
    if id !in w.posts || w.posts[id].stage != Handed {
    } else {
    }
  }

  predicate OnTasks(e: Event) {
    e.Load? || e.SendNext? || e.DeleteNext? || e.ChangeKey? || e.Rejoin? || e.LoadReseal? || e.ResealNext? || e.Stop?
  }

  lemma TaskRow(w: World, m: Message, e: Event)
    requires m in w.chat.messages && Settled(w, m.envelope.id) && OnTasks(e)
    ensures m in Next(w, e).chat.messages && Settled(Next(w, e), m.envelope.id)
  {
    SameMessages(w, e);
    hide Next;
  }

  /** The messages and the posts under way stay as they are. */
  predicate SamePost(w: World, v: World) {
    v.chat.messages == w.chat.messages && v.posts == w.posts
  }

  lemma LoadMessages(w: World, n: nat, mesh: Text)
    ensures SamePost(w, Loaded(w, n, mesh))
  {
    hide Queue, Places;
    if n in w.passes || !Holds(w, mesh) {
    } else {
    }
  }

  lemma SendNextMessages(w: World, n: nat, sending: Sending)
    ensures SamePost(w, NextHanded(w, n, sending))
  {
    if n !in w.passes || w.passes[n].items == [] || w.passes[n].handed {
    } else if !sending.Delivered? {
    } else {
    }
  }

  lemma DeleteNextMessages(w: World, n: nat)
    ensures SamePost(w, NextDeleted(w, n))
  {
    hide WithoutItem;
    if n !in w.passes || !w.passes[n].handed || w.passes[n].items == [] || w.passes[n].places == [] {
    } else {
    }
  }

  lemma KeyMessages(w: World, n: nat, mesh: Text, newKey: Bytes)
    ensures SamePost(w, KeyChanged(w, n, mesh, newKey)) && SamePost(w, Rejoined(w, mesh, newKey))
  {
    if |newKey| != 32 {
    } else if !Holds(w, mesh) || n in w.reseals {
    } else {
    }
  }

  lemma LoadResealMessages(w: World, n: nat)
    ensures SamePost(w, ResealLoaded(w, n))
  {
    hide Queue, Places;
    if n !in w.reseals || w.reseals[n].loaded {
    } else {
    }
  }

  lemma SameMessages(w: World, e: Event)
    requires OnTasks(e)
    ensures Next(w, e).chat.messages == w.chat.messages
    ensures forall id :: id in Next(w, e).posts ==> id in w.posts && Next(w, e).posts[id] == w.posts[id]
  {
    hide Loaded, NextHanded, NextDeleted, KeyChanged, Rejoined, ResealLoaded, NextResealed;
    match e {
      case Load(n, mesh) => LoadMessages(w, n, mesh);
      case SendNext(n, sending) => SendNextMessages(w, n, sending);
      case DeleteNext(n) => DeleteNextMessages(w, n);
      case ChangeKey(n, mesh, newKey) => KeyMessages(w, n, mesh, newKey);
      case Rejoin(mesh, newKey) => KeyMessages(w, 0, mesh, newKey);
      case LoadReseal(n) => LoadResealMessages(w, n);
      case ResealNext(n, works) => ResealMessages(w, n, works);
      case Stop =>
    }
  }

  lemma ResealMessages(w: World, n: nat, works: bool)
    ensures SamePost(w, NextResealed(w, n, works))
  {
    ResealPosts(w, n, works);
    hide WithWire, Rewriting, Queued;
    if !CanReseal(w, n) {
    } else if Rewriting(w, n).None? {
    } else if !works {
    } else if !Queued(w.chat.outbox, w.reseals[n].items[0].id) {
    } else {
    }
  }

  lemma ResealPosts(w: World, n: nat, works: bool)
    ensures NextResealed(w, n, works).posts == w.posts
  {
    if !CanReseal(w, n) || Rewriting(w, n).None? {
      ResealPasses(w, n, works);
    } else {
      ResealWrites(w, n, works);
    }
  }

  lemma ResealPasses(w: World, n: nat, works: bool)
    requires CanReseal(w, n) ==> Rewriting(w, n).None?
    ensures NextResealed(w, n, works).posts == w.posts
  {
    hide WithWire, Rewriting, Queued;
    if !CanReseal(w, n) {
    } else {
    }
  }

  lemma ResealWrites(w: World, n: nat, works: bool)
    requires CanReseal(w, n) && Rewriting(w, n).Some?
    ensures NextResealed(w, n, works).posts == w.posts
  {
    hide WithWire, Rewriting, Queued;
    if !works {
    } else if !Queued(w.chat.outbox, w.reseals[n].items[0].id) {
    } else {
    }
  }

  lemma RowStep(w: World, e: Event, m: Message)
    requires Sound(w) && m in w.chat.messages && Settled(w, m.envelope.id)
    ensures After(m, e) in Next(w, e).chat.messages && Settled(Next(w, e), m.envelope.id)
  {
    hide Sound, SavedDraft, OutboxRuns.Settled, Accepted, ConversationRead, Settled;
    match e {
      case Save(id) =>
        if id in w.posts {
          DraftIsFine(w, id);
          DraftIds(w, id);
        }
        SaveRow(w, m, id);
      case Settle(id, granted) => DiscardRow(w, m, id, granted);
      case Read(mesh, conversation) =>
        ReadRow(w.chat.messages, m, mesh, conversation);
        SamePosts(w, w.(chat := Next(w, e).chat), m.envelope.id);
      case Deliver(_, _, _, _, _) =>
        DeliverRow(w.chat, m, e);
        SamePosts(w, w.(chat := Next(w, e).chat), m.envelope.id);
      case _ => OtherRow(w, m, e);
    }
  }

  lemma SamePosts(w: World, v: World, id: Text)
    requires Settled(w, id) && v.posts == w.posts
    ensures Settled(v, id)
  {
  }

  /** No run loses or replaces a stored message, but for a post's that its own failure discards; it turns read exactly
      when its conversation is marked read, so no delivery, repeated or not, changes its flag. */
  lemma {:induction false} RowsStay(w: World, events: seq<Event>, m: Message)
    requires Sound(w) && m in w.chat.messages && Settled(w, m.envelope.id)
    ensures m.(unread := m.unread && !ReadEver(events, m.envelope)) in Run(w, events).chat.messages
    ensures Settled(Run(w, events), m.envelope.id)
    decreases |events|
  {
    hide Sound, Next, Settled;
    if events == [] {
      assert m.(unread := m.unread) == m;
    } else {
      var e := m.envelope;
      RowStep(w, events[0], m);
      StepSound(w, events[0]);
      RowsStay(Next(w, events[0]), events[1..], After(m, events[0]));
      ReadSplits(events, e);
    }
  }

  lemma ReadSplits(events: seq<Event>, e: Envelope)
    requires events != []
    ensures ReadEver(events, e) <==> events[0] == Read(e.mesh, e.conversation) || ReadEver(events[1..], e)
  {
    if k :| 0 <= k < |events[1..]| && events[1..][k] == Read(e.mesh, e.conversation) {
      assert events[k + 1] == events[1..][k];
    }
    if k :| 0 <= k < |events| && events[k] == Read(e.mesh, e.conversation) {
      assert k > 0 ==> events[1..][k - 1] == events[k];
    }
  }

  /** Once a message is stored, delivering its id again, at any later time and in any wire, changes nothing. */
  lemma RedeliveryIgnored(w: World, events: seq<Event>, m: Message, e: Event)
    requires Sound(w) && m in w.chat.messages && Settled(w, m.envelope.id)
    requires e.Deliver? && OpenAny(OpenKeys(e.circle, e.inGrace), e.wire).Some?
    requires OpenAny(OpenKeys(e.circle, e.inGrace), e.wire).value.id == m.envelope.id
    ensures Next(Run(w, events), e) == Run(w, events)
  {
    hide OpenAny, OpenKeys, FromMember, Sound, Run;
    RowsStay(w, events, m);
    StoredIn(Run(w, events).chat.messages, m.(unread := m.unread && !ReadEver(events, m.envelope)));
  }

  /** Where a row comes from: this core composed it, or a wire that opened under the circle's keys brought it, signed by
      a member that was active then. */
  predicate Brings(e: Event, row: Envelope) {
    || (e.Compose? && e.e == row)
    || (e.Deliver? && e.admit && FromMember(e.circle, row)
        && OpenAny(OpenKeys(e.circle, e.inGrace), e.wire) == Some(row))
  }

  predicate BroughtBy(events: seq<Event>, row: Envelope) {
    exists k :: 0 <= k < |events| && Brings(events[k], row)
  }

  /** Every row and every post under way is among these envelopes. */
  ghost predicate From(w: World, all: iset<Envelope>) {
    && (forall m :: m in w.chat.messages ==> m.envelope in all)
    && (forall id :: id in w.posts ==> w.posts[id].envelope in all)
  }

  lemma StepFrom(w: World, e: Event, all: iset<Envelope>)
    requires From(w, all) && forall row :: Brings(e, row) ==> row in all
    ensures From(Next(w, e), all)
  {
    hide From, Composed, SavedDraft, OutboxRuns.Settled, HandedOver, PostDeleted, Loaded, NextHanded, NextDeleted,
      KeyChanged, Rejoined, ResealLoaded, NextResealed, Accepted, ConversationRead;
    match e {
      case Compose(env, _, _) => ComposeFrom(w, e, all);
      case Save(id) => SaveFrom(w, id, all);
      case Settle(id, granted) => SettleFrom(w, id, granted, all);
      case SendPost(id, sending) => SendPostFrom(w, id, sending, all);
      case DeletePost(id) => DeletePostFrom(w, id, all);
      case Deliver(_, _, _, _, _) => DeliverFrom(w, e, all);
      case Read(mesh, conversation) => ReadFrom(w, mesh, conversation, all);
      case _ => TaskFrom(w, e, all);
    }
  }

  lemma TaskFrom(w: World, e: Event, all: iset<Envelope>)
    requires From(w, all) && OnTasks(e)
    ensures From(Next(w, e), all)
  {
    SameMessages(w, e);
    hide Next;
  }

  lemma SendPostFrom(w: World, id: Text, sending: Sending, all: iset<Envelope>)
    requires From(w, all)
    ensures From(HandedOver(w, id, sending), all)
  {
    if id !in w.posts || w.posts[id].stage != Kept {
    } else if sending.Delivered? {
    } else {
    }
  }

  lemma DeletePostFrom(w: World, id: Text, all: iset<Envelope>)
    requires From(w, all)
    ensures From(PostDeleted(w, id), all)
  {
    hide WithoutItem;
    if id !in w.posts || w.posts[id].stage != Handed {
    } else {
    }
  }

  lemma ComposeFrom(w: World, e: Event, all: iset<Envelope>)
    requires From(w, all) && e.Compose? && e.e in all
    ensures From(Next(w, e), all)
  {
    hide Seal;
    if !Holds(w, e.e.mesh) || e.e.id in w.composed {
    } else if Seal(Current(w, e.e.mesh), e.e).None? {
    } else {
    }
  }

  lemma SaveFrom(w: World, id: Text, all: iset<Envelope>)
    requires From(w, all)
    ensures From(SavedDraft(w, id), all)
  {
    hide Taken;
    if id !in w.posts || w.posts[id].stage != Sealed {
    } else if Taken(w.chat, w.posts[id].envelope) {
      hide From;
      FewerFrom(w, SavedDraft(w, id), id, all);
    } else {
      SavedFrom(w, id, all);
    }
  }

  lemma SavedFrom(w: World, id: Text, all: iset<Envelope>)
    requires From(w, all) && id in w.posts && w.posts[id].stage == Sealed && !Taken(w.chat, w.posts[id].envelope)
    ensures From(SavedDraft(w, id), all)
  {
    hide Taken;
  }

  lemma SettleFrom(w: World, id: Text, granted: bool, all: iset<Envelope>)
    requires From(w, all)
    ensures From(OutboxRuns.Settled(w, id, granted), all)
  {
    WithoutMessageHolds(w.chat.messages, id);
    hide WithoutItem, From, WithoutMessage;
    if id !in w.posts || w.posts[id].stage != Saved {
    } else if !granted {
      FewerFrom(w, OutboxRuns.Settled(w, id, granted), id, all);
    } else {
      FewerFrom(w, OutboxRuns.Settled(w, id, granted), id, all);
    }
  }

  lemma FewerFrom(w: World, v: World, id: Text, all: iset<Envelope>)
    requires From(w, all) && id in w.posts && forall m :: m in v.chat.messages ==> m in w.chat.messages
    requires v.posts == w.posts - {id}
      || (id in v.posts && v.posts == w.posts[id := v.posts[id]] && v.posts[id].envelope == w.posts[id].envelope)
    ensures From(v, all)
  {
  }

  lemma DeliverFrom(w: World, e: Event, all: iset<Envelope>)
    requires From(w, all) && e.Deliver? && forall row :: Brings(e, row) ==> row in all
    ensures From(Next(w, e), all)
  {
    hide Brings, Accepted;
    AcceptBrings(w.chat, e);
  }

  lemma AcceptBrings(c: Chat, e: Event)
    requires e.Deliver?
    ensures forall m :: m in Accepted(c, e.circle, e.inGrace, e.wire, e.self, e.admit).messages ==>
      m in c.messages || Brings(e, m.envelope)
  {
    hide OpenAny, OpenKeys, FromMember, Stored;
  }

  lemma ReadFrom(w: World, mesh: Text, conversation: Text, all: iset<Envelope>)
    requires From(w, all)
    ensures From(Next(w, Read(mesh, conversation)), all)
  {
    var after := ConversationRead(w.chat.messages, mesh, conversation);
    forall m | m in after
      ensures m.envelope in all
    {
      var i :| 0 <= i < |after| && after[i] == m;
      assert m.envelope == w.chat.messages[i].envelope;
    }
  }

  lemma {:induction false} RunFrom(w: World, events: seq<Event>, all: iset<Envelope>)
    requires From(w, all) && forall row :: BroughtBy(events, row) ==> row in all
    ensures From(Run(w, events), all)
    decreases |events|
  {
    hide From, Next, Brings;
    if events == [] {
    } else {
      forall row | Brings(events[0], row)
        ensures row in all
      {
        assert BroughtBy(events, row);
      }
      StepFrom(w, events[0], all);
      forall row | BroughtBy(events[1..], row)
        ensures row in all
      {
        var k :| 0 <= k < |events[1..]| && Brings(events[1..][k], row);
        assert Brings(events[k + 1], row) && BroughtBy(events, row);
      }
      RunFrom(Next(w, events[0]), events[1..], all);
    }
  }

  /** No row appears from nowhere, over every run that starts with no post under way. */
  lemma RowsAreBrought(w: World, events: seq<Event>, m: Message)
    requires w.posts == map[] && m in Run(w, events).chat.messages
    ensures (exists n :: n in w.chat.messages && n.envelope == m.envelope) || BroughtBy(events, m.envelope)
  {
    var all := iset row: Envelope | BroughtBy(events, row) || exists n :: n in w.chat.messages && n.envelope == row;
    RunFrom(w, events, all);
  }

  /** From the moment a core stores a device's revocation, nothing that device sent is taken in any more: not at any
      later point of the circle's run, however the wire opens. */
  lemma RemovedIsSilent(self: RosterSteps.Self, run: seq<Circle>, steps: seq<RosterRuns.Step>, i: nat, j: nat,
      w: World, e: Event)
    requires RosterRuns.Run(self, run, steps) && RosterRuns.Sound(self, run[0]) && i <= j < |run|
    requires e.Deliver? && e.circle == run[j]
    requires OpenAny(OpenKeys(e.circle, e.inGrace), e.wire).Some?
    requires OpenAny(OpenKeys(e.circle, e.inGrace), e.wire).value.sender in run[i].revocations
    ensures Next(w, e) == w
  {
    hide OpenAny, OpenKeys;
    RosterRuns.RevokedForever(self, run, steps, i, j, OpenAny(OpenKeys(e.circle, e.inGrace), e.wire).value.sender);
  }
}
