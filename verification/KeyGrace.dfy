/** What a core's chat and its circle keys do together: the keys the outbox is sealed under are those of the stored
    circle along every run, and the key before the last is kept for the grace window. */
module KeyGrace {
  import opened Wrappers
  import opened Identity
  import opened Circles
  import opened RosterSteps
  import opened RosterRuns
  import opened Keys
  import opened KeyEffects
  import P = KeyProtocol
  import M = KeyMoves
  import opened Outbox
  import O = OutboxRuns
  import T = OutboxTurns
  import K = OutboxKeys

  /** The chat holds the keys of the stored circle: its current one, and its previous one if it keeps one. */
  ghost predicate Mirrors(w: O.World, c: Circle) {
    && O.Holds(w, c.id) && c.groupKey == O.Current(w, c.id)
    && (if c.id in w.previous then c.previousKey.Some? && c.previousKey.value.key == w.previous[c.id]
        else c.previousKey.None?)
  }

  predicate Rekeys(e: O.Event, mesh: Text) {
    (e.ChangeKey? || e.Rejoin?) && e.mesh == mesh
  }

  predicate SameKeys(w: O.World, v: O.World, mesh: Text) {
    && (mesh in v.keys <==> mesh in w.keys) && (mesh in w.keys ==> v.keys[mesh] == w.keys[mesh])
    && (mesh in v.previous <==> mesh in w.previous) && (mesh in w.previous ==> v.previous[mesh] == w.previous[mesh])
  }

  /** No other step of the chat touches the keys of a circle. */
  lemma ChatKeepsKeys(w: O.World, e: O.Event, mesh: Text)
    requires !Rekeys(e, mesh)
    ensures SameKeys(w, O.Next(w, e), mesh)
  {
    hide O.Composed, O.KeyChanged, O.Rejoined, O.ResealLoaded, O.NextResealed, O.SavedDraft, O.Settled, O.HandedOver,
      O.PostDeleted, O.Loaded, O.NextHanded, O.NextDeleted, Accepted, ConversationRead;
    match e {
      case Compose(env, topic, qos) => K.ComposeKeys(w, env, topic, qos);
      case ChangeKey(n, k, newKey) => ChangeElsewhere(w, n, k, newKey, mesh);
      case Rejoin(k, newKey) => RejoinElsewhere(w, k, newKey, mesh);
      case LoadReseal(n) => K.LoadResealKeys(w, n);
      case ResealNext(n, works) => K.ResealKeys(w, n, works);
      case Stop =>
      case _ => K.TablesFrame(w, e);
    }
  }

  lemma ChangeElsewhere(w: O.World, n: nat, k: Text, newKey: Bytes, mesh: Text)
    requires k != mesh
    ensures SameKeys(w, O.KeyChanged(w, n, k, newKey), mesh)
  {
    if !O.Holds(w, k) || n in w.reseals || |newKey| != 32 {
    } else {
    }
  }

  lemma RejoinElsewhere(w: O.World, k: Text, newKey: Bytes, mesh: Text)
    requires k != mesh
    ensures SameKeys(w, O.Rejoined(w, k, newKey), mesh)
  {
    if |newKey| != 32 {
    } else {
    }
  }

  /** A key change of the stored circle, and the step of the chat that goes with it. */
  lemma ChangeMirrors(w: O.World, c: Circle, r: Circle, n: nat)
    requires Mirrors(w, c) && r.id == c.id && |r.groupKey| == 32 && n !in w.reseals
    requires r.previousKey == Some(PreviousKey(c.keyEpoch, c.groupKey))
    ensures Mirrors(O.Next(w, O.ChangeKey(n, c.id, r.groupKey)), r)
  {
  }

  lemma RejoinMirrors(w: O.World, r: Circle)
    requires |r.groupKey| == 32 && r.previousKey.None?
    ensures Mirrors(O.Next(w, O.Rejoin(r.id, r.groupKey)), r)
  {
  }

  /** The core's own circle moved to a later epoch, its own or adopted. */
  predicate Moved(kw: P.World, kw': P.World, d: DeviceId) {
    d in kw.cores && d in kw'.cores && kw.cores[d].keyEpoch < kw'.cores[d].keyEpoch
  }

  /** What the chat of core d does at a key event: a welcome replaces its circle's key, a later epoch adds a key and
      starts a reseal, anything else leaves it alone. */
  ghost predicate Along(s: P.Setup, w: O.World, w': O.World, kw: P.World, e: P.Event, kw': P.World, d: DeviceId) {
    if e.Join? && e.device == d && d in kw'.cores then
      var f := O.Rejoin(s.circleId, kw'.cores[d].groupKey);
      T.Fit(w, f) && w' == O.Next(w, f)
    else if Moved(kw, kw', d) then
      exists n: nat :: n !in w.reseals && AlongChange(s, w, w', kw', d, n)
    else w' == w
  }

  ghost predicate AlongChange(s: P.Setup, w: O.World, w': O.World, kw': P.World, d: DeviceId, n: nat)
    requires d in kw'.cores
  {
    var f := O.ChangeKey(n, s.circleId, kw'.cores[d].groupKey);
    T.Fit(w, f) && w' == O.Next(w, f)
  }

  /** What a key event other than a welcome does to the stored circle: its keys stay, or move on with the key it had
      kept as the previous one. */
  predicate KeyStep(c: Circle, r: Circle) {
    && r.id == c.id
    && (if c.keyEpoch < r.keyEpoch
        then |r.groupKey| == 32 && r.previousKey == Some(PreviousKey(c.keyEpoch, c.groupKey))
        else r.groupKey == c.groupKey && r.previousKey == c.previousKey)
  }

  lemma DeliveredKeys(c: Circle, self: Self, records: seq<KexRecord>, update: Option<KeyUpdate>, now: Text)
    requires c.members != [] && self.key.DeviceKey?
    ensures KeyStep(c, KeysApplied(c, self, records, update, now))
  {
    hide KexAllIngested, Extended, Adopted, Vouched;
    var known := KexAllIngested(c, records);
    var ready := Extended(known, self);
    var moved := if update.None? then None else Adopted(ready, update.value, self);
    KexOnlyGrows(c, records);
    ExtendedIff(known, self, self.device);
    if update.Some? {
      AdoptedIff(ready, update.value, self);
    }
    var last := if moved.Some? then moved.value else ready;
    M.VouchFields(last, self, now);
  }

  lemma CoreIs(s: P.Setup, kw: P.World, d: DeviceId)
    requires P.Agreed(s, kw) && d in kw.cores
    ensures var c := kw.cores[d];
      d in kw.ids && c.id == s.circleId && c.members != [] && kw.ids[d].key.DeviceKey? && kw.ids[d].device == d
  {
    assert P.InStep(s, kw, d, M.Top(s, kw));
  }

  /** The stored circle of a core over one key event. */
  lemma CoreSteps(s: P.Setup, kw: P.World, e: P.Event, kw': P.World, d: DeviceId)
    requires P.Agreed(s, kw) && P.Moves(s, kw, e, kw') && d in kw'.cores
    ensures e.Join? && e.device == d ==>
      var r := kw'.cores[d]; r.id == s.circleId && |r.groupKey| == 32 && r.previousKey.None?
    ensures !(e.Join? && e.device == d) ==> d in kw.cores && KeyStep(kw.cores[d], kw'.cores[d])
  {
    if e.Join? && e.device == d {
      assert P.OfferFine(s, kw, kw.offers[e.session], M.Top(s, kw));
    } else if e.Invite? && e.via == d {
      M.InviterMoves(s, kw, e);
    } else if e.Deliver? && e.device == d {
      CoreIs(s, kw, d);
      DeliveredKeys(kw.cores[d], kw.ids[d], e.records, e.update, e.now);
    } else if e.RosterStep? && e.device == d {
      CoreIs(s, kw, d);
      RosterStepKeys(s, kw, e, kw');
    } else if e.Rotate? && d == s.creator.device {
      CoreIs(s, kw, d);
      RotatedIff(kw.cores[d], s.creator, e.key, e.now, d);
    } else {
      Untouched(s, kw, e, kw', d);
    }
  }

  lemma RosterStepKeys(s: P.Setup, kw: P.World, e: P.Event, kw': P.World)
    requires P.Agreed(s, kw) && P.Moves(s, kw, e, kw') && e.RosterStep?
    ensures KeyStep(kw.cores[e.device], kw'.cores[e.device])
  {
    assert P.InStep(s, kw, e.device, M.Top(s, kw));
    P.RosterKeepsKeys(kw.ids[e.device], kw.cores[e.device], e.step, kw'.cores[e.device]);
    StepKeepsSound(kw.ids[e.device], kw.cores[e.device], e.step, kw'.cores[e.device]);
  }

  lemma Untouched(s: P.Setup, kw: P.World, e: P.Event, kw': P.World, d: DeviceId)
    requires P.Moves(s, kw, e, kw') && d in kw'.cores && !(e.Join? && e.device == d) && !(e.Invite? && e.via == d)
    requires !(e.Deliver? && e.device == d) && !(e.RosterStep? && e.device == d)
    requires !(e.Rotate? && d == s.creator.device)
    ensures d in kw.cores && kw'.cores[d] == kw.cores[d]
  {
  }

  /** The chat keeps holding the keys of the stored circle. */
  lemma AlongMirrors(s: P.Setup, w: O.World, w': O.World, kw: P.World, e: P.Event, kw': P.World, d: DeviceId)
    requires P.Agreed(s, kw) && P.Moves(s, kw, e, kw') && Along(s, w, w', kw, e, kw', d)
    requires d in kw.cores ==> Mirrors(w, kw.cores[d])
    ensures d in kw'.cores ==> Mirrors(w', kw'.cores[d])
  {
    if d in kw'.cores {
      CoreSteps(s, kw, e, kw', d);
      if d in kw.cores {
        CoreIs(s, kw, d);
      }
      hide P.Agreed, P.Moves, O.Next, Mirrors;
      if e.Join? && e.device == d {
        RejoinMirrors(w, kw'.cores[d]);
      } else if Moved(kw, kw', d) {
        var n: nat :| n !in w.reseals && AlongChange(s, w, w', kw', d, n);
        ChangeMirrors(w, kw.cores[d], kw'.cores[d], n);
      } else {
        SameMirrors(w, kw.cores[d], kw'.cores[d]);
      }
    }
  }

  lemma SameMirrors(w: O.World, c: Circle, r: Circle)
    requires Mirrors(w, c) && r.id == c.id && r.groupKey == c.groupKey && r.previousKey == c.previousKey
    ensures Mirrors(w, r)
  {
  }

  /** A step of the chat on its own, or a key event anywhere in the circle. */
  datatype Step = Here(e: O.Event) | There(f: P.Event)

  ghost predicate Steps(s: P.Setup, d: DeviceId, w: O.World, kw: P.World, step: Step, w': O.World, kw': P.World) {
    match step
    case Here(e) => kw' == kw && w' == O.Next(w, e) && !Rekeys(e, s.circleId) && T.Fit(w, e)
    case There(f) => P.Moves(s, kw, f, kw') && Along(s, w, w', kw, f, kw', d)
  }

  ghost predicate Together(s: P.Setup, d: DeviceId, chats: seq<O.World>, keys: seq<P.World>, steps: seq<Step>) {
    |chats| == |keys| == |steps| + 1 && forall k {:trigger steps[k]} :: 0 <= k < |steps| ==>
      Steps(s, d, chats[k], keys[k], steps[k], chats[k + 1], keys[k + 1])
  }

  /** Over every run of both, the chat holds the keys of the stored circle. */
  lemma {:induction false} RunMirrors(s: P.Setup, d: DeviceId, chats: seq<O.World>, keys: seq<P.World>,
      steps: seq<Step>, k: nat)
    requires Together(s, d, chats, keys, steps) && P.Agreed(s, keys[0]) && T.InTurn(chats[0]) && k < |chats|
    requires d in keys[0].cores ==> Mirrors(chats[0], keys[0].cores[d])
    ensures P.Agreed(s, keys[k]) && T.InTurn(chats[k]) && (d in keys[k].cores ==> Mirrors(chats[k], keys[k].cores[d]))
    decreases k
  {
    hide P.Agreed, T.InTurn, Mirrors, P.Moves, O.Next, Along;
    if k == 0 {
    } else {
      RunMirrors(s, d, chats, keys, steps, k - 1);
      assert Steps(s, d, chats[k - 1], keys[k - 1], steps[k - 1], chats[k], keys[k]);
      match steps[k - 1] {
        case Here(e) =>
          T.StepInTurn(chats[k - 1], e);
          HereMirrors(s, chats[k - 1], e, keys[k - 1], d);
        case There(f) =>
          M.MoveAgreed(s, keys[k - 1], f, keys[k]);
          AlongInTurn(s, chats[k - 1], chats[k], keys[k - 1], f, keys[k], d);
          AlongMirrors(s, chats[k - 1], chats[k], keys[k - 1], f, keys[k], d);
      }
    }
  }

  lemma HereMirrors(s: P.Setup, w: O.World, e: O.Event, kw: P.World, d: DeviceId)
    requires P.Agreed(s, kw) && !Rekeys(e, s.circleId) && (d in kw.cores ==> Mirrors(w, kw.cores[d]))
    ensures d in kw.cores ==> Mirrors(O.Next(w, e), kw.cores[d])
  {
    if d in kw.cores {
      CoreIs(s, kw, d);
      hide P.Agreed, O.Next;
      ChatKeepsKeys(w, e, s.circleId);
    }
  }

  lemma AlongInTurn(s: P.Setup, w: O.World, w': O.World, kw: P.World, e: P.Event, kw': P.World, d: DeviceId)
    requires T.InTurn(w) && Along(s, w, w', kw, e, kw', d)
    ensures T.InTurn(w')
  {
    hide T.InTurn, O.Next;
    if e.Join? && e.device == d && d in kw'.cores {
      T.StepInTurn(w, O.Rejoin(s.circleId, kw'.cores[d].groupKey));
    } else if Moved(kw, kw', d) {
      var n: nat :| n !in w.reseals && AlongChange(s, w, w', kw', d, n);
      T.StepInTurn(w, O.ChangeKey(n, s.circleId, kw'.cores[d].groupKey));
    }
  }

  /** Over every such run, what is queued for the circle opens under the open keys of the stored circle if and only if
      it is not behind, or, inside the grace window and with a previous key kept, behind by one key. */
  lemma StoredCircleOpensIff(s: P.Setup, d: DeviceId, chats: seq<O.World>, keys: seq<P.World>, steps: seq<Step>, k: nat,
      x: Item, inGrace: bool)
    requires Together(s, d, chats, keys, steps) && P.Agreed(s, keys[0]) && T.InTurn(chats[0]) && k < |chats|
    requires d in keys[0].cores ==> Mirrors(chats[0], keys[0].cores[d])
    requires d in keys[k].cores && x in chats[k].chat.outbox && x.mesh == s.circleId
    ensures var w, c := chats[k], keys[k].cores[d];
      && O.Holds(w, x.mesh) && x.id in w.place
      && (OpenAny(OpenKeys(c, inGrace), x.wire).Some? <==>
            K.Behind(w, x.id, x.mesh) == 0
            || (inGrace && c.previousKey.Some? && K.Behind(w, x.id, x.mesh) == 1))
  {
    var w, c := chats[k], keys[k].cores[d];
    RunMirrors(s, d, chats, keys, steps, k);
    CoreIs(s, keys[k], d);
    K.BehindDecides(w, x);
    K.GraceOpensIff(w, x, c, inGrace, if c.previousKey.Some? then c.previousKey.value.epoch else 0);
    hide T.InTurn, P.Agreed, OpenAny, OpenKeys;
  }
}
