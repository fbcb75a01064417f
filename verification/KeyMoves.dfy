/** Every move of the key protocol keeps the cores in agreement and takes nothing back. */
module KeyMoves {
  import opened Wrappers
  import opened Identity
  import opened Circles
  import opened Roster
  import opened RosterSteps
  import opened RosterRuns
  import opened Keys
  import opened KeyProtocol

  ghost function Top(s: Setup, w: World): nat
    requires s.creator.device in w.cores
  {
    w.cores[s.creator.device].keyEpoch
  }

  /** The device whose stored circle an event replaces or drops. */
  function Replaced(e: Event): set<DeviceId> {
    match e
    case Join(_, d) => {d}
    case Forget(d) => {d}
    case _ => {}
  }

  /** Nothing issued or settled is forgotten; each core's roster and epoch only move forward, the creator's always,
      another's unless its stored circle was replaced or dropped. */
  ghost predicate Advances(s: Setup, w: World, w': World, lost: set<DeviceId>) {
    && (forall d :: d in w.cores && (d !in lost || d == s.creator.device) ==>
          d in w'.cores && Evolves(w.cores[d], w'.cores[d]) && w.cores[d].keyEpoch <= w'.cores[d].keyEpoch)
    && w.issued <= w'.issued
    && (forall e :: e in w.keyAt ==> e in w'.keyAt && w'.keyAt[e] == w.keyAt[e])
  }

  lemma AdvancesTransitive(s: Setup, a: World, b: World, c: World, lost: set<DeviceId>, more: set<DeviceId>)
    requires Advances(s, a, b, lost) && Advances(s, b, c, more)
    ensures Advances(s, a, c, lost + more)
  {
    forall d | d in a.cores && (d !in lost + more || d == s.creator.device)
      ensures d in c.cores && Evolves(a.cores[d], c.cores[d]) && a.cores[d].keyEpoch <= c.cores[d].keyEpoch
    {
      assert d in b.cores;
      EvolvesTransitive(a.cores[d], b.cores[d], c.cores[d]);
    }
  }

  lemma AdvancesReflexive(s: Setup, w: World)
    ensures Advances(s, w, w, {})
  {
    forall d | d in w.cores {
      EvolvesReflexive(w.cores[d]);
    }
  }

  lemma EvolvesReflexive(c: Circle)
    ensures Evolves(c, c)
  {
  }

  /** A core that did not move stays in step with a world that grew. */
  lemma StaysInStep(s: Setup, w: World, w': World, d: DeviceId, top: nat, top': nat)
    requires w.issued <= w'.issued && top <= top'
    requires forall e :: e in w.keyAt ==> e in w'.keyAt && w'.keyAt[e] == w.keyAt[e]
    requires d in w.cores && d in w.ids && d in w'.cores && d in w'.ids
    requires w'.cores[d] == w.cores[d] && w'.ids[d] == w.ids[d] && InStep(s, w, d, top)
    ensures InStep(s, w', d, top')
  {
  }

  /** One core moves and nobody else does: the world still agrees if that core stays in step. */
  lemma CoreMoved(s: Setup, w: World, w': World, d: DeviceId)
    requires Agreed(s, w) && d in w.cores && d in w'.cores
    requires w' == w.(cores := w.cores[d := w'.cores[d]], issued := w'.issued) && w.issued <= w'.issued
    requires forall u :: u in w'.issued ==> u in w.issued || IssuedFine(s, w', u, Top(s, w))
    requires InStep(s, w', d, Top(s, w)) && Evolves(w.cores[d], w'.cores[d])
    requires w.cores[d].keyEpoch <= w'.cores[d].keyEpoch
    requires d == s.creator.device ==> CreatorReady(s, w'.cores[d]) && w'.cores[d].keyEpoch == w.cores[d].keyEpoch
    ensures Agreed(s, w') && Advances(s, w, w', {})
  {
    hide InStep, Evolves, CreatorReady, IssuedFine, OfferFine;
    OthersUnmoved(s, w, w', d);
    IssuedGrows(s, w, w');
    OffersStay(s, w, w', Top(s, w));
  }

  lemma IssuedGrows(s: Setup, w: World, w': World)
    requires Agreed(s, w) && w'.keyAt == w.keyAt
    requires forall u :: u in w'.issued ==> u in w.issued || IssuedFine(s, w', u, Top(s, w))
    ensures forall u :: u in w'.issued ==> IssuedFine(s, w', u, Top(s, w))
  {
    hide InStep, OfferFine, CreatorReady;
    forall u | u in w'.issued
      ensures IssuedFine(s, w', u, Top(s, w))
    {
      assert u in w.issued ==> IssuedFine(s, w, u, Top(s, w));
    }
  }

  lemma OthersUnmoved(s: Setup, w: World, w': World, d: DeviceId)
    requires Agreed(s, w) && d in w.cores && d in w'.cores
    requires w' == w.(cores := w.cores[d := w'.cores[d]], issued := w'.issued) && w.issued <= w'.issued
    ensures forall x :: x in w'.cores && x != d ==> InStep(s, w', x, Top(s, w)) && Evolves(w.cores[x], w'.cores[x])
  {
    hide IssuedFine, OfferFine, CreatorReady;
    forall x | x in w'.cores && x != d
      ensures InStep(s, w', x, Top(s, w)) && Evolves(w.cores[x], w'.cores[x])
    {
      StaysInStep(s, w, w', x, Top(s, w), Top(s, w));
      EvolvesReflexive(w.cores[x]);
    }
  }

  /** Welcomes on their way stay fine in a world that grew. */
  lemma OffersStay(s: Setup, w: World, w': World, top': nat)
    requires Agreed(s, w) && Top(s, w) <= top' && w'.offers == w.offers
    requires forall e :: e in w.keyAt ==> e in w'.keyAt && w'.keyAt[e] == w.keyAt[e]
    ensures forall session :: session in w'.offers ==> OfferFine(s, w', w'.offers[session], top')
  {
    hide InStep, IssuedFine, CreatorReady, Sound;
    forall session | session in w'.offers
      ensures OfferFine(s, w', w'.offers[session], top')
    {
      assert OfferFine(s, w, w.offers[session], Top(s, w));
    }
  }

  /** A rotation hands the new key only to devices the creator has not revoked. */
  lemma RotatedCreator(s: Setup, c: Circle, key: Bytes, now: Text)
    requires Sound(s.creator, c) && c.id == s.circleId && c.creator == s.creator.device && |key| == KEY_LENGTH
    ensures var r := Rekeyed(c, s.creator, key, now).value;
      && Sound(s.creator, r) && Evolves(c, r) && CreatorKey(r) == s.creator.key && CreatorReady(s, r)
      && r.keyUpdate.Some? && r.keyEpoch == c.keyEpoch + 1 && r.groupKey == key
      && var u := r.keyUpdate.value;
      && u.epoch == r.keyEpoch
      && forall d :: d in u.entries ==> EntryHolds(s, u, d, key) && d != s.creator.device && d !in c.revocations
  {
    var r := Rekeyed(c, s.creator, key, now).value;
    KeysKeepSound(s.creator, c, r);
    var u := r.keyUpdate.value;
    forall d | d in u.entries
      ensures EntryHolds(s, u, d, key) && d != s.creator.device && d !in c.revocations && EntrySealedTo(s, r, u, d)
    {
      RecipientsActive(s.creator, c, d);
    }
  }

  /** The whole circle of cores stays in step with a world that grew around the creator. */
  lemma OthersStay(s: Setup, w: World, w': World, top': nat)
    requires Agreed(s, w) && Top(s, w) <= top' && w'.ids == w.ids && w.issued <= w'.issued
    requires s.creator.device in w'.cores
    requires w'
      == w.(cores := w.cores[s.creator.device := w'.cores[s.creator.device]], issued := w'.issued, keyAt := w'.keyAt)
    requires forall e :: e in w.keyAt ==> e in w'.keyAt && w'.keyAt[e] == w.keyAt[e]
    ensures forall x :: x in w'.cores && x != s.creator.device ==>
      InStep(s, w', x, top') && Evolves(w.cores[x], w'.cores[x])
    ensures forall u :: u in w.issued ==> IssuedFine(s, w', u, top')
  {
    forall x | x in w'.cores && x != s.creator.device
      ensures InStep(s, w', x, top') && Evolves(w.cores[x], w'.cores[x])
    {
      StaysInStep(s, w, w', x, Top(s, w), top');
      EvolvesReflexive(w.cores[x]);
    }
    forall u | u in w.issued
      ensures IssuedFine(s, w', u, top')
    {
      assert IssuedFine(s, w, u, Top(s, w));
    }
  }

  lemma RotatedInStep(s: Setup, w: World, e: Event, w': World)
    requires s.creator.device in w.cores && s.creator.device in w.ids && InStep(s, w, s.creator.device, Top(s, w))
    requires w.ids[s.creator.device] == s.creator && e.Rotate? && Moves(s, w, e, w')
    ensures InStep(s, w', s.creator.device, Top(s, w) + 1)
      && w'.issued == w.issued + IssuedBy(w'.cores[s.creator.device])
    ensures forall u :: u in IssuedBy(w'.cores[s.creator.device]) ==> IssuedFine(s, w', u, Top(s, w) + 1)
    ensures Evolves(w.cores[s.creator.device], w'.cores[s.creator.device])
      && CreatorReady(s, w'.cores[s.creator.device])
    ensures w'.keyAt.Keys == w.keyAt.Keys + {Top(s, w) + 1} && w'.cores[s.creator.device].keyEpoch == Top(s, w) + 1
  {
    RotatedCreator(s, w.cores[s.creator.device], e.key, e.now);
  }

  lemma RotateAgreed(s: Setup, w: World, e: Event, w': World)
    requires Agreed(s, w) && e.Rotate? && Moves(s, w, e, w')
    ensures Agreed(s, w') && Advances(s, w, w', {})
  {
    hide InStep, IssuedFine, CreatorReady, CreatorKey, Evolves, Rekeyed, Sound;
    var creator, top := s.creator.device, Top(s, w);
    assert InStep(s, w, creator, top);
    RotatedInStep(s, w, e, w');
    OthersStay(s, w, w', top + 1);
  }

  lemma RosterStepAgreed(s: Setup, w: World, e: Event, w': World)
    requires Agreed(s, w) && e.RosterStep? && Moves(s, w, e, w')
    ensures Agreed(s, w') && Advances(s, w, w', {})
  {
    var top := Top(s, w);
    var c, r := w.cores[e.device], w'.cores[e.device];
    assert InStep(s, w, e.device, top);
    StepKeepsSound(w.ids[e.device], c, e.step, r);
    RosterKeepsKeys(w.ids[e.device], c, e.step, r);
    EvolvesKeepsKeys(c, r, c.creator);
    CoreMoved(s, w, w', e.device);
  }

  /** A genuine update has an epoch the creator reached and hands out that epoch's key. */
  lemma GenuineFine(s: Setup, w: World, update: Option<KeyUpdate>)
    requires Agreed(s, w) && Genuine(w, s, update) && update.Some? && VerifyKeyUpdate(update.value, s.creator.key)
    ensures IssuedFine(s, w, update.value, Top(s, w)) && update.value in w.issued
  {
  }

  lemma DeliverAgreed(s: Setup, w: World, e: Event, w': World)
    requires Agreed(s, w) && e.Deliver? && Moves(s, w, e, w')
    ensures Agreed(s, w') && Advances(s, w, w', {})
  {
    var self, c, r := w.ids[e.device], w.cores[e.device], w'.cores[e.device];
    assert InStep(s, w, e.device, Top(s, w));
    DeliveryFine(s, self, c, e.records, e.update, e.now);
    EvolvesKeepsKeys(c, r, c.creator);
    if e.update.Some? && VerifyKeyUpdate(e.update.value, s.creator.key) {
      GenuineFine(s, w, e.update);
    }
    if e.device == s.creator.device {
      CreatorDelivered(s, w, e, w');
    } else {
      MemberDelivered(s, w, e, w');
    }
    CoreMoved(s, w, w', e.device);
  }

  lemma MemberDelivered(s: Setup, w: World, e: Event, w': World)
    requires Agreed(s, w) && e.Deliver? && Moves(s, w, e, w') && e.device != s.creator.device
    requires Delivered(s, w.ids[e.device], w.cores[e.device], e.update, w'.cores[e.device])
    requires Known(w'.cores[e.device].members, s.creator.device) && CreatorKey(w'.cores[e.device]) == s.creator.key
    ensures InStep(s, w', e.device, Top(s, w))
    ensures w'.cores[e.device].keyEpoch > w.cores[e.device].keyEpoch ==>
      e.update.Some? && e.update.value in w.issued && e.device in e.update.value.entries
      && w'.cores[e.device].keyEpoch == e.update.value.epoch
  {
    assert InStep(s, w, e.device, Top(s, w));
    if w'.cores[e.device].keyEpoch > w.cores[e.device].keyEpoch {
      GenuineFine(s, w, e.update);
      assert EntryHolds(s, e.update.value, e.device, w.keyAt[e.update.value.epoch]);
    }
  }

  /** A delivery never moves the creator; what it extends is an update of its own epoch. */
  lemma CreatorDelivered(s: Setup, w: World, e: Event, w': World)
    requires Agreed(s, w) && e.Deliver? && Moves(s, w, e, w') && e.device == s.creator.device
    requires Delivered(s, s.creator, w.cores[e.device], e.update, w'.cores[e.device])
    requires Known(w'.cores[e.device].members, s.creator.device) && CreatorKey(w'.cores[e.device]) == s.creator.key
    ensures var c, r := w.cores[e.device], w'.cores[e.device];
      && r.keyEpoch == c.keyEpoch && r.groupKey == c.groupKey && CreatorReady(s, r)
      && (forall u :: u in IssuedBy(r) ==> IssuedFine(s, w', u, c.keyEpoch) && u.epoch == c.keyEpoch)
      && (r.keyUpdate == c.keyUpdate || ExtendedFrom(s, c, r))
    ensures InStep(s, w', e.device, Top(s, w))
  {
    hide KeysApplied, Sound, OfferFine;
    var c, r := w.cores[e.device], w'.cores[e.device];
    assert InStep(s, w, e.device, c.keyEpoch);
    if c.keyUpdate.Some? {
      assert IssuedFine(s, w, c.keyUpdate.value, c.keyEpoch);
    }
    if e.update.Some? && VerifyKeyUpdate(e.update.value, s.creator.key) {
      GenuineFine(s, w, e.update);
    }
  }

  /** The creator is active in its own circle, so it never joins again. */
  lemma CreatorStays(s: Setup, w: World, e: Event, w': World)
    requires Agreed(s, w) && Moves(s, w, e, w')
    ensures s.creator.device !in Replaced(e)
  {
    if e.Join? {
      var creator := w.cores[s.creator.device];
      assert InStep(s, w, s.creator.device, Top(s, w));
      var k := RecordFound(creator.members, s.creator.device);
      ActiveAt(creator.members, k);
    }
  }

  /** The member's side of a pairing: what it stores, and what the welcome carries. */
  lemma InviterMoves(s: Setup, w: World, e: Event)
    requires Agreed(s, w) && e.Invite? && e.via in w.cores && e.via in w.ids
    ensures var c, r := w.cores[e.via], Paired(s, w, e.via, e.joiner, e.now);
      var stored := Vouched(r, w.ids[e.via], e.now);
      && Sound(w.ids[e.via], r) && Sound(w.ids[e.via], stored) && Evolves(c, stored)
      && r == c.(members := r.members, admissions := r.admissions)
      && stored == c.(members := stored.members, admissions := stored.admissions, revocations := stored.revocations)
      && Known(r.members, c.creator) && CreatorKey(r) == s.creator.key
      && Known(stored.members, c.creator) && CreatorKey(stored) == s.creator.key
  {
    var self, c, r := w.ids[e.via], w.cores[e.via], Paired(s, w, e.via, e.joiner, e.now);
    assert InStep(s, w, e.via, Top(s, w));
    AdmitKeepsSound(self, c, e.joiner, SignAdmission(self.key, s.circleId, e.joiner, e.via, e.now));
    EvolvesKeepsKeys(c, r, c.creator);
    VouchKeepsSound(self, r, e.now);
    EvolvesKeepsKeys(r, Vouched(r, self, e.now), c.creator);
    EvolvesTransitive(c, r, Vouched(r, self, e.now));
    VouchFields(r, self, e.now);
    hide Evolves, Sound, Vouched, CreatorKey;
  }

  lemma VouchFields(c: Circle, self: Self, now: Text)
    requires c.members != [] && self.key.DeviceKey?
    ensures var r := Vouched(c, self, now);
      r == c.(members := r.members, admissions := r.admissions, revocations := r.revocations)
  {
    MembersKnown(c.members);
    VouchingEstablishes(c, self, c.members, now);
  }

  lemma InviterInStep(s: Setup, w: World, e: Event, w': World)
    requires Agreed(s, w) && e.Invite? && Moves(s, w, e, w')
    ensures InStep(s, w'.(offers := w.offers), e.via, Top(s, w))
    ensures Evolves(w.cores[e.via], w'.cores[e.via]) && w'.cores[e.via].keyEpoch == w.cores[e.via].keyEpoch
  {
    assert InStep(s, w, e.via, Top(s, w));
    InviterMoves(s, w, e);
    hide Agreed, Paired, Vouched, Sound, Evolves, Active, CreatorKey;
  }

  lemma WelcomeFine(s: Setup, w: World, e: Event, w': World)
    requires Agreed(s, w) && e.Invite? && Moves(s, w, e, w')
    ensures OfferFine(s, w', w'.offers[e.session], Top(s, w))
  {
    assert InStep(s, w, e.via, Top(s, w));
    InviterMoves(s, w, e);
    GiftSound(w.ids[e.via], Paired(s, w, e.via, e.joiner, e.now));
    hide Agreed, Paired, Vouched, Sound, Evolves, Active, CreatorKey;
  }

  lemma GiftSound(self: Self, c: Circle)
    requires Sound(self, c)
    ensures Sound(self, Gift(c)) && Known(Gift(c).members, Gift(c).creator) && CreatorKey(Gift(c)) == CreatorKey(c)
  {
  }

  lemma InviterReady(s: Setup, w: World, e: Event, w': World)
    requires Agreed(s, w) && e.Invite? && Moves(s, w, e, w') && e.via == s.creator.device
    ensures CreatorReady(s, w'.cores[e.via])
  {
    InviterMoves(s, w, e);
    hide Paired, Vouched, Sound, Evolves, Active, InStep, OfferFine, IssuedFine;
  }

  lemma InviteView(s: Setup, w: World, e: Event, w': World)
    requires e.Invite? && Moves(s, w, e, w')
    ensures var mid := w'.(offers := w.offers);
      && e.via in w.cores && e.via in w'.cores && mid == w.(cores := w.cores[e.via := w'.cores[e.via]])
      && e.session in w'.offers && w' == mid.(offers := mid.offers[e.session := w'.offers[e.session]])
  {
    hide Paired, Vouched, Active, MemberKeyBound;
  }

  lemma InviteAgreed(s: Setup, w: World, e: Event, w': World)
    requires Agreed(s, w) && e.Invite? && Moves(s, w, e, w')
    ensures Agreed(s, w') && Advances(s, w, w', {})
  {
    InviteView(s, w, e, w');
    CreatorListed(s, w, e.via);
    hide Moves, Agreed, Evolves;
    var mid := w'.(offers := w.offers);
    InviterInStep(s, w, e, w');
    WelcomeFine(s, w, e, w');
    if e.via == s.creator.device {
      InviterReady(s, w, e, w');
    }
    hide Agreed, InStep, Evolves, CreatorReady, OfferFine;
    CoreMoved(s, w, mid, e.via);
    OfferGrows(s, mid, w', w'.offers[e.session], Top(s, w));
    OfferAdded(s, mid, w', e.session);
    hide Advances;
    AdvancesMore(s, w, mid, w');
  }

  lemma CreatorListed(s: Setup, w: World, d: DeviceId)
    requires Agreed(s, w) && d in w.cores
    ensures s.creator.device in w.cores && d in w.ids && s.creator.device in w.ids
  {
  }

  lemma AdvancesMore(s: Setup, w: World, mid: World, w': World)
    requires Advances(s, w, mid, {}) && mid == w'.(offers := mid.offers)
    ensures Advances(s, w, w', {})
  {
  }

  lemma OfferGrows(s: Setup, w: World, w': World, o: Offer, top: nat)
    requires OfferFine(s, w', o, top) && w'.keyAt == w.keyAt
    ensures OfferFine(s, w, o, top)
  {
  }

  lemma OfferAdded(s: Setup, w: World, w': World, session: Text)
    requires Agreed(s, w) && session in w'.offers && OfferFine(s, w', w'.offers[session], Top(s, w))
    requires w' == w.(offers := w.offers[session := w'.offers[session]])
    ensures Agreed(s, w')
  {
  }

  lemma JoinAgreed(s: Setup, w: World, e: Event, w': World)
    requires Agreed(s, w) && e.Join? && Moves(s, w, e, w')
    ensures Agreed(s, w') && Advances(s, w, w', Replaced(e))
  {
    assert OfferFine(s, w, w.offers[e.session], Top(s, w));
    hide Agreed, Advances, Welcomes, OfferFine, Active;
    CreatorStays(s, w, e, w');
    CoreAdded(s, w, w', e.session);
  }

  /** What is on record stays fine when no key is added. */
  lemma RecordsStay(s: Setup, w: World, w': World)
    requires Agreed(s, w) && w'.keyAt == w.keyAt && w'.issued == w.issued
    requires forall k :: k in w'.offers ==> k in w.offers && w'.offers[k] == w.offers[k]
    ensures forall u :: u in w'.issued ==> IssuedFine(s, w', u, Top(s, w))
    ensures forall k :: k in w'.offers ==> OfferFine(s, w', w'.offers[k], Top(s, w))
  {
    hide InStep, CreatorReady, Sound, CreatorKey;
    forall u | u in w'.issued
      ensures IssuedFine(s, w', u, Top(s, w))
    {
      assert IssuedFine(s, w, u, Top(s, w));
    }
    forall k | k in w'.offers
      ensures OfferFine(s, w', w'.offers[k], Top(s, w))
    {
      assert OfferFine(s, w, w.offers[k], Top(s, w));
    }
  }

  /** All cores but one stay as they are. */
  ghost predicate Elsewhere(w: World, w': World, d: DeviceId) {
    && w'.keyAt == w.keyAt && w'.issued == w.issued && w'.cores.Keys <= w'.ids.Keys
    && (forall x :: x in w.cores && x != d ==>
          x in w'.cores && w'.cores[x] == w.cores[x] && x in w.ids && x in w'.ids && w'.ids[x] == w.ids[x])
    && (forall x :: x in w'.cores && x != d ==> x in w.cores)
  }

  lemma OthersInStep(s: Setup, w: World, w': World, d: DeviceId)
    requires Agreed(s, w) && Elsewhere(w, w', d)
    ensures forall x :: x in w'.cores && x != d ==> InStep(s, w', x, Top(s, w))
  {
    hide IssuedFine, OfferFine, CreatorReady;
    var top := Top(s, w);
    forall x | x in w'.cores && x != d
      ensures InStep(s, w', x, top)
    {
      StaysInStep(s, w, w', x, top, top);
    }
  }

  lemma AdvancesElsewhere(s: Setup, w: World, w': World, d: DeviceId)
    requires Elsewhere(w, w', d) && d != s.creator.device
    ensures Advances(s, w, w', {d})
  {
    AdvancesReflexive(s, w);
    hide Evolves;
  }

  /** One core other than the creator's is replaced by one in step, or dropped. */
  lemma CoreReplaced(s: Setup, w: World, w': World, d: DeviceId)
    requires Agreed(s, w) && Elsewhere(w, w', d) && d != s.creator.device
    requires forall k :: k in w'.offers ==> k in w.offers && w'.offers[k] == w.offers[k]
    requires d in w'.cores ==> InStep(s, w', d, Top(s, w))
    ensures Agreed(s, w') && Advances(s, w, w', {d})
  {
    OthersInStep(s, w, w', d);
    RecordsStay(s, w, w');
    AdvancesElsewhere(s, w, w', d);
    hide InStep, OfferFine, IssuedFine, CreatorReady, Advances;
  }

  lemma CoreAdded(s: Setup, w: World, w': World, session: Text)
    requires Agreed(s, w) && session in w.offers && w.offers[session].joiner.deviceId != s.creator.device
    requires OfferFine(s, w, w.offers[session], Top(s, w)) && w' == AfterJoin(w, session)
    ensures Agreed(s, w') && Advances(s, w, w', {w.offers[session].joiner.deviceId})
  {
    hide InStep, OfferFine, IssuedFine, CreatorReady, Advances;
    JoinerInStep(s, w, w', session);
    CoreReplaced(s, w, w', w.offers[session].joiner.deviceId);
  }

  lemma JoinerInStep(s: Setup, w: World, w': World, session: Text)
    requires session in w.offers && w.offers[session].joiner.deviceId != s.creator.device
    requires s.creator.device in w.cores && w' == AfterJoin(w, session)
    requires OfferFine(s, w, w.offers[session], Top(s, w))
    ensures InStep(s, w', w.offers[session].joiner.deviceId, Top(s, w))
  {
  }

  lemma ForgetAgreed(s: Setup, w: World, e: Event, w': World)
    requires Agreed(s, w) && e.Forget? && Moves(s, w, e, w')
    ensures Agreed(s, w') && Advances(s, w, w', Replaced(e))
  {
    hide InStep, OfferFine, IssuedFine, CreatorReady, Advances, FewActive;
    CoreReplaced(s, w, w', e.device);
  }

  lemma MoveAgreed(s: Setup, w: World, e: Event, w': World)
    requires Agreed(s, w) && Moves(s, w, e, w')
    ensures Agreed(s, w') && Advances(s, w, w', Replaced(e))
  {
    match e
    case Rotate(_, _) => RotateAgreed(s, w, e, w');
    case RosterStep(_, _) => RosterStepAgreed(s, w, e, w');
    case Deliver(_, _, _, _) => DeliverAgreed(s, w, e, w');
    case Invite(_, _, _, _) => InviteAgreed(s, w, e, w');
    case Join(_, _) => JoinAgreed(s, w, e, w');
    case Forget(_) => ForgetAgreed(s, w, e, w');
  }
}
