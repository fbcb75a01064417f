/** Safety of key rotation over every run: agreement, growing epochs, and exclusion of removed devices, with the
    exact part pairing again plays in the last two. */
module KeyRuns {
  import opened Identity
  import opened Circles
  import opened Roster
  import opened RosterSteps
  import opened RosterRuns
  import opened Keys
  import opened KeyMoves
  import opened KeyProtocol

  /** A removed device gets no entry in any update of a later epoch, extended or not. */
  ghost predicate Excludes(s: Setup, w: World, w': World, d: DeviceId)
    requires s.creator.device in w.cores
  {
    forall u :: u in w'.issued && u.epoch > Top(s, w) ==> d !in u.entries
  }

  /** What a move may do to a removed device, seen from the world it was removed in: no entry in a later update, and
      no later epoch except that of a welcome it stores. */
  ghost predicate KeepsOut(s: Setup, w: World, e: Event, w': World, d: DeviceId, epoch: nat) {
    && (forall u :: u in w'.issued && u !in w.issued && u.epoch > epoch ==> d !in u.entries)
    && (d in w'.cores && !PairsWith(e, d) ==> d in w.cores)
    && (d in w'.cores && !PairsWith(e, d) ==>
       w'.cores[d].keyEpoch <= epoch || w'.cores[d].keyEpoch == w.cores[d].keyEpoch)
    && (PairsWith(e, d) ==>
          e.session in w.offers && d in w'.cores && w'.cores[d].keyEpoch == w.offers[e.session].circle.keyEpoch)
  }

  /** The device stores a welcome. */
  predicate PairsWith(e: Event, d: DeviceId) {
    e.Join? && e.device == d
  }

  lemma RotateKeepsOut(s: Setup, w: World, e: Event, w': World, d: DeviceId, epoch: nat)
    requires Agreed(s, w) && Moves(s, w, e, w') && e.Rotate?
    requires d in w.cores[s.creator.device].revocations
    ensures KeepsOut(s, w, e, w', d, epoch)
  {
    RotatedUpdate(s, w, e, w');
    CreatorUnrevoked(s, w);
    hide Agreed, Rekeyed;
  }

  /** What a rotation issues. */
  lemma RotatedUpdate(s: Setup, w: World, e: Event, w': World)
    requires Agreed(s, w) && Moves(s, w, e, w') && e.Rotate?
    ensures forall u, d :: u in w'.issued && u !in w.issued && d in u.entries ==>
      d !in w.cores[s.creator.device].revocations
  {
    assert InStep(s, w, s.creator.device, Top(s, w));
    RotatedCreator(s, w.cores[s.creator.device], e.key, e.now);
    hide Rekeyed, Sound, CreatorReady, Evolves, CreatorKey;
  }

  lemma CreatorUnrevoked(s: Setup, w: World)
    requires Agreed(s, w)
    ensures s.creator.device !in w.cores[s.creator.device].revocations
  {
    assert InStep(s, w, s.creator.device, Top(s, w));
  }

  lemma DeliverKeepsOut(s: Setup, w: World, e: Event, w': World, d: DeviceId, epoch: nat)
    requires Agreed(s, w) && Moves(s, w, e, w') && e.Deliver?
    requires d in w.cores[s.creator.device].revocations
    requires forall u :: u in w.issued && u.epoch > epoch ==> d !in u.entries
    ensures KeepsOut(s, w, e, w', d, epoch)
  {
    hide *;
    DeliverIs(s, w, e, w');
    DeliverView(s, w, e, w');
    if e.device == s.creator.device {
      CreatorDelivered(s, w, e, w');
      CreatorUnrevoked(s, w);
      CreatorKeepsOut(s, w, e, w', d, epoch);
    } else {
      MemberDelivered(s, w, e, w');
      MemberKeepsOut(s, w, e, w', d, epoch);
    }
  }

  lemma CreatorKeepsOut(s: Setup, w: World, e: Event, w': World, d: DeviceId, epoch: nat)
    requires e.Deliver? && e.device == s.creator.device && e.device in w.cores && e.device in w'.cores
    requires w'.cores == w.cores[e.device := w'.cores[e.device]]
    requires w'.issued == w.issued + IssuedBy(w'.cores[e.device]) && d in w.cores[e.device].revocations
    requires var c, r := w.cores[e.device], w'.cores[e.device];
      r.keyEpoch == c.keyEpoch && (r.keyUpdate == c.keyUpdate || ExtendedFrom(s, c, r))
    requires forall u :: u in w.issued && u.epoch > epoch ==> d !in u.entries
    requires w.cores[e.device].keyUpdate.Some? ==> w.cores[e.device].keyUpdate.value in w.issued
    ensures KeepsOut(s, w, e, w', d, epoch)
  {
    hide EntrySealedTo;
  }

  lemma MemberKeepsOut(s: Setup, w: World, e: Event, w': World, d: DeviceId, epoch: nat)
    requires e.Deliver? && e.device in w.cores && e.device in w'.cores && w'.issued == w.issued
    requires w'.cores == w.cores[e.device := w'.cores[e.device]]
    requires w.cores[e.device].keyEpoch <= w'.cores[e.device].keyEpoch
    requires w'.cores[e.device].keyEpoch > w.cores[e.device].keyEpoch ==>
      e.update.Some? && e.update.value in w.issued && e.device in e.update.value.entries
      && w'.cores[e.device].keyEpoch == e.update.value.epoch
    requires forall u :: u in w.issued && u.epoch > epoch ==> d !in u.entries
    ensures KeepsOut(s, w, e, w', d, epoch)
  {
  }

  lemma DeliverView(s: Setup, w: World, e: Event, w': World)
    requires e.Deliver? && Moves(s, w, e, w')
    ensures e.device in w.cores && e.device in w'.cores && w'.cores == w.cores[e.device := w'.cores[e.device]]
    ensures w'.issued == w.issued + if e.device == s.creator.device then IssuedBy(w'.cores[e.device]) else {}
  {
    hide KeysApplied, Genuine;
  }

  lemma DeliverIs(s: Setup, w: World, e: Event, w': World)
    requires Agreed(s, w) && Moves(s, w, e, w') && e.Deliver?
    ensures e.device in w.cores && e.device in w'.cores && e.device in w.ids
    ensures Delivered(s, w.ids[e.device], w.cores[e.device], e.update, w'.cores[e.device])
    ensures Known(w'.cores[e.device].members, s.creator.device) && CreatorKey(w'.cores[e.device]) == s.creator.key
    ensures e.device == s.creator.device ==> w.ids[e.device] == s.creator
    ensures w.cores[e.device].keyEpoch <= w'.cores[e.device].keyEpoch
    ensures w.cores[e.device].keyUpdate.Some? ==> w.cores[e.device].keyUpdate.value in w.issued
  {
    var x := e.device;
    assert InStep(s, w, x, Top(s, w));
    DeliveryFine(s, w.ids[x], w.cores[x], e.records, e.update, e.now);
    EvolvesKeepsKeys(w.cores[x], w'.cores[x], s.creator.device);
  }

  lemma RosterKeepsOut(s: Setup, w: World, e: Event, w': World, d: DeviceId, epoch: nat)
    requires Agreed(s, w) && Moves(s, w, e, w') && e.RosterStep?
    ensures KeepsOut(s, w, e, w', d, epoch)
  {
    RosterKeepsKeys(w.ids[e.device], w.cores[e.device], e.step, w'.cores[e.device]);
  }

  lemma JoinKeepsOut(s: Setup, w: World, e: Event, w': World, d: DeviceId, epoch: nat)
    requires Agreed(s, w) && Moves(s, w, e, w') && (e.Join? || e.Forget?)
    ensures KeepsOut(s, w, e, w', d, epoch)
  {
    hide InStep, IssuedFine, OfferFine, Welcomes, FewActive, CreatorReady, Active, MemberKeyBound;
  }

  lemma InviteKeepsOut(s: Setup, w: World, e: Event, w': World, d: DeviceId, epoch: nat)
    requires Agreed(s, w) && Moves(s, w, e, w') && e.Invite?
    ensures KeepsOut(s, w, e, w', d, epoch)
  {
    InviterMoves(s, w, e);
    hide InStep, IssuedFine, OfferFine, CreatorReady, Active, MemberKeyBound, Paired, Vouched, Sound, Evolves;
  }

  lemma MoveKeepsOut(s: Setup, w: World, e: Event, w': World, d: DeviceId, epoch: nat)
    requires Agreed(s, w) && Moves(s, w, e, w')
    requires d in w.cores[s.creator.device].revocations
    requires forall u :: u in w.issued && u.epoch > epoch ==> d !in u.entries
    ensures KeepsOut(s, w, e, w', d, epoch)
  {
    match e {
      case Rotate(_, _) => RotateKeepsOut(s, w, e, w', d, epoch);
      case RosterStep(_, _) => RosterKeepsOut(s, w, e, w', d, epoch);
      case Deliver(_, _, _, _) => DeliverKeepsOut(s, w, e, w', d, epoch);
      case Invite(_, _, _, _) => InviteKeepsOut(s, w, e, w', d, epoch);
      case Join(_, _) => JoinKeepsOut(s, w, e, w', d, epoch);
      case Forget(_) => JoinKeepsOut(s, w, e, w', d, epoch);
    }
  }

  ghost predicate Runs(s: Setup, run: seq<World>, events: seq<Event>) {
    |run| == |events| + 1 && forall i {:trigger events[i]} :: 0 <= i < |events| ==>
      Moves(s, run[i], events[i], run[i + 1])
  }

  lemma RunMove(s: Setup, run: seq<World>, events: seq<Event>, k: nat)
    requires Runs(s, run, events) && k < |events| && Agreed(s, run[k])
    ensures Agreed(s, run[k + 1]) && Advances(s, run[k], run[k + 1], Replaced(events[k]))
  {
    MoveAgreed(s, run[k], events[k], run[k + 1]);
  }

  /** The devices whose stored circle some event replaces or drops. */
  function AllReplaced(events: seq<Event>): set<DeviceId> {
    if events == [] then {} else AllReplaced(events[..|events| - 1]) + Replaced(events[|events| - 1])
  }

  lemma {:induction false} RunAgreed(s: Setup, run: seq<World>, events: seq<Event>, i: nat, j: nat)
    requires Runs(s, run, events) && Agreed(s, run[0]) && i <= j < |run|
    ensures Agreed(s, run[i]) && Agreed(s, run[j]) && Advances(s, run[i], run[j], AllReplaced(events[i..j]))
    decreases j
  {
    hide Agreed, Advances, Moves, Replaced;
    AdvancesReflexive(s, run[i]);
    assert i == j ==> events[i..j] == [];
    if j == 0 {
    } else {
      RunAgreed(s, run, events, if i < j then i else j - 1, j - 1);
      RunMove(s, run, events, j - 1);
      if i < j {
        assert events[i..j][..j - 1 - i] == events[i..j - 1] && events[i..j][j - 1 - i] == events[j - 1];
        AdvancesTransitive(s, run[i], run[j - 1], run[j], AllReplaced(events[i..j - 1]), Replaced(events[j - 1]));
      }
    }
  }

  /** Agreement: over every run, two cores at the same epoch hold the same key, even at different times. */
  lemma SameEpochSameKey(s: Setup, run: seq<World>, events: seq<Event>, i: nat, j: nat, a: DeviceId, b: DeviceId)
    requires Runs(s, run, events) && Agreed(s, run[0]) && i <= j < |run|
    requires a in run[i].cores && b in run[j].cores && run[i].cores[a].keyEpoch == run[j].cores[b].keyEpoch
    ensures run[i].cores[a].groupKey == run[j].cores[b].groupKey
  {
    RunAgreed(s, run, events, i, j);
    assert InStep(s, run[i], a, Top(s, run[i])) && InStep(s, run[j], b, Top(s, run[j]));
  }

  /** As long as a device keeps its stored circle its epoch never decreases, and its roster is never undone. */
  lemma EpochsOnlyGrow(s: Setup, run: seq<World>, events: seq<Event>, i: nat, j: nat, d: DeviceId)
    requires Runs(s, run, events) && Agreed(s, run[0]) && i <= j < |run| && d in run[i].cores
    requires d !in AllReplaced(events[i..j]) || d == s.creator.device
    ensures d in run[j].cores && run[i].cores[d].keyEpoch <= run[j].cores[d].keyEpoch
    ensures Evolves(run[i].cores[d], run[j].cores[d])
  {
    RunAgreed(s, run, events, i, j);
  }

  /** Somewhere on the run the device holds a lower epoch than it held before, whether or not it lost its stored circle
      in between. */
  ghost predicate Lowered(run: seq<World>, i: nat, j: nat, d: DeviceId)
    requires i <= j < |run|
  {
    exists a, b :: i <= a <= b <= j && LowerAt(run, a, b, d)
  }

  ghost predicate LowerAt(run: seq<World>, a: nat, b: nat, d: DeviceId)
    requires a < |run| && b < |run|
  {
    d in run[a].cores && d in run[b].cores && run[b].cores[d].keyEpoch < run[a].cores[d].keyEpoch
  }

  /** The device stores a welcome of an epoch below the given one. */
  ghost predicate PairsBelow(w: World, e: Event, d: DeviceId, epoch: nat) {
    PairsWith(e, d) && e.session in w.offers && w.offers[e.session].circle.keyEpoch < epoch
  }

  /** At some step the device stores a welcome behind an epoch it held before. */
  ghost predicate PairsBehind(run: seq<World>, events: seq<Event>, i: nat, j: nat, d: DeviceId)
    requires i <= j < |run| && j <= |events|
  {
    exists a, k :: i <= a <= k < j && BehindAt(run, events, a, k, d)
  }

  ghost predicate BehindAt(run: seq<World>, events: seq<Event>, a: nat, k: nat, d: DeviceId)
    requires a < |run| && k < |run| && k < |events|
  {
    d in run[a].cores && PairsBelow(run[k], events[k], d, run[a].cores[d].keyEpoch)
  }

  lemma MoveDomain(s: Setup, w: World, e: Event, w': World, d: DeviceId)
    requires s.creator.device in w.cores && Moves(s, w, e, w')
    ensures PairsWith(e, d) ==>
      e.session in w.offers && d in w'.cores && w'.cores[d].keyEpoch == w.offers[e.session].circle.keyEpoch
    ensures !PairsWith(e, d) && d in w'.cores ==> d in w.cores && d !in Replaced(e)
  {
    hide Rekeyed, Next, KeysApplied, Genuine, Welcomes, Active, MemberKeyBound, Paired, Vouched;
  }

  /** One step: a device that does not pair was there before, with no higher epoch; one that does has the welcome's. */
  lemma StepEpoch(s: Setup, w: World, e: Event, w': World, d: DeviceId)
    requires Agreed(s, w) && Moves(s, w, e, w')
    ensures PairsWith(e, d) ==>
      e.session in w.offers && d in w'.cores && w'.cores[d].keyEpoch == w.offers[e.session].circle.keyEpoch
    ensures !PairsWith(e, d) && d in w'.cores ==> d in w.cores && w.cores[d].keyEpoch <= w'.cores[d].keyEpoch
  {
    MoveAgreed(s, w, e, w');
    MoveDomain(s, w, e, w', d);
    hide Agreed, Moves, PairsWith, Replaced, Evolves;
  }

  /** What lowers an epoch between two points of a run is a pairing in between. */
  lemma {:induction false} LowerNeedsPairing(
      s: Setup, run: seq<World>, events: seq<Event>, a: nat, b: nat, d: DeviceId)
    requires Runs(s, run, events) && Agreed(s, run[0]) && a <= b < |run| && LowerAt(run, a, b, d)
    ensures exists k :: a <= k < b && BehindAt(run, events, a, k, d)
    decreases b
  {
    hide Agreed, Moves;
    if a == b {
      assert false;
    } else {
      RunAgreed(s, run, events, 0, b - 1);
      StepEpoch(s, run[b - 1], events[b - 1], run[b], d);
      if PairsWith(events[b - 1], d) {
        assert BehindAt(run, events, a, b - 1, d);
      } else {
        LowerNeedsPairing(s, run, events, a, b - 1, d);
      }
    }
  }

  /** Over every run, a device comes to hold a lower epoch than it held before if and only if it stores a welcome that
      is behind an epoch it held before. */
  lemma LoweredIff(s: Setup, run: seq<World>, events: seq<Event>, i: nat, j: nat, d: DeviceId)
    requires Runs(s, run, events) && Agreed(s, run[0]) && i <= j < |run|
    ensures Lowered(run, i, j, d) <==> PairsBehind(run, events, i, j, d)
  {
    hide Agreed, Moves;
    if a, b :| i <= a <= b <= j && LowerAt(run, a, b, d) {
      LowerNeedsPairing(s, run, events, a, b, d);
    }
    if a, k :| i <= a <= k < j && BehindAt(run, events, a, k, d) {
      RunAgreed(s, run, events, 0, k);
      StepEpoch(s, run[k], events[k], run[k + 1], d);
      assert LowerAt(run, a, k + 1, d);
    }
  }

  /** The welcome was built by that move: it carries the epoch the member was at. */
  ghost predicate BuiltBy(w: World, e: Event, session: Text, o: Offer) {
    && e.Invite? && e.session == session && e.via in w.cores && e.via in w.ids && o.via == w.ids[e.via]
    && o.joiner == e.joiner && o.circle.keyEpoch == w.cores[e.via].keyEpoch
    && o.circle.groupKey == w.cores[e.via].groupKey
  }

  /** A welcome on its way was on its way all along or was built on the run, by a member at its epoch then. */
  lemma {:induction false} WelcomeBuilt(s: Setup, run: seq<World>, events: seq<Event>, i: nat, k: nat, session: Text)
    requires Runs(s, run, events) && i <= k < |run| && session in run[k].offers
    ensures (session in run[i].offers && run[i].offers[session] == run[k].offers[session])
      || exists b :: i <= b < k && BuiltBy(run[b], events[b], session, run[k].offers[session])
    decreases k
  {
    hide Moves;
    if i == k {
    } else {
      StepOffers(s, run[k - 1], events[k - 1], run[k], session);
      if session in run[k - 1].offers && run[k - 1].offers[session] == run[k].offers[session] {
        WelcomeBuilt(s, run, events, i, k - 1, session);
      }
    }
  }

  lemma StepOffers(s: Setup, w: World, e: Event, w': World, session: Text)
    requires Moves(s, w, e, w') && session in w'.offers
    ensures (session in w.offers && w.offers[session] == w'.offers[session])
      || BuiltBy(w, e, session, w'.offers[session])
  {
    hide Rekeyed, Next, KeysApplied, Genuine, Welcomes, Active, MemberKeyBound, Vouched;
  }

  /** Exclusion: once the creator has revoked a device, no update of a later epoch, whenever it was signed or
      extended, holds an entry for it. */
  lemma {:induction false} RemovedStaysOut(s: Setup, run: seq<World>, events: seq<Event>, i: nat, j: nat, d: DeviceId)
    requires Runs(s, run, events) && Agreed(s, run[0]) && i <= j < |run|
    requires s.creator.device in run[i].cores && d in run[i].cores[s.creator.device].revocations
    ensures Excludes(s, run[i], run[j], d)
    decreases j
  {
    if i == j {
      OutAtRemoval(s, run, events, i);
    } else {
      RemovedStaysOut(s, run, events, i, j - 1, d);
      StepKeepsOut(s, run, events, i, j - 1, d);
    }
  }

  lemma OutAtRemoval(s: Setup, run: seq<World>, events: seq<Event>, i: nat)
    requires Runs(s, run, events) && Agreed(s, run[0]) && i < |run|
    ensures s.creator.device in run[i].cores
    ensures forall u :: u in run[i].issued ==> u.epoch <= Top(s, run[i])
    ensures forall d :: d in run[i].cores ==> run[i].cores[d].keyEpoch <= Top(s, run[i])
  {
    RunAgreed(s, run, events, 0, i);
    var w := run[i];
    forall u | u in w.issued
      ensures u.epoch <= Top(s, w)
    {
      assert IssuedFine(s, w, u, Top(s, w));
    }
    forall d | d in w.cores
      ensures w.cores[d].keyEpoch <= Top(s, w)
    {
      assert InStep(s, w, d, Top(s, w));
    }
  }

  lemma StepKeepsOut(s: Setup, run: seq<World>, events: seq<Event>, i: nat, k: nat, d: DeviceId)
    requires Runs(s, run, events) && Agreed(s, run[0]) && i <= k < |events| && s.creator.device in run[i].cores
    requires d in run[i].cores[s.creator.device].revocations && Excludes(s, run[i], run[k], d)
    ensures KeepsOut(s, run[k], events[k], run[k + 1], d, Top(s, run[i])) && run[k].issued <= run[k + 1].issued
  {
    RunAgreed(s, run, events, i, k);
    assert Evolves(run[i].cores[s.creator.device], run[k].cores[s.creator.device]);
    MoveKeepsOut(s, run[k], events[k], run[k + 1], d, Top(s, run[i]));
    RunMove(s, run, events, k);
  }

  /** The removed device stores a welcome past the epoch of its removal. */
  ghost predicate PairsPast(w: World, e: Event, d: DeviceId, epoch: nat) {
    PairsWith(e, d) && e.session in w.offers && w.offers[e.session].circle.keyEpoch > epoch
  }

  ghost predicate StaysBelow(run: seq<World>, i: nat, j: nat, d: DeviceId, epoch: nat)
    requires i <= j < |run|
  {
    forall k :: i <= k <= j && d in run[k].cores ==> run[k].cores[d].keyEpoch <= epoch
  }

  lemma {:induction false} UnpairedStaysBelow(s: Setup, run: seq<World>, events: seq<Event>, i: nat, j: nat,
      d: DeviceId)
    requires Runs(s, run, events) && Agreed(s, run[0]) && i <= j < |run|
    requires s.creator.device in run[i].cores && d in run[i].cores[s.creator.device].revocations
    requires forall k :: i <= k < j ==> !PairsPast(run[k], events[k], d, Top(s, run[i]))
    ensures StaysBelow(run, i, j, d, Top(s, run[i]))
    decreases j
  {
    hide Agreed, Moves, Excludes;
    if i == j {
      OutAtRemoval(s, run, events, i);
    } else {
      UnpairedStaysBelow(s, run, events, i, j - 1, d);
      RemovedStaysOut(s, run, events, i, j - 1, d);
      StepKeepsOut(s, run, events, i, j - 1, d);
      assert !PairsPast(run[j - 1], events[j - 1], d, Top(s, run[i]));
    }
  }

  /** A removed device stays at or below the epoch of its removal if and only if it stores no welcome past that
      epoch. */
  lemma RemovedStaysBelowIff(s: Setup, run: seq<World>, events: seq<Event>, i: nat, j: nat, d: DeviceId)
    requires Runs(s, run, events) && Agreed(s, run[0]) && i <= j < |run|
    requires s.creator.device in run[i].cores && d in run[i].cores[s.creator.device].revocations
    ensures StaysBelow(run, i, j, d, Top(s, run[i])) <==>
      forall k :: i <= k < j ==> !PairsPast(run[k], events[k], d, Top(s, run[i]))
  {
    var epoch := Top(s, run[i]);
    if k :| i <= k < j && PairsPast(run[k], events[k], d, epoch) {
      RemovedStaysOut(s, run, events, i, k, d);
      StepKeepsOut(s, run, events, i, k, d);
      assert run[k + 1].cores[d].keyEpoch > epoch;
    } else {
      UnpairedStaysBelow(s, run, events, i, j, d);
    }
  }

  /** Nothing refuses a removed device whose own stored circle does not list it as active: the creator, if it was its
      inviter, pairs with it again and hands it the current key. */
  lemma RemovedPairsAgain(s: Setup, w: World, session: Text, joiner: Member, now: Text)
    requires Agreed(s, w) && MemberKeyBound(joiner.deviceId, joiner.publicKey) && joiner.deviceId != s.creator.device
    requires joiner.deviceId in w.cores ==> Active(w.cores[joiner.deviceId].members, joiner.deviceId).None?
    requires joiner.deviceId in w.cores[s.creator.device].revocations && session !in w.offers
    requires joiner.deviceId in w.cores[s.creator.device].admissions
    requires w.cores[s.creator.device].admissions[joiner.deviceId].invitedBy == s.creator.device
    requires VerifyAdmission(s.circleId, joiner, w.cores[s.creator.device].admissions[joiner.deviceId], s.creator.key)
    ensures var v := Invited(s, w, session, s.creator.device, joiner, now);
      && Moves(s, w, Invite(session, s.creator.device, joiner, now), v)
      && var w' := AfterJoin(v, session);
      && Moves(s, v, Join(session, joiner.deviceId), w')
      && w'.cores[joiner.deviceId].keyEpoch == Top(s, w)
      && w'.cores[joiner.deviceId].groupKey == w.cores[s.creator.device].groupKey
  {
    CreatorInvites(s, w, session, joiner, now);
    hide Agreed, Active, Vouched, Paired, Welcomes, VerifyAdmission, MemberKeyBound;
    var v := Invited(s, w, session, s.creator.device, joiner, now);
    assert joiner.deviceId in v.cores ==>
      joiner.deviceId in w.cores && v.cores[joiner.deviceId] == w.cores[joiner.deviceId];
    JoinMoves(s, v, session, joiner.deviceId);
    GiftKey(s, w, joiner, now);
  }

  lemma JoinMoves(s: Setup, w: World, session: Text, d: DeviceId)
    requires session in w.offers && w.offers[session].joiner.deviceId == d
    requires d in w.cores ==> Active(w.cores[d].members, d).None?
    requires Welcomes(w.offers[session].circle, w.offers[session].via, w.offers[session].joiner)
    ensures Moves(s, w, Join(session, d), AfterJoin(w, session))
  {
    hide Active, Welcomes;
  }

  lemma GiftKey(s: Setup, w: World, joiner: Member, now: Text)
    requires s.creator.device in w.cores && s.creator.device in w.ids
    ensures var g := Gift(Paired(s, w, s.creator.device, joiner, now));
      g.keyEpoch == Top(s, w) && g.groupKey == w.cores[s.creator.device].groupKey
  {
    hide SignAdmission;
  }

  /** The creator invites whom it never admitted, or admitted itself; the welcome it builds then opens. */
  lemma CreatorInvites(s: Setup, w: World, session: Text, joiner: Member, now: Text)
    requires Agreed(s, w) && MemberKeyBound(joiner.deviceId, joiner.publicKey) && session !in w.offers
    requires var c := w.cores[s.creator.device]; joiner.deviceId in c.admissions ==>
      && c.admissions[joiner.deviceId].invitedBy == s.creator.device
      && VerifyAdmission(s.circleId, joiner, c.admissions[joiner.deviceId], s.creator.key)
    ensures var d := s.creator.device;
      var v := Invited(s, w, session, d, joiner, now);
      && Moves(s, w, Invite(session, d, joiner, now), v)
      && v.offers[session] == Offer(s.creator, joiner, Gift(Paired(s, w, d, joiner, now)))
      && Welcomes(v.offers[session].circle, s.creator, joiner)
  {
    var d := s.creator.device;
    var c := w.cores[d];
    assert InStep(s, w, d, Top(s, w));
    var k := RecordFound(c.members, d);
    ActiveAt(c.members, k);
    var admitted := Paired(s, w, d, joiner, now);
    ActiveAppend(c.members, admitted.members[|c.members|..], d);
    assert admitted.members == c.members + admitted.members[|c.members|..];
  }
}
