/** What a restart of the member does to a pairing: its table is gone, and a repeated hello opens the session anew. */
module PairingRestarts {
  import opened Wrappers
  import opened Identity
  import opened Pairing
  import opened PairingRuns

  function TheHello(sid: SessionId, joiner: Peer, nonceJ: Text, now: int): PairMessage {
    Plain(Hello, sid, joiner, now).(commit := Digest(sid, joiner, nonceJ))
  }

  function TheReveal(sid: SessionId, joiner: Peer, nonceJ: Text, now: int): PairMessage {
    Plain(Reveal, sid, joiner, now).(nonce := Some(nonceJ))
  }

  predicate Usable(sid: SessionId, joiner: Peer) {
    0 < |sid| <= 64 && MemberKeyBound(joiner.device, joiner.publicKey)
  }

  /** The hello is on its way and the member's table is empty: receiving it issues the nonce. */
  lemma HelloReceived(w: World, sid: SessionId, joiner: Peer, nonceJ: Text, nonce: Text)
    requires Usable(sid, joiner) && w.table == map[] && TheHello(sid, joiner, nonceJ, w.now) in w.requests
    ensures var m := TheHello(sid, joiner, nonceJ, w.now);
      var v := Next(w, Receive(m, nonce));
      && v == w.(table := map[sid := Opening(m, w.now, nonce)], replies := v.replies, facts := v.facts)
      && v.facts == w.facts.(issued := v.facts.issued)
      && v.replies == w.replies + {PairReply("", Some(Connecting), sid, w.facts.self, Some(nonce), None)}
  {
    assert ExpiredTable(w.table, w.now) == map[];
    assert OpenIds(map[]) == {};
  }

  /** The reveal meets the session that hello opened: the member computes its code with the nonce it issued last. */
  lemma RevealReceived(w: World, sid: SessionId, joiner: Peer, nonceJ: Text, nonce: Text)
    requires Usable(sid, joiner) && w.table == map[sid := Opening(TheHello(sid, joiner, nonceJ, w.now), w.now, nonce)]
    requires TheReveal(sid, joiner, nonceJ, w.now) in w.requests
    ensures var v := Next(w, Receive(TheReveal(sid, joiner, nonceJ, w.now), nonce));
      && sid in v.table && v.table[sid].code.Some? && v.table[sid].code.value.nonceM == nonce
      && v == w.(table := v.table, replies := v.replies)
      && PairReply("", Some(Comparing), sid, w.facts.self, None, None) in v.replies
  {
    assert ExpiredTable(w.table, w.now) == w.table;
  }

  lemma Before(w: World, e: Event, events: seq<Event>) returns (all: seq<Event>)
    ensures Run(w, all) == Run(Next(w, e), events)
  {
    all := [e] + events;
    assert all[1..] == events;
  }

  /** The member's answer to the hello reached the joiner, whose reveal is on its way. */
  predicate Greeted(w: World, sid: SessionId, joiner: Peer, nonceJ: Text, first: Text) {
    && sid in w.starting && w.starting[sid] == RevealSent(w.facts.self, first)
    && sid in w.facts.begun && w.facts.begun[sid].joiner == joiner && w.facts.begun[sid].nonceJ == nonceJ
    && TheHello(sid, joiner, nonceJ, w.now) in w.requests && TheReveal(sid, joiner, nonceJ, w.now) in w.requests
  }

  lemma Greets(w: World, sid: SessionId, joiner: Peer, nonceJ: Text, first: Text)
    requires Initial(w) && Usable(sid, joiner)
    ensures var greeted := PairReply("", Some(Connecting), sid, w.facts.self, Some(first), None);
      var w2 := Next(Next(w, Begin(sid, joiner, nonceJ, w.now)), Receive(TheHello(sid, joiner, nonceJ, w.now), first));
      Greeted(Next(w2, HelloAnswer(sid, greeted, None, w.now)), sid, joiner, nonceJ, first)
  {
    hide Received, Handled, ExpiredTable, Usable;
    HelloReceived(Next(w, Begin(sid, joiner, nonceJ, w.now)), sid, joiner, nonceJ, first);
  }

  /** From there on, with a restart and the hello once more. */
  lemma RestartFrom(w: World, sid: SessionId, joiner: Peer, nonceJ: Text, first: Text, second: Text)
    returns (events: seq<Event>)
    requires Greeted(w, sid, joiner, nonceJ, first) && Usable(sid, joiner)
    ensures var v := Run(w, events);
      && sid in v.table && sid in v.joiners && v.table[sid].code.Some? && v.joiners[sid].code.Some?
      && (first != second ==> v.table[sid].code != v.joiners[sid].code)
  {
    hide Received, Handled, ExpiredTable, Usable;
    var hello, shown := TheHello(sid, joiner, nonceJ, w.now), TheReveal(sid, joiner, nonceJ, w.now);
    var compared := PairReply("", Some(Comparing), sid, w.facts.self, None, None);
    var w1 := Next(w, MemberRestarts);
    var w2 := Next(w1, Receive(hello, second));
    HelloReceived(w1, sid, joiner, nonceJ, second);
    var w3 := Next(w2, Receive(shown, second));
    RevealReceived(w2, sid, joiner, nonceJ, second);
    events := Before(w3, RevealAnswer(sid, compared, w.now), []);
    events := Before(w2, Receive(shown, second), events);
    events := Before(w1, Receive(hello, second), events);
    events := Before(w, MemberRestarts, events);
  }

  /** The joiner got the first nonce before the member restarted, the member kept the second: the two people see
      different codes. */
  lemma RestartSplitsCodes(w: World, sid: SessionId, joiner: Peer, nonceJ: Text, first: Text, second: Text)
    returns (events: seq<Event>)
    requires Initial(w) && Usable(sid, joiner)
    ensures var v := Run(w, events);
      && sid in v.table && sid in v.joiners && v.table[sid].code.Some? && v.joiners[sid].code.Some?
      && (first != second ==> v.table[sid].code != v.joiners[sid].code)
  {
    hide Next, Run, Initial, Greeted, Usable;
    var hello := TheHello(sid, joiner, nonceJ, w.now);
    var greeted := PairReply("", Some(Connecting), sid, w.facts.self, Some(first), None);
    var w1 := Next(w, Begin(sid, joiner, nonceJ, w.now));
    var w2 := Next(w1, Receive(hello, first));
    Greets(w, sid, joiner, nonceJ, first);
    events := RestartFrom(Next(w2, HelloAnswer(sid, greeted, None, w.now)), sid, joiner, nonceJ, first, second);
    events := Before(w2, HelloAnswer(sid, greeted, None, w.now), events);
    events := Before(w1, Receive(hello, first), events);
    events := Before(w, Begin(sid, joiner, nonceJ, w.now), events);
  }

  /** The event opens the session: a fresh hello is received while the member's table has no such session. */
  predicate Opens(w: World, e: Event, sid: SessionId) {
    && e.Receive? && e.m.sid == sid && e.m in w.requests && Fresh(e.m, w.now)
    && sid !in ExpiredTable(w.table, w.now) && sid in Next(w, e).table
  }

  function Issued(w: World, e: Event, sid: SessionId): seq<Text> {
    if Opens(w, e, sid) then [e.nonce] else []
  }

  /** The nonces the member issued for a session along the run, one each time it was opened. */
  function Openings(w: World, events: seq<Event>, sid: SessionId): seq<Text>
    decreases |events|
  {
    if events == [] then []
    else Issued(w, events[0], sid) + Openings(Next(w, events[0]), events[1..], sid)
  }

  /** Whatever nonce of a session is about was issued for it, and the latest is the member's. */
  ghost predicate Heard(w: World, sid: SessionId, nonces: seq<Text>) {
    && (forall r :: r in w.replies && r.sid == sid && r.nonce.Some? ==> r.nonce.value in nonces)
    && (sid in w.starting && w.starting[sid].RevealSent? ==> w.starting[sid].nonceM in nonces)
    && (sid in w.joiners && w.joiners[sid].nonceM.Some? ==> w.joiners[sid].nonceM.value in nonces)
    && (sid in w.facts.issued ==> nonces != [] && w.facts.issued[sid].nonce == nonces[|nonces| - 1])
  }

  /** A nonce is answered exactly when a session is opened. */
  lemma HandledIssues(t: Table, self: Peer, m: PairMessage, now: int, nonce: Text)
    ensures var (table, reply) := Handled(t, self, m, now, nonce);
      && reply.sid == m.sid
      && (reply.nonce.Some? <==> m.sid in table && m.sid !in ExpiredTable(t, now))
      && (reply.nonce.Some? ==> reply.nonce.value == nonce)
  {
    hide ExpiredTable, OpenIds;
  }

  lemma ReceiveHeard(w: World, e: Event, sid: SessionId, nonces: seq<Text>)
    requires Heard(w, sid, nonces) && e.Receive?
    ensures Heard(Next(w, e), sid, nonces + Issued(w, e, sid))
  {
    hide Handled, ExpiredTable;
    var more := nonces + Issued(w, e, sid);
    assert forall x :: x in nonces ==> x in more;
    HandledIssues(w.table, w.facts.self, e.m, w.now, e.nonce);
    if Opens(w, e, sid) {
      assert e.nonce == more[|nonces|];
    } else {
      assert more == nonces;
    }
  }

  lemma OtherHeard(w: World, e: Event, sid: SessionId, nonces: seq<Text>)
    requires Heard(w, sid, nonces) && !e.Receive?
    ensures Heard(Next(w, e), sid, nonces + Issued(w, e, sid))
  {
    hide ExpiredTable, MemberConfirmed, Said, Received, Purged, CanFinish;
    assert nonces + [] == nonces;
  }

  lemma {:induction false} RunHeard(w: World, events: seq<Event>, sid: SessionId, nonces: seq<Text>)
    requires Heard(w, sid, nonces)
    ensures Heard(Run(w, events), sid, nonces + Openings(w, events, sid))
    decreases |events|
  {
    hide Heard, Next, Issued;
    if events == [] {
      assert nonces + [] == nonces;
    } else {
      var e := events[0];
      var added := Issued(w, e, sid);
      if e.Receive? {
        ReceiveHeard(w, e, sid, nonces);
      } else {
        OtherHeard(w, e, sid, nonces);
      }
      RunHeard(Next(w, e), events[1..], sid, nonces + added);
      assert nonces + (added + Openings(Next(w, e), events[1..], sid))
        == nonces + added + Openings(Next(w, e), events[1..], sid);
    }
  }

  /** Both sides hold a code for the session. */
  predicate BothShow(w: World, sid: SessionId) {
    sid in w.table && sid in w.joiners && w.table[sid].code.Some? && w.joiners[sid].code.Some?
  }

  /** Over every run the joiner holds a nonce of one of the openings, and the codes are the same if and only if that is
      the nonce of the last one. */
  lemma CodesAgreeIff(w: World, events: seq<Event>, sid: SessionId)
    requires Initial(w) && BothShow(Run(w, events), sid)
    ensures var v, nonces := Run(w, events), Openings(w, events, sid);
      && v.joiners[sid].nonceM.Some? && v.joiners[sid].nonceM.value in nonces
      && (v.table[sid].code == v.joiners[sid].code <==> v.joiners[sid].nonceM.value == nonces[|nonces| - 1])
  {
    var v, nonces := Run(w, events), Openings(w, events, sid);
    RunHeard(w, events, sid, []);
    assert [] + nonces == nonces;
    RunSound(w, events);
    CodesAgree(w, events, sid);
    assert MemberOk(v.facts, sid, v.table[sid]) && JoinerOk(v.facts, sid, v.joiners[sid]);
    hide Run, Openings, Sound;
  }

  /** With nonces that never repeat: if and only if the session was not opened again after the opening whose nonce the
      joiner took. */
  lemma NotReopenedIff(w: World, events: seq<Event>, sid: SessionId, j: nat)
    requires Initial(w) && BothShow(Run(w, events), sid)
    requires var nonces := Openings(w, events, sid);
      && (forall a, b :: 0 <= a < b < |nonces| ==> nonces[a] != nonces[b])
      && j < |nonces| && Run(w, events).joiners[sid].nonceM == Some(nonces[j])
    ensures var v := Run(w, events);
      v.table[sid].code == v.joiners[sid].code <==> j == |Openings(w, events, sid)| - 1
  {
    CodesAgreeIff(w, events, sid);
  }

  /** The member's person confirms the code shown for the session. */
  predicate Confirms(w: World, e: Event, sid: SessionId) {
    var t := ExpiredTable(w.table, w.now);
    e.MemberChecks? && e.sid == sid && CanConfirm(t, sid) && t[sid].code.Some?
  }

  function Shown(w: World, e: Event, sid: SessionId, nonces: seq<Text>, shown: Option<Text>): Option<Text> {
    if Confirms(w, e, sid) && nonces != [] then Some(nonces[|nonces| - 1]) else shown
  }

  /** The nonce of the last opening before the member's last confirmation. `nonces` are those of the openings so far,
      `shown` the last that was confirmed. */
  function LastShown(w: World, events: seq<Event>, sid: SessionId, nonces: seq<Text>, shown: Option<Text>):
      Option<Text>
    decreases |events|
  {
    if events == [] then shown
    else
      LastShown(Next(w, events[0]), events[1..], sid, nonces + Issued(w, events[0], sid),
                Shown(w, events[0], sid, nonces, shown))
  }

  /** The member confirmed the code under that nonce, the joiner the one under the nonce it holds. */
  ghost predicate Told(w: World, sid: SessionId, shown: Option<Text>) {
    && (sid in w.joiners || sid in w.facts.joinerSaid || sid in w.facts.memberSaid ==> sid in w.facts.begun)
    && (sid in w.joiners || sid in w.facts.joinerSaid ==> sid !in w.starting)
    && (sid in w.facts.memberSaid ==> shown.Some? && w.facts.memberSaid[sid] == CodeUnder(w.facts, sid, shown.value))
    && (sid in w.facts.joinerSaid && sid in w.joiners ==>
          && w.joiners[sid].nonceM.Some?
          && w.facts.joinerSaid[sid] == CodeUnder(w.facts, sid, w.joiners[sid].nonceM.value))
  }

  lemma CheckTold(w: World, e: Event, sid: SessionId, nonces: seq<Text>, shown: Option<Text>)
    requires Sound(w) && Told(w, sid, shown) && Heard(w, sid, nonces) && e.MemberChecks?
    ensures Told(Next(w, e), sid, Shown(w, e, sid, nonces, shown))
  {
    ExpireSound(w);
    var t := ExpiredTable(w.table, w.now);
    if Confirms(w, e, sid) {
      assert MemberOk(w.facts, sid, t[sid]);
    }
    hide Sound, ExpiredTable;
  }

  lemma JoinerTold(w: World, e: Event, sid: SessionId, shown: Option<Text>)
    requires Sound(w) && Told(w, sid, shown) && e.JoinerChecks?
    ensures Told(Next(w, e), sid, shown)
  {
    if sid in w.joiners {
      assert JoinerOk(w.facts, sid, w.joiners[sid]);
    }
    hide Sound;
  }

  lemma OtherTold(w: World, e: Event, sid: SessionId, shown: Option<Text>)
    requires Told(w, sid, shown) && !e.MemberChecks? && !e.JoinerChecks?
    ensures Told(Next(w, e), sid, shown)
  {
    hide ExpiredTable, MemberConfirmed, Said, Handled, Purged, CanFinish, IsOpen;
  }

  lemma {:induction false} RunTold(w: World, events: seq<Event>, sid: SessionId, nonces: seq<Text>,
      shown: Option<Text>)
    requires Sound(w) && Told(w, sid, shown) && Heard(w, sid, nonces)
    ensures Told(Run(w, events), sid, LastShown(w, events, sid, nonces, shown))
    decreases |events|
  {
    hide Sound, Told, Heard, Next, Issued, Shown;
    if events == [] {
    } else {
      var e := events[0];
      StepSound(w, e);
      if e.Receive? {
        ReceiveHeard(w, e, sid, nonces);
      } else {
        OtherHeard(w, e, sid, nonces);
      }
      NotShown(w, e, sid, nonces, shown);
      if e.MemberChecks? {
        CheckTold(w, e, sid, nonces, shown);
      } else if e.JoinerChecks? {
        JoinerTold(w, e, sid, shown);
      } else {
        OtherTold(w, e, sid, shown);
      }
      RunTold(Next(w, e), events[1..], sid, nonces + Issued(w, e, sid), Shown(w, e, sid, nonces, shown));
    }
  }

  lemma NotShown(w: World, e: Event, sid: SessionId, nonces: seq<Text>, shown: Option<Text>)
    ensures !e.MemberChecks? ==> Shown(w, e, sid, nonces, shown) == shown
  {
  }

  /** A joiner that joined did so after both people confirmed, and they confirmed the same code if and only if the nonce
      the joiner took is that of the last opening before the member's last confirmation. */
  lemma JoinedSameIff(w: World, events: seq<Event>, sid: SessionId)
    requires Initial(w) && sid in Run(w, events).joiners && Run(w, events).joiners[sid].state == Joined
    ensures var v, shown := Run(w, events), LastShown(w, events, sid, [], None);
      && sid in v.facts.memberSaid && sid in v.facts.joinerSaid && shown.Some?
      && (v.facts.memberSaid[sid] == v.facts.joinerSaid[sid] <==> v.joiners[sid].nonceM == shown)
  {
    var v := Run(w, events);
    JoinedNeedsBoth(w, events, sid);
    RunTold(w, events, sid, [], None);
    hide Run, LastShown, Initial;
  }
}
