/** A pairing that works: a run from the start on which both people confirm and the joiner joins. */
module PairingJoins {
  import opened Wrappers
  import opened Identity
  import opened Pairing
  import opened PairingEffects
  import opened PairingRuns
  import opened PairingRestarts

  /** One session, as each side has it. */
  ghost predicate Sees(w: World, sid: SessionId, joiner: Peer, m: Session, j: Session) {
    && w.table == map[sid := m] && sid in w.joiners && w.joiners[sid] == j
    && sid in w.facts.begun && w.facts.begun[sid].joiner == joiner
    && m.role == MemberRole && m.peer == joiner && w.now <= m.expiresAt
  }

  lemma StillOpen(t: Table, sid: SessionId, now: int)
    requires t.Keys == {sid} && now <= t[sid].expiresAt
    ensures ExpiredTable(t, now) == t
  {
    ExpiryIs(t, now, sid);
    hide ExpiredTable;
    assert forall k :: k in ExpiredTable(t, now) <==> k == sid by {
      forall k {
        ExpiryIs(t, now, k);
      }
    }
  }

  /** The member's session is open and the joiner is about to reveal. */
  ghost predicate Revealing(w: World, sid: SessionId, joiner: Peer, nonceJ: Text, nonce: Text) {
    && Greeted(w, sid, joiner, nonceJ, nonce)
    && w.table == map[sid := Opening(TheHello(sid, joiner, nonceJ, w.now), w.now, nonce)]
    && sid !in w.facts.memberSaid && sid !in w.facts.joinerSaid && sid !in w.joiners
  }

  function GreetedReply(w: World, sid: SessionId, nonce: Text): PairReply {
    PairReply("", Some(Connecting), sid, w.facts.self, Some(nonce), None)
  }

  function ComparedReply(w: World, sid: SessionId): PairReply {
    PairReply("", Some(Comparing), sid, w.facts.self, None, None)
  }

  lemma HelloSide(w: World, sid: SessionId, joiner: Peer, nonceJ: Text, nonce: Text)
    requires Initial(w) && Usable(sid, joiner)
    ensures var w2 := Next(Next(w, Begin(sid, joiner, nonceJ, w.now)),
                           Receive(TheHello(sid, joiner, nonceJ, w.now), nonce));
      var w3 := Next(w2, HelloAnswer(sid, GreetedReply(w, sid, nonce), None, w.now));
      Revealing(w3, sid, joiner, nonceJ, nonce) && w3.now == w.now && w3.facts.self == w.facts.self
  {
    Greets(w, sid, joiner, nonceJ, nonce);
    HelloReceived(Next(w, Begin(sid, joiner, nonceJ, w.now)), sid, joiner, nonceJ, nonce);
    hide Received, Handled, ExpiredTable, Usable;
  }

  lemma RevealSide(w: World, sid: SessionId, joiner: Peer, nonceJ: Text, nonce: Text)
    requires Revealing(w, sid, joiner, nonceJ, nonce) && Usable(sid, joiner)
    ensures var v := Next(w, Receive(TheReveal(sid, joiner, nonceJ, w.now), nonce));
      var u := Next(v, RevealAnswer(sid, ComparedReply(w, sid), w.now + 120));
      && sid in u.table && sid in u.joiners && Sees(u, sid, joiner, u.table[sid], u.joiners[sid])
      && u.now == w.now && u.facts.self == w.facts.self
      && u.table[sid].state == Comparing == u.joiners[sid].state && u.table[sid].code.Some?
      && u.table[sid].code == u.joiners[sid].code && u.table[sid].expiresAt == w.now + 120
  {
    StillOpen(w.table, sid, w.now);
    RevealGives(w.table, w.facts.self, TheReveal(sid, joiner, nonceJ, w.now), w.now, nonce);
    hide ExpiredTable, Handled, Usable;
  }

  /** Hello, reveal and their answers, with nothing lost. */
  function Compared(w: World, sid: SessionId, joiner: Peer, nonceJ: Text, nonce: Text): World {
    var w1 := Next(w, Begin(sid, joiner, nonceJ, w.now));
    var w2 := Next(w1, Receive(TheHello(sid, joiner, nonceJ, w.now), nonce));
    var w3 := Next(w2, HelloAnswer(sid, GreetedReply(w, sid, nonce), None, w.now));
    var w4 := Next(w3, Receive(TheReveal(sid, joiner, nonceJ, w.now), nonce));
    Next(w4, RevealAnswer(sid, ComparedReply(w, sid), w.now + 120))
  }

  lemma ComparedRuns(w: World, sid: SessionId, joiner: Peer, nonceJ: Text, nonce: Text, events: seq<Event>)
    returns (all: seq<Event>)
    ensures Run(w, all) == Run(Compared(w, sid, joiner, nonceJ, nonce), events)
  {
    hide Run, Next;
    var hello, shown := TheHello(sid, joiner, nonceJ, w.now), TheReveal(sid, joiner, nonceJ, w.now);
    var w1 := Next(w, Begin(sid, joiner, nonceJ, w.now));
    var w2 := Next(w1, Receive(hello, nonce));
    var w3 := Next(w2, HelloAnswer(sid, GreetedReply(w, sid, nonce), None, w.now));
    var w4 := Next(w3, Receive(shown, nonce));
    all := Before(w4, RevealAnswer(sid, ComparedReply(w, sid), w.now + 120), events);
    all := Before(w3, Receive(shown, nonce), all);
    all := Before(w2, HelloAnswer(sid, GreetedReply(w, sid, nonce), None, w.now), all);
    all := Before(w1, Receive(hello, nonce), all);
    all := Before(w, Begin(sid, joiner, nonceJ, w.now), all);
  }

  /** Both see the code: the member after the reveal, the joiner after its answer. */
  lemma BothCompare(w: World, sid: SessionId, joiner: Peer, nonceJ: Text, nonce: Text)
    returns (m: Session, j: Session)
    requires Initial(w) && Usable(sid, joiner)
    ensures var v := Compared(w, sid, joiner, nonceJ, nonce);
      Sees(v, sid, joiner, m, j) && v.now == w.now && v.facts.self == w.facts.self
    ensures m.state == Comparing == j.state && m.code.Some? && m.code == j.code && m.expiresAt == w.now + 120
  {
    hide Next, Received, Initial, Usable;
    var w1 := Next(w, Begin(sid, joiner, nonceJ, w.now));
    var w2 := Next(w1, Receive(TheHello(sid, joiner, nonceJ, w.now), nonce));
    var w3 := Next(w2, HelloAnswer(sid, GreetedReply(w, sid, nonce), None, w.now));
    HelloSide(w, sid, joiner, nonceJ, nonce);
    RevealSide(w3, sid, joiner, nonceJ, nonce);
    var v := Compared(w, sid, joiner, nonceJ, nonce);
    m, j := v.table[sid], v.joiners[sid];
  }

  /** The joiner's person confirms. */
  lemma JoinerConfirms(w: World, sid: SessionId, joiner: Peer, m: Session, j: Session)
    requires Sees(w, sid, joiner, m, j) && j.state == Comparing && j.code.Some?
    ensures var v := Next(Next(w, JoinerChecks(sid)), JoinerSets(sid));
      && Sees(v, sid, joiner, m, j.(confirmed := true, state := Waiting)) && v.now == w.now
      && sid in v.facts.joinerSaid && v.facts == w.facts.(joinerSaid := v.facts.joinerSaid)
      && v.facts.joinerSaid[sid] == j.code.value
  {
  }

  /** The member's person confirms, and the welcome is built. */
  lemma MemberConfirms(w: World, sid: SessionId, joiner: Peer, m: Session, j: Session, welcome: Welcome)
    requires Sees(w, sid, joiner, m, j) && m.state == Comparing && m.code.Some?
    ensures var u := Next(Next(w, MemberChecks(sid)), MemberSets(sid, welcome));
      && Sees(u, sid, joiner, m.(confirmed := true, welcome := Some(welcome), state := Waiting), j) && u.now == w.now
      && sid in u.facts.memberSaid && u.facts == w.facts.(memberSaid := u.facts.memberSaid)
      && u.facts.memberSaid[sid] == m.code.value
  {
    StillOpen(w.table, sid, w.now);
    hide ExpiredTable;
  }

  /** The joiner asks and gets the welcome. */
  lemma Asks(w: World, sid: SessionId, joiner: Peer, m: Session, j: Session, welcome: Welcome)
    requires Sees(w, sid, joiner, m, j) && Usable(sid, joiner) && m.state == Waiting && m.welcome == Some(welcome)
    ensures var poll := Plain(Poll, sid, joiner, w.now);
      var reply := PairReply("", Some(Waiting), sid, w.facts.self, None, Some(welcome));
      var v := Next(Next(Next(w, AskPoll(sid, w.now)), Receive(poll, EMPTY)), PollAnswer(sid, Some(reply)));
      Sees(v, sid, joiner, m.(state := Joined), j.(welcome := Some(welcome))) && v.facts == w.facts
  {
    var poll := Plain(Poll, sid, joiner, w.now);
    var reply := PairReply("", Some(Waiting), sid, w.facts.self, None, Some(welcome));
    var w1 := Next(w, AskPoll(sid, w.now));
    MemberAnswers(w1, sid, joiner, m, j, welcome);
    hide Received, Plain;
  }

  lemma MemberAnswers(w: World, sid: SessionId, joiner: Peer, m: Session, j: Session, welcome: Welcome)
    requires Sees(w, sid, joiner, m, j) && Usable(sid, joiner) && m.state == Waiting && m.welcome == Some(welcome)
    requires Plain(Poll, sid, joiner, w.now) in w.requests
    ensures var v := Received(w, Plain(Poll, sid, joiner, w.now), EMPTY);
      && Sees(v, sid, joiner, m.(state := Joined), j) && v.facts == w.facts
      && PairReply("", Some(Waiting), sid, w.facts.self, None, Some(welcome)) in v.replies
  {
    StillOpen(w.table, sid, w.now);
    PollGives(w.table, w.facts.self, Plain(Poll, sid, joiner, w.now), w.now, EMPTY);
    hide ExpiredTable, Handled;
  }

  /** With its person's word and the welcome, the joiner joins. */
  lemma Finishes(w: World, sid: SessionId, joiner: Peer, m: Session, j: Session)
    requires Sees(w, sid, joiner, m, j) && j.confirmed && j.welcome.Some? && j.state == Waiting
    ensures var u := Next(Next(w, FinishChecks(sid)), FinishSets(sid, true));
      Sees(u, sid, joiner, m, j.(state := Joined)) && u.facts == w.facts
  {
  }

  /** The rest of the run. */
  lemma JoinRuns(w: World, sid: SessionId, joiner: Peer, m: Session, j: Session, welcome: Welcome)
    returns (events: seq<Event>)
    requires Sees(w, sid, joiner, m, j) && Usable(sid, joiner)
    requires m.state == Comparing == j.state && m.code.Some? && m.code == j.code
    ensures var v := Run(w, events);
      && sid in v.joiners && v.joiners[sid].state == Joined && v.joiners[sid].welcome == Some(welcome)
      && sid in v.table && v.table[sid].state == Joined
      && sid in v.facts.memberSaid && sid in v.facts.joinerSaid && v.facts.memberSaid[sid] == v.facts.joinerSaid[sid]
  {
    hide Run, Next, Sees, Usable;
    var j1 := j.(confirmed := true, state := Waiting);
    var m1 := m.(confirmed := true, welcome := Some(welcome), state := Waiting);
    JoinerConfirms(w, sid, joiner, m, j);
    var w1 := Next(w, JoinerChecks(sid));
    var w2 := Next(w1, JoinerSets(sid));
    MemberConfirms(w2, sid, joiner, m, j1, welcome);
    var w3 := Next(w2, MemberChecks(sid));
    var w4 := Next(w3, MemberSets(sid, welcome));
    var poll := Plain(Poll, sid, joiner, w4.now);
    var reply := PairReply("", Some(Waiting), sid, w4.facts.self, None, Some(welcome));
    Asks(w4, sid, joiner, m1, j1, welcome);
    var w5 := Next(w4, AskPoll(sid, w4.now));
    var w6 := Next(w5, Receive(poll, EMPTY));
    var w7 := Next(w6, PollAnswer(sid, Some(reply)));
    var w8 := Next(w7, FinishChecks(sid));
    Finishes(w7, sid, joiner, m1.(state := Joined), j1.(welcome := Some(welcome)));
    var w9 := Next(w8, FinishSets(sid, true));
    Ends(w9);
    SeesEnd(w9, sid, joiner, m1.(state := Joined), j1.(welcome := Some(welcome), state := Joined));
    events := Before(w8, FinishSets(sid, true), []);
    events := Before(w7, FinishChecks(sid), events);
    events := Before(w6, PollAnswer(sid, Some(reply)), events);
    events := Before(w5, Receive(poll, EMPTY), events);
    events := Before(w4, AskPoll(sid, w4.now), events);
    events := Before(w3, MemberSets(sid, welcome), events);
    events := Before(w2, MemberChecks(sid), events);
    events := Before(w1, JoinerSets(sid), events);
    events := Before(w, JoinerChecks(sid), events);
  }

  lemma SeesEnd(w: World, sid: SessionId, joiner: Peer, m: Session, j: Session)
    requires Sees(w, sid, joiner, m, j)
    ensures sid in w.table && w.table[sid] == m && sid in w.joiners && w.joiners[sid] == j
  {
  }

  lemma Ends(w: World)
    ensures Run(w, []) == w
  {
  }

  /** From the start, with nothing lost: both people confirm one code, the joiner gets exactly the member's welcome, and
      both sessions end joined. */
  lemma PairingCompletes(w: World, sid: SessionId, joiner: Peer, nonceJ: Text, nonce: Text, welcome: Welcome)
    returns (events: seq<Event>)
    requires Initial(w) && Usable(sid, joiner)
    ensures var v := Run(w, events);
      && sid in v.joiners && v.joiners[sid].state == Joined && v.joiners[sid].welcome == Some(welcome)
      && sid in v.table && v.table[sid].state == Joined
      && sid in v.facts.memberSaid && sid in v.facts.joinerSaid && v.facts.memberSaid[sid] == v.facts.joinerSaid[sid]
  {
    hide *;
    var m, j := BothCompare(w, sid, joiner, nonceJ, nonce);
    var rest := JoinRuns(Compared(w, sid, joiner, nonceJ, nonce), sid, joiner, m, j, welcome);
    events := ComparedRuns(w, sid, joiner, nonceJ, nonce, rest);
  }
}
