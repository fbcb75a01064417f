/** What a member answers to each pairing message and what that does to its table, and what an answer does to the
    joiner's session. */
module PairingEffects {
  import opened Wrappers
  import opened Identity
  import opened Pairing

  /** Ten minutes past its deadline a session is dropped; one still open past its deadline is expired until then. */
  lemma ExpiryIs(t: Table, now: int, sid: SessionId)
    ensures sid in ExpiredTable(t, now) <==> sid in t && now <= t[sid].expiresAt + 600
    ensures sid in ExpiredTable(t, now) ==>
      ExpiredTable(t, now)[sid]
        == if t[sid].state in {Connecting, Comparing, Waiting} && now > t[sid].expiresAt then t[sid].(state := Expired)
           else t[sid]
  {
  }

  /** The session is the one this member keeps with the message's sender. */
  predicate OwnSession(t: Table, m: PairMessage) {
    && m.sid in t && t[m.sid].role == MemberRole
    && t[m.sid].peer.device == m.joiner.device && t[m.sid].peer.publicKey == m.joiner.publicKey
  }

  /** An answer that gives nothing away. */
  predicate Says(r: PairReply, error: string, state: Option<State>, m: PairMessage, self: Peer) {
    r == PairReply(error, state, m.sid, self, None, None)
  }

  /** A message about a session with somebody else changes nothing but expiry. */
  lemma StrangerRefused(t: Table, self: Peer, m: PairMessage, now: int, nonce: Text)
    requires m.sid in ExpiredTable(t, now) && !OwnSession(ExpiredTable(t, now), m)
    ensures var (after, reply) := Handled(t, self, m, now, nonce);
      after == ExpiredTable(t, now) && Says(reply, "unknown pairing", None, m, self)
  {
    hide ExpiredTable;
  }

  /** A hello with a usable new id opens a session while fewer than eight are open, and is answered with the nonce; any
      other is refused. */
  lemma HelloGives(t: Table, self: Peer, m: PairMessage, now: int, nonce: Text)
    requires m.op == Hello && (m.sid in ExpiredTable(t, now) ==> OwnSession(ExpiredTable(t, now), m))
    ensures var (after, reply) := Handled(t, self, m, now, nonce);
      var cur := ExpiredTable(t, now);
      var open := set sid | sid in cur && cur[sid].state in {Connecting, Comparing, Waiting};
      if m.sid !in cur && 0 < |m.sid| <= 64 && m.commit != NoCommit && |open| < 8 then
        && after == cur[m.sid := Session(MemberRole, Connecting, None, m.joiner, now + 120, m.commit, None, Some(nonce),
                                         false, None)]
        && reply == PairReply("", Some(Connecting), m.sid, self, Some(nonce), None)
      else
        && after == cur
        && (Says(reply, "bad pairing", None, m, self) || Says(reply, "too many pairings", None, m, self))
        && (|open| < 8 ==> Says(reply, "bad pairing", None, m, self))
  {
    hide ExpiredTable;
    var cur := ExpiredTable(t, now);
    assert (set sid | sid in cur && cur[sid].state in {Connecting, Comparing, Waiting}) == OpenIds(cur);
  }

  /** The nonce is the one the joiner committed to in its hello. */
  predicate KeepsCommitment(s: Session, m: PairMessage) {
    m.nonce.Some? && s.commit == Digest(m.sid, s.peer, m.nonce.value)
  }

  /** A reveal moves a connecting session to comparing, with the code of its parts, if and only if the nonce is the
      committed one; with any other it fails the session. In no other state does it do anything. */
  lemma RevealGives(t: Table, self: Peer, m: PairMessage, now: int, nonce: Text)
    requires m.op == Reveal && OwnSession(ExpiredTable(t, now), m)
    ensures var (after, reply) := Handled(t, self, m, now, nonce);
      var cur := ExpiredTable(t, now);
      var s := cur[m.sid];
      if s.state != Connecting then after == cur && Says(reply, "unknown pairing", None, m, self)
      else if KeepsCommitment(s, m) then
        var nonceM := if s.nonceM.Some? then s.nonceM.value else EMPTY;
        var code := Code(m.sid, s.peer, self, s.commit, nonceM, m.nonce.value);
        && after == cur[m.sid := s.(nonceJ := m.nonce, code := Some(code), state := Comparing)]
        && Says(reply, "", Some(Comparing), m, self)
      else after == cur[m.sid := s.(state := Failed)] && Says(reply, "commitment mismatch", None, m, self)
  {
    hide ExpiredTable;
  }

  /** A poll is answered with the state of the session and exactly the welcome it holds; the session is then joined if
      it holds one, and stays as it was otherwise. */
  lemma PollGives(t: Table, self: Peer, m: PairMessage, now: int, nonce: Text)
    requires m.op == Poll && OwnSession(ExpiredTable(t, now), m)
    ensures var (after, reply) := Handled(t, self, m, now, nonce);
      var cur := ExpiredTable(t, now);
      var s := cur[m.sid];
      && reply == PairReply("", Some(s.state), m.sid, self, None, s.welcome)
      && (s.welcome.Some? ==> after == cur[m.sid := s.(state := Joined)])
      && (s.welcome.None? ==> after == cur)
  {
    hide ExpiredTable;
  }

  /** A cancel rejects a session that is open, and leaves a closed one alone. */
  lemma CancelGives(t: Table, self: Peer, m: PairMessage, now: int, nonce: Text)
    requires m.op == Cancel && OwnSession(ExpiredTable(t, now), m)
    ensures var (after, reply) := Handled(t, self, m, now, nonce);
      var cur := ExpiredTable(t, now);
      var s := cur[m.sid];
      && Says(reply, "", Some(Rejected), m, self)
      && (s.state in {Connecting, Comparing, Waiting} ==> after == cur[m.sid := s.(state := Rejected)])
      && (s.state !in {Connecting, Comparing, Waiting} ==> after == cur)
  {
    hide ExpiredTable;
  }

  /** About a session it does not have, a member only answers a hello and a cancel without an error. */
  lemma UnknownGives(t: Table, self: Peer, m: PairMessage, now: int, nonce: Text)
    requires m.sid !in ExpiredTable(t, now) && m.op != Hello
    ensures var (after, reply) := Handled(t, self, m, now, nonce);
      && after == ExpiredTable(t, now)
      && (m.op == Cancel ==> Says(reply, "", Some(Rejected), m, self))
      && (m.op == Reveal || m.op == Poll ==> Says(reply, "unknown pairing", None, m, self))
      && (m.op == OtherOp ==> Says(reply, "bad pairing", None, m, self))
  {
    hide ExpiredTable;
  }

  /** An answer to a poll ends the joiner's session when it is an error or a rejection, and otherwise leaves it with the
      welcome it carries, if it carries one. */
  lemma AnswerGives(t: Table, sid: SessionId, reply: Option<PairReply>)
    requires sid in t
    ensures var s, after := t[sid], PolledIn(t, sid, reply);
      && after == t[sid := after[sid]]
      && (reply.None? ==> after[sid] == s)
      && (reply.Some? && (reply.value.error != "" || reply.value.state == Some(Rejected)) ==>
            after[sid] == s.(state := Rejected))
      && (reply.Some? && reply.value.error == "" && reply.value.state != Some(Rejected) ==>
            after[sid] == s.(welcome := if reply.value.welcome.Some? then reply.value.welcome else s.welcome))
  {
  }
}
