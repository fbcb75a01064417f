/** Pairing: commitments, codes and welcomes (pairing.go), and the table of sessions (pairing_session.go). Digests
    stand for the parts they cover; the six shown digits are computed from a code's parts. */
module Pairing {
  import opened Wrappers
  import opened Identity
  import opened Circles
  import opened Roster

  type SessionId = string

  const SESSION_TTL := 120
  const PURGE_AFTER := 600
  const MAX_SKEW := 120
  const MAX_SESSIONS := 8

  /** What each side presents about itself, without its host name and address. */
  datatype Peer = Peer(device: DeviceId, publicKey: PublicKey, kex: KexKey)

  datatype Commit = NoCommit | Digest(sid: SessionId, joiner: Peer, nonce: Text) | Other(text: Text)

  datatype Code = Code(sid: SessionId, joiner: Peer, member: Peer, commit: Commit, nonceM: Text, nonceJ: Text)

  datatype Sealed = GarbledGift(text: Text) | Gift(to: KexKey, sid: SessionId, joiner: DeviceId, circle: Circle)

  datatype WelcomeSignature =
    | Unsigned(text: Text)
    | WelcomeSigned(signer: PublicKey, sid: SessionId, joiner: DeviceId, sealed: Sealed)

  datatype Welcome = Welcome(sealed: Sealed, signature: WelcomeSignature)

  function MemberOf(joiner: Peer): Member {
    Circles.Member(joiner.device, joiner.publicKey, EMPTY, false, EMPTY, EMPTY, EMPTY, EMPTY)
  }

  /** Admits the joiner and seals the circle to it; the old key and the key update stay out. */
  function BuildWelcome(sid: SessionId, c: Circle, self: DeviceId, key: PublicKey, joiner: Peer,
      now: Text): Result<(Welcome, Circle)> {
    if !MemberKeyBound(joiner.device, joiner.publicKey) then Err("joiner key does not match its device id")
    else
      var admitted := Admit(c, MemberOf(joiner), SignAdmission(key, c.id, MemberOf(joiner), self, now));
      if !joiner.kex.Kex? then Err("joiner's key-agreement key is not one")
      else
        var sealed := Gift(joiner.kex, sid, joiner.device, admitted.(previousKey := None, keyUpdate := None));
        Ok((Welcome(sealed, WelcomeSigned(key, sid, joiner.device, sealed)), admitted))
  }

  /** `safeId` says whether the circle's id is one a file may be named after. */
  function OpenWelcome(sid: SessionId, w: Welcome, member: Peer, self: DeviceId, key: PublicKey,
      safeId: bool): Result<Circle> {
    if !MemberKeyBound(member.device, member.publicKey) then Err("not bound")
    else if w.signature != WelcomeSigned(member.publicKey, sid, self, w.sealed) then Err("not signed by the member")
    else if w.sealed.GarbledGift? || w.sealed.to != Kex(key) || w.sealed.sid != sid || w.sealed.joiner != self
    then Err("not sealed to this device")
    else
      var c := w.sealed.circle;
      if |c.groupKey| != 32 || !safeId then Err("bad circle")
      else if Active(c.members, member.device).None? then Err("the member is not in the circle")
      else if self !in c.admissions || c.admissions[self].invitedBy != member.device
        || !VerifyAdmission(c.id, MemberOf(Peer(self, key, Kex(key))), c.admissions[self], member.publicKey)
           then Err("not admitted")
      else Ok(c)
  }

  /** The joiner had no admission yet, or one of this member's that still verifies. */
  predicate AdmittedBy(c: Circle, self: DeviceId, key: PublicKey, joiner: Peer) {
    joiner.device !in c.admissions ||
    (c.admissions[joiner.device].invitedBy == self
      && VerifyAdmission(c.id, MemberOf(joiner), c.admissions[joiner.device], key))
  }

  /** A welcome opens only in its own session, for the joiner it was made for, and as coming from the member that
      made it; and then it does, for a usable circle the member is active in. */
  lemma WelcomeOpensIff(
    sid: SessionId, c: Circle, self: DeviceId, key: PublicKey, joiner: Peer, now: Text,
    otherSid: SessionId, member: Peer, opener: DeviceId, openerKey: PublicKey, safeId: bool)
    requires BuildWelcome(sid, c, self, key, joiner, now).Ok?
    requires key.DeviceKey? && MemberKeyBound(self, key) && joiner.kex == Kex(joiner.publicKey)
    ensures var (w, admitted) := BuildWelcome(sid, c, self, key, joiner, now).value;
      var result := OpenWelcome(otherSid, w, member, opener, openerKey, safeId);
      && (result.Ok? <==>
          otherSid == sid && member.publicKey == key && member.device == self
          && opener == joiner.device && openerKey == joiner.publicKey
          && |c.groupKey| == 32 && safeId && Active(admitted.members, self).Some? && AdmittedBy(c, self, key, joiner))
      && (result.Ok? ==> result.value == admitted.(previousKey := None, keyUpdate := None))
  {
  }

  datatype State = Connecting | Comparing | Waiting | Joined | Rejected | Expired | Failed

  datatype Role = JoinerRole | MemberRole

  datatype Session = Session(
    role: Role, state: State, code: Option<Code>, peer: Peer, expiresAt: int, commit: Commit,
    nonceJ: Option<Text>, nonceM: Option<Text>, confirmed: bool, welcome: Option<Welcome>)

  predicate IsOpen(s: Session) {
    s.state in {Connecting, Comparing, Waiting}
  }

  type Table = map<SessionId, Session>

  function ExpiredSession(s: Session, now: int): Session {
    if IsOpen(s) && now > s.expiresAt then s.(state := Expired) else s
  }

  predicate Purged(s: Session, now: int) {
    !IsOpen(ExpiredSession(s, now)) && now > s.expiresAt + PURGE_AFTER
  }

  function ExpiredTable(t: Table, now: int): Table {
    map sid | sid in t && !Purged(t[sid], now) :: ExpiredSession(t[sid], now)
  }

  function OpenIds(t: Table): set<SessionId> {
    set sid | sid in t && IsOpen(t[sid])
  }

  datatype Op = Hello | Reveal | Poll | Cancel | OtherOp

  /** A nonce that is no base64 text is None. */
  datatype PairMessage = PairMessage(
    op: Op, sid: SessionId, joiner: Peer, commit: Commit, nonce: Option<Text>, timestamp: int)

  /** `error` is empty when there is none. */
  datatype PairReply = PairReply(
    error: string, state: Option<State>, sid: SessionId, member: Peer, nonce: Option<Text>, welcome: Option<Welcome>)

  /** Bound and fresh; that the joiner signed it is left to the messages the network carries. */
  predicate Fresh(m: PairMessage, now: int) {
    MemberKeyBound(m.joiner.device, m.joiner.publicKey) && now - m.timestamp <= MAX_SKEW
      && m.timestamp - now <= MAX_SKEW
  }

  function Refusal(self: Peer, m: PairMessage, error: string): PairReply {
    PairReply(error, None, m.sid, self, None, None)
  }

  predicate Strange(s: Session, m: PairMessage) {
    s.role != MemberRole || s.peer.device != m.joiner.device || s.peer.publicKey != m.joiner.publicKey
  }

  /** The session a hello opens. */
  function Opening(m: PairMessage, now: int, nonce: Text): Session {
    Session(MemberRole, Connecting, None, m.joiner, now + SESSION_TTL, m.commit, None, Some(nonce), false, None)
  }

  function HelloHandled(t: Table, self: Peer, m: PairMessage, now: int, nonce: Text): (Table, PairReply) {
    if m.sid in t || m.sid == "" || m.commit == NoCommit || |m.sid| > 64 then (t, Refusal(self, m, "bad pairing"))
    else if |OpenIds(t)| >= MAX_SESSIONS then (t, Refusal(self, m, "too many pairings"))
    else
      (t[m.sid := Opening(m, now, nonce)],
       PairReply("", Some(Connecting), m.sid, self, Some(nonce), None))
  }

  function RevealHandled(t: Table, self: Peer, m: PairMessage): (Table, PairReply) {
    if m.sid !in t || t[m.sid].state != Connecting then (t, Refusal(self, m, "unknown pairing"))
    else
      var s := t[m.sid];
      if m.nonce.None? || s.commit != Digest(m.sid, s.peer, m.nonce.value)
      then (t[m.sid := s.(state := Failed)], Refusal(self, m, "commitment mismatch"))
      else
        var nonceM := if s.nonceM.Some? then s.nonceM.value else EMPTY;
        var code := Code(m.sid, s.peer, self, s.commit, nonceM, m.nonce.value);
        (t[m.sid := s.(nonceJ := m.nonce, code := Some(code), state := Comparing)],
         PairReply("", Some(Comparing), m.sid, self, None, None))
  }

  function PollHandled(t: Table, self: Peer, m: PairMessage): (Table, PairReply) {
    if m.sid !in t then (t, Refusal(self, m, "unknown pairing"))
    else
      var s := t[m.sid];
      (if s.welcome.Some? then t[m.sid := s.(state := Joined)] else t,
       PairReply("", Some(s.state), m.sid, self, None, s.welcome))
  }

  function CancelHandled(t: Table, self: Peer, m: PairMessage): (Table, PairReply) {
    (if m.sid in t && IsOpen(t[m.sid]) then t[m.sid := t[m.sid].(state := Rejected)] else t,
     PairReply("", Some(Rejected), m.sid, self, None, None))
  }

  /** The member's answer to a message that passed the checks of its signature and time. */
  function Handled(before: Table, self: Peer, m: PairMessage, now: int, nonce: Text): (Table, PairReply) {
    var t := ExpiredTable(before, now);
    if m.sid in t && Strange(t[m.sid], m) then (t, Refusal(self, m, "unknown pairing"))
    else
      match m.op
      case Hello => HelloHandled(t, self, m, now, nonce)
      case Reveal => RevealHandled(t, self, m)
      case Poll => PollHandled(t, self, m)
      case Cancel => CancelHandled(t, self, m)
      case OtherOp => (t, Refusal(self, m, "bad pairing"))
  }

  /** The joiner's session once both halves of the exchange are answered. */
  function JoinerSession(sid: SessionId, self: Peer, member: Peer, nonceJ: Text, nonceM: Text,
      expiresAt: int): Session {
    var commit := Digest(sid, self, nonceJ);
    Session(JoinerRole, Comparing, Some(Code(sid, self, member, commit, nonceM, nonceJ)), member, expiresAt, commit,
            Some(nonceJ), Some(nonceM), false, None)
  }

  /** What a poll's answer does to the joiner's session; None is an answer that never came. */
  function PollReceived(s: Session, reply: Option<PairReply>): Session {
    if reply.None? then s
    else if reply.value.state == Some(Rejected) || reply.value.error != "" then s.(state := Rejected)
    else if reply.value.welcome.Some? then s.(welcome := reply.value.welcome)
    else s
  }

  predicate CanFinish(s: Session) {
    IsOpen(s) && s.confirmed && s.welcome.Some?
  }

  function Cancelled(s: Session): Session {
    if IsOpen(s) then s.(state := Rejected) else s
  }

  /** The person confirms what the session shows: the check, then, under a lock of its own, what it sets. */
  predicate CanConfirm(t: Table, sid: SessionId) {
    sid in t && t[sid].state == Comparing
  }

  function JoinerConfirmed(t: Table, sid: SessionId): Table {
    if sid in t then t[sid := t[sid].(confirmed := true, state := Waiting)] else t
  }

  function MemberConfirmed(t: Table, sid: SessionId, welcome: Welcome): Table {
    if sid in t then t[sid := t[sid].(confirmed := true, welcome := Some(welcome), state := Waiting)] else t
  }

  function CancelledIn(t: Table, sid: SessionId): Table {
    if sid in t then t[sid := Cancelled(t[sid])] else t
  }

  function PolledIn(t: Table, sid: SessionId, reply: Option<PairReply>): Table {
    if sid in t then t[sid := PollReceived(t[sid], reply)] else t
  }

  function FinishedIn(t: Table, sid: SessionId, ok: bool): Table {
    if sid in t then t[sid := t[sid].(state := if ok then Joined else Failed)] else t
  }

  /** The sessions of one core, assigned field by field. */
  class PairingTable {
    var byKey: Table

    constructor ()
      ensures byKey == map[]
    {
      byKey := map[];
    }

    method ExpirePairings(now: int)
      modifies this
      ensures byKey == ExpiredTable(old(byKey), now)
    {
      ghost var before := byKey;
      var left := byKey.Keys;
      while left != {}
        invariant left <= before.Keys && byKey.Keys <= before.Keys
        invariant forall sid :: sid in before.Keys ==>
          (sid in byKey <==> sid in left || !Purged(before[sid], now))
        invariant forall sid :: sid in byKey ==>
          byKey[sid] == if sid in left then before[sid] else ExpiredSession(before[sid], now)
        decreases |left|
      {
        var sid :| sid in left;
        left := left - {sid};
        var s := byKey[sid];
        if IsOpen(s) && now > s.expiresAt {
          s := s.(state := Expired);
          byKey := byKey[sid := s];
        }
        if !IsOpen(s) && now > s.expiresAt + PURGE_AFTER {
          byKey := byKey - {sid};
        }
      }
      assert byKey == ExpiredTable(before, now);
    }

    method OpenPairings() returns (n: nat)
      ensures n == |OpenIds(byKey)|
    {
      n := 0;
      var left := byKey.Keys;
      ghost var counted: set<SessionId> := {};
      while left != {}
        invariant left <= byKey.Keys && n == |counted|
        invariant counted == set sid | sid in byKey && sid !in left && IsOpen(byKey[sid])
        decreases |left|
      {
        var sid :| sid in left;
        left := left - {sid};
        if IsOpen(byKey[sid]) {
          n := n + 1;
          counted := counted + {sid};
        }
      }
      assert counted == OpenIds(byKey);
    }

    method MemberHandlePair(self: Peer, m: PairMessage, now: int, nonce: Text) returns (reply: PairReply)
      modifies this
      ensures (byKey, reply) == Handled(old(byKey), self, m, now, nonce)
    {
      ExpirePairings(now);
      if m.sid in byKey && Strange(byKey[m.sid], m) {
        return Refusal(self, m, "unknown pairing");
      }
      match m.op {
        case Hello =>
          if m.sid in byKey || m.sid == "" || m.commit == NoCommit || |m.sid| > 64 {
            return Refusal(self, m, "bad pairing");
          }
          var open := OpenPairings();
          if open >= MAX_SESSIONS {
            return Refusal(self, m, "too many pairings");
          }
          byKey := byKey[m.sid := Opening(m, now, nonce)];
          reply := PairReply("", Some(Connecting), m.sid, self, Some(nonce), None);
        case Reveal =>
          if m.sid !in byKey || byKey[m.sid].state != Connecting {
            return Refusal(self, m, "unknown pairing");
          }
          var s := byKey[m.sid];
          if m.nonce.None? || s.commit != Digest(m.sid, s.peer, m.nonce.value) {
            byKey := byKey[m.sid := s.(state := Failed)];
            return Refusal(self, m, "commitment mismatch");
          }
          var nonceM := if s.nonceM.Some? then s.nonceM.value else EMPTY;
          var code := Code(m.sid, s.peer, self, s.commit, nonceM, m.nonce.value);
          byKey := byKey[m.sid := s.(nonceJ := m.nonce, code := Some(code), state := Comparing)];
          reply := PairReply("", Some(Comparing), m.sid, self, None, None);
        case Poll =>
          if m.sid !in byKey {
            return Refusal(self, m, "unknown pairing");
          }
          var s := byKey[m.sid];
          reply := PairReply("", Some(s.state), m.sid, self, None, None);
          if s.welcome.Some? {
            reply := reply.(welcome := s.welcome);
            byKey := byKey[m.sid := s.(state := Joined)];
          }
        case Cancel =>
          if m.sid in byKey && IsOpen(byKey[m.sid]) {
            byKey := byKey[m.sid := byKey[m.sid].(state := Rejected)];
          }
          reply := PairReply("", Some(Rejected), m.sid, self, None, None);
        case OtherOp =>
          reply := Refusal(self, m, "bad pairing");
      }
    }

    /** Both checks of a confirmation: the session exists, and waits for one. */
    method CheckConfirm(sid: SessionId, now: int) returns (ok: bool)
      modifies this
      ensures byKey == ExpiredTable(old(byKey), now) && (ok <==> CanConfirm(byKey, sid))
    {
      ExpirePairings(now);
      ok := sid in byKey && byKey[sid].state == Comparing;
    }

    method SetJoinerConfirmed(sid: SessionId)
      modifies this
      ensures byKey == JoinerConfirmed(old(byKey), sid)
    {
      if sid in byKey {
        var s := byKey[sid];
        byKey := byKey[sid := s.(confirmed := true, state := Waiting)];
      }
    }

    method SetMemberConfirmed(sid: SessionId, welcome: Welcome)
      modifies this
      ensures byKey == MemberConfirmed(old(byKey), sid, welcome)
    {
      if sid in byKey {
        var s := byKey[sid];
        byKey := byKey[sid := s.(confirmed := true, welcome := Some(welcome), state := Waiting)];
      }
    }

    method CancelPairing(sid: SessionId, now: int) returns (found: bool)
      modifies this
      ensures byKey == CancelledIn(ExpiredTable(old(byKey), now), sid) && (found <==> sid in byKey)
    {
      ExpirePairings(now);
      found := sid in byKey;
      if found && IsOpen(byKey[sid]) {
        byKey := byKey[sid := byKey[sid].(state := Rejected)];
      }
    }

    method StartPairing(sid: SessionId, self: Peer, member: Peer, nonceJ: Text, nonceM: Text, expiresAt: int, now: int)
      modifies this
      ensures byKey == ExpiredTable(old(byKey), now)[sid := JoinerSession(sid, self, member, nonceJ, nonceM, expiresAt)]
    {
      ExpirePairings(now);
      byKey := byKey[sid := JoinerSession(sid, self, member, nonceJ, nonceM, expiresAt)];
    }

    method ReceivePoll(sid: SessionId, reply: Option<PairReply>)
      modifies this
      ensures byKey == PolledIn(old(byKey), sid, reply)
    {
      if sid !in byKey || reply.None? {
        return;
      }
      var s := byKey[sid];
      if reply.value.state == Some(Rejected) || reply.value.error != "" {
        s := s.(state := Rejected);
      } else if reply.value.welcome.Some? {
        s := s.(welcome := reply.value.welcome);
      }
      byKey := byKey[sid := s];
    }

    /** The joiner's finish reads under the lock, applies the welcome outside it, and sets the result under it. */
    method CheckFinish(sid: SessionId) returns (ready: bool)
      ensures ready <==> sid in byKey && CanFinish(byKey[sid])
    {
      ready := sid in byKey && IsOpen(byKey[sid]) && byKey[sid].confirmed && byKey[sid].welcome.Some?;
    }

    method SetFinished(sid: SessionId, ok: bool)
      modifies this
      ensures byKey == FinishedIn(old(byKey), sid, ok)
    {
      if sid in byKey {
        byKey := byKey[sid := byKey[sid].(state := if ok then Joined else Failed)];
      }
    }
  }

  /** A hello opens a session if and only if its id is usable and unknown and fewer than eight sessions are open;
      no other message, and no refused hello, adds a session. */
  lemma HelloOpensIff(before: Table, self: Peer, m: PairMessage, now: int, nonce: Text, sid: SessionId)
    ensures var t := ExpiredTable(before, now);
      var after := Handled(before, self, m, now, nonce).0;
      sid in after && sid !in t <==>
        && sid == m.sid && m.op == Hello && sid !in t && sid != "" && |sid| <= 64 && m.commit != NoCommit
        && |OpenIds(t)| < MAX_SESSIONS
  {
  }
}
