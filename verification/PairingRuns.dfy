/** Pairing over a network that loses, repeats and delays messages: one member core, any number of joiners. Sessions
    live in memory, so either side may also restart and lose them. */
module PairingRuns {
  import opened Wrappers
  import opened Identity
  import opened Pairing

  /** A joiner's attempt, the nonce the member issued for it, and how far the joiner's half has come. */
  datatype Start = Start(joiner: Peer, nonceJ: Text, helloAt: int)
  datatype Issue = Issue(nonce: Text, at: int)
  datatype Phase = HelloSent | RevealSent(member: Peer, nonceM: Text)

  /** What is on record: the member's identity, the attempts, the latest nonce issued for each, the attempts begun
      before a restart of the member, and the codes the two people confirmed. */
  datatype Facts = Facts(
    self: Peer, begun: map<SessionId, Start>, issued: map<SessionId, Issue>, restarted: set<SessionId>,
    memberSaid: map<SessionId, Code>, joinerSaid: map<SessionId, Code>)

  /** Everything ever sent stays in the network. `finishing` are the joins that may still be completed. */
  datatype World = World(
    now: int, facts: Facts, table: Table, starting: map<SessionId, Phase>, joiners: Table,
    requests: set<PairMessage>, replies: set<PairReply>, finishing: set<SessionId>)

  datatype Event =
    | Tick(d: nat)
    | Begin(sid: SessionId, joiner: Peer, nonceJ: Text, stamp: int)
    | Receive(m: PairMessage, nonce: Text)
    | HelloAnswer(sid: SessionId, r: PairReply, expected: Option<DeviceId>, stamp: int)
    | RevealAnswer(sid: SessionId, r: PairReply, expiresAt: int)
    | GiveUp(sid: SessionId)
    | AskPoll(sid: SessionId, stamp: int)
    | PollAnswer(sid: SessionId, answer: Option<PairReply>)
    | JoinerChecks(sid: SessionId)
    | JoinerSets(sid: SessionId)
    | FinishChecks(sid: SessionId)
    | FinishSets(sid: SessionId, ok: bool)
    | JoinerCancels(sid: SessionId, stamp: int)
    | JoinerExpires(sid: SessionId, now: int)
    | MemberChecks(sid: SessionId)
    | MemberSets(sid: SessionId, welcome: Welcome)
    | MemberCancels(sid: SessionId)
    | MemberExpires
    | MemberRestarts
    | JoinerStops(sid: SessionId)

  function Plain(op: Op, sid: SessionId, joiner: Peer, stamp: int): PairMessage {
    PairMessage(op, sid, joiner, NoCommit, None, stamp)
  }

  predicate Answers(w: World, sid: SessionId, r: PairReply) {
    r in w.replies && r.sid == sid
  }

  /** A session id is used by one attempt. */
  function Began(w: World, sid: SessionId, joiner: Peer, nonceJ: Text, stamp: int): World {
    if sid in w.facts.begun then w
    else
      var hello := Plain(Hello, sid, joiner, stamp).(commit := Digest(sid, joiner, nonceJ));
      w.(facts := w.facts.(begun := w.facts.begun[sid := Start(joiner, nonceJ, stamp)]),
         starting := w.starting[sid := HelloSent], requests := w.requests + {hello})
  }

  /** The member receives any request ever sent, once more. */
  function Received(w: World, m: PairMessage, nonce: Text): World {
    if m !in w.requests || !Fresh(m, w.now) then w
    else
      var (table, reply) := Handled(w.table, w.facts.self, m, w.now, nonce);
      var opens := m.sid in table && m.sid !in ExpiredTable(w.table, w.now);
      w.(table := table, replies := w.replies + {reply},
         facts := if opens then w.facts.(issued := w.facts.issued[m.sid := Issue(nonce, w.now)]) else w.facts)
  }

  function HelloAnswered(w: World, sid: SessionId, r: PairReply, expected: Option<DeviceId>, stamp: int): World {
    if sid !in w.starting || sid !in w.facts.begun || !w.starting[sid].HelloSent? || !Answers(w, sid, r) then w
    else if r.error != "" || (expected.Some? && r.member.device != expected.value) || r.nonce.None?
    then w.(starting := w.starting - {sid})
    else
      var start := w.facts.begun[sid];
      w.(starting := w.starting[sid := RevealSent(r.member, r.nonce.value)],
         requests := w.requests + {Plain(Reveal, sid, start.joiner, stamp).(nonce := Some(start.nonceJ))})
  }

  function RevealAnswered(w: World, sid: SessionId, r: PairReply, expiresAt: int): World {
    if sid !in w.starting || sid !in w.facts.begun || !w.starting[sid].RevealSent? || !Answers(w, sid, r) then w
    else if r.error != "" then w.(starting := w.starting - {sid})
    else
      var start, phase := w.facts.begun[sid], w.starting[sid];
      w.(starting := w.starting - {sid},
         joiners := w.joiners[sid :=
           JoinerSession(sid, start.joiner, phase.member, start.nonceJ, phase.nonceM, expiresAt)])
  }

  function Asked(w: World, op: Op, sid: SessionId, stamp: int): World {
    if sid !in w.joiners || sid !in w.facts.begun then w
    else w.(requests := w.requests + {Plain(op, sid, w.facts.begun[sid].joiner, stamp)})
  }

  function JoinerExpired(t: Table, sid: SessionId, now: int): Table {
    if sid !in t then t else if Purged(t[sid], now) then t - {sid} else t[sid := ExpiredSession(t[sid], now)]
  }

  function Said(t: Table, sid: SessionId, said: map<SessionId, Code>): map<SessionId, Code> {
    if CanConfirm(t, sid) && t[sid].code.Some? then said[sid := t[sid].code.value] else said
  }

  function Next(w: World, e: Event): World {
    match e
    case Tick(d) => w.(now := w.now + d)
    case Begin(sid, joiner, nonceJ, stamp) => Began(w, sid, joiner, nonceJ, stamp)
    case Receive(m, nonce) => Received(w, m, nonce)
    case HelloAnswer(sid, r, expected, stamp) => HelloAnswered(w, sid, r, expected, stamp)
    case RevealAnswer(sid, r, expiresAt) => RevealAnswered(w, sid, r, expiresAt)
    case GiveUp(sid) => w.(starting := w.starting - {sid})
    case AskPoll(sid, stamp) => Asked(w, Poll, sid, stamp)
    case PollAnswer(sid, r) =>
      if r.Some? && !Answers(w, sid, r.value) then w else w.(joiners := PolledIn(w.joiners, sid, r))
    case JoinerChecks(sid) => w.(facts := w.facts.(joinerSaid := Said(w.joiners, sid, w.facts.joinerSaid)))
    case JoinerSets(sid) => if sid in w.facts.joinerSaid then w.(joiners := JoinerConfirmed(w.joiners, sid)) else w
    case FinishChecks(sid) =>
      if sid in w.joiners && CanFinish(w.joiners[sid]) then w.(finishing := w.finishing + {sid}) else w
    case FinishSets(sid, ok) => if sid in w.finishing then w.(joiners := FinishedIn(w.joiners, sid, ok)) else w
    case JoinerCancels(sid, stamp) => Asked(w.(joiners := CancelledIn(w.joiners, sid)), Cancel, sid, stamp)
    case JoinerExpires(sid, now) => w.(joiners := JoinerExpired(w.joiners, sid, now))
    case MemberChecks(sid) =>
      var t := ExpiredTable(w.table, w.now);
      w.(table := t, facts := w.facts.(memberSaid := Said(t, sid, w.facts.memberSaid)))
    case MemberSets(sid, welcome) =>
      if sid in w.facts.memberSaid then w.(table := MemberConfirmed(w.table, sid, welcome)) else w
    case MemberCancels(sid) => w.(table := CancelledIn(ExpiredTable(w.table, w.now), sid))
    case MemberExpires => w.(table := ExpiredTable(w.table, w.now))
    case MemberRestarts => w.(table := map[], facts := w.facts.(restarted := w.facts.begun.Keys))
    case JoinerStops(sid) => w.(starting := w.starting - {sid}, joiners := w.joiners - {sid})
  }

  function Run(w: World, events: seq<Event>): World
    decreases |events|
  {
    if events == [] then w else Run(Next(w, events[0]), events[1..])
  }

  /** Before anything was sent. */
  predicate Initial(w: World) {
    && w.facts == Facts(w.facts.self, map[], map[], {}, map[], map[]) && w.table == map[] && w.starting == map[]
    && w.joiners == map[] && w.requests == {} && w.replies == {} && w.finishing == {}
  }

  /** The code of an attempt under a member's nonce. */
  function CodeUnder(f: Facts, sid: SessionId, nonceM: Text): Code
    requires sid in f.begun
  {
    var s := f.begun[sid];
    Code(sid, s.joiner, f.self, Digest(sid, s.joiner, s.nonceJ), nonceM, s.nonceJ)
  }

  /** The code under the latest nonce issued. */
  function TheCode(f: Facts, sid: SessionId): Code
    requires sid in f.begun && sid in f.issued
  {
    CodeUnder(f, sid, f.issued[sid].nonce)
  }

  ghost predicate RequestOk(f: Facts, m: PairMessage) {
    && m.sid in f.begun && m.joiner == f.begun[m.sid].joiner
    && (m.op == Hello ==>
          m.commit == Digest(m.sid, m.joiner, f.begun[m.sid].nonceJ) && m.timestamp == f.begun[m.sid].helloAt)
    && (m.op == Reveal ==> m.nonce == Some(f.begun[m.sid].nonceJ))
  }

  ghost predicate ReplyOk(f: Facts, r: PairReply) {
    && r.member == f.self
    && (r.nonce.Some? ==> r.sid in f.issued && (r.sid in f.restarted || r.nonce.value == f.issued[r.sid].nonce))
    && (r.welcome.Some? ==> r.sid in f.memberSaid)
  }

  ghost predicate MemberOk(f: Facts, sid: SessionId, s: Session) {
    && sid in f.begun && sid in f.issued
    && s.peer == f.begun[sid].joiner && s.commit == Digest(sid, s.peer, f.begun[sid].nonceJ)
    && s.nonceM == Some(f.issued[sid].nonce) && s.expiresAt == f.issued[sid].at + SESSION_TTL
    && (s.code.Some? ==> s.code.value == TheCode(f, sid))
    && (s.welcome.Some? ==> sid in f.memberSaid)
  }

  /** Without a restart a nonce was issued once, while the hello was fresh; afterwards the session is in the table, or
      so old that the hello is not. */
  ghost predicate IssueOk(f: Facts, now: int, table: Table, sid: SessionId) {
    && sid in f.issued && sid in f.begun
    && (sid in f.restarted ||
        (f.issued[sid].at <= now && f.begun[sid].helloAt <= f.issued[sid].at + MAX_SKEW
         && (sid in table || now > f.issued[sid].at + SESSION_TTL + PURGE_AFTER)))
  }

  ghost predicate JoinerOk(f: Facts, sid: SessionId, s: Session) {
    && sid in f.begun && sid in f.issued && s.nonceM.Some? && s.code == Some(CodeUnder(f, sid, s.nonceM.value))
    && (sid in f.restarted || s.nonceM.value == f.issued[sid].nonce)
    && (s.confirmed ==> sid in f.joinerSaid)
    && (s.welcome.Some? ==> sid in f.memberSaid)
    && (s.state == Joined ==> sid in f.joinerSaid && sid in f.memberSaid)
  }

  ghost predicate StartOk(f: Facts, sid: SessionId, p: Phase) {
    && sid in f.begun
    && (p.RevealSent? ==>
          sid in f.issued && p.member == f.self && (sid in f.restarted || p.nonceM == f.issued[sid].nonce))
  }

  ghost predicate SaidOk(f: Facts, sid: SessionId, code: Code) {
    sid in f.begun && sid in f.issued && (sid in f.restarted || code == TheCode(f, sid))
  }

  ghost predicate RequestsOk(f: Facts, requests: set<PairMessage>) {
    forall m :: m in requests ==> RequestOk(f, m)
  }

  ghost predicate RepliesOk(f: Facts, replies: set<PairReply>) {
    forall r :: r in replies ==> ReplyOk(f, r)
  }

  ghost predicate TableOk(f: Facts, table: Table) {
    forall sid :: sid in table ==> MemberOk(f, sid, table[sid])
  }

  ghost predicate IssuesOk(f: Facts, now: int, table: Table) {
    forall sid :: sid in f.issued ==> IssueOk(f, now, table, sid)
  }

  ghost predicate JoinersOk(f: Facts, joiners: Table) {
    forall sid :: sid in joiners ==> JoinerOk(f, sid, joiners[sid])
  }

  ghost predicate StartsOk(f: Facts, starting: map<SessionId, Phase>) {
    forall sid :: sid in starting ==> StartOk(f, sid, starting[sid])
  }

  ghost predicate SaidsOk(f: Facts, said: map<SessionId, Code>) {
    forall sid :: sid in said ==> SaidOk(f, sid, said[sid])
  }

  ghost predicate FinishesOk(f: Facts, finishing: set<SessionId>) {
    forall sid :: sid in finishing ==> sid in f.joinerSaid && sid in f.memberSaid
  }

  ghost predicate Sound(w: World) {
    && RequestsOk(w.facts, w.requests) && RepliesOk(w.facts, w.replies)
    && TableOk(w.facts, w.table) && IssuesOk(w.facts, w.now, w.table)
    && JoinersOk(w.facts, w.joiners) && StartsOk(w.facts, w.starting)
    && SaidsOk(w.facts, w.facts.memberSaid) && SaidsOk(w.facts, w.facts.joinerSaid) && FinishesOk(w.facts, w.finishing)
    && w.facts.restarted <= w.facts.begun.Keys
  }

  /** Facts are only added; a nonce changes only after a restart. */
  ghost predicate Extends(f: Facts, g: Facts) {
    && g.self == f.self && f.restarted <= g.restarted
    && (forall sid :: sid in f.begun ==> sid in g.begun && g.begun[sid] == f.begun[sid])
    && (forall sid :: sid in f.issued ==> sid in g.issued && (sid in f.restarted || g.issued[sid] == f.issued[sid]))
    && f.memberSaid.Keys <= g.memberSaid.Keys && f.joinerSaid.Keys <= g.joinerSaid.Keys
  }

  lemma SidesGrow(w: World, g: Facts)
    requires Sound(w) && Extends(w.facts, g)
    ensures RequestsOk(g, w.requests) && RepliesOk(g, w.replies) && StartsOk(g, w.starting)
      && FinishesOk(g, w.finishing)
  {
    hide TableOk, IssuesOk, JoinersOk, SaidsOk;
    assert forall m :: m in w.requests ==> RequestOk(w.facts, m);
    assert forall r :: r in w.replies ==> ReplyOk(w.facts, r);
    assert forall sid :: sid in w.starting ==> StartOk(w.facts, sid, w.starting[sid]);
  }

  lemma TablesGrow(w: World, g: Facts)
    requires Sound(w) && Extends(w.facts, g)
    requires forall sid :: sid in w.table && sid in w.facts.issued ==>
      sid in g.issued && g.issued[sid] == w.facts.issued[sid]
    ensures TableOk(g, w.table) && JoinersOk(g, w.joiners)
  {
    hide RequestsOk, RepliesOk, IssuesOk, StartsOk, SaidsOk, FinishesOk;
    forall sid | sid in w.table
      ensures MemberOk(g, sid, w.table[sid])
    {
      assert MemberOk(w.facts, sid, w.table[sid]);
    }
    forall sid | sid in w.joiners
      ensures JoinerOk(g, sid, w.joiners[sid])
    {
      assert JoinerOk(w.facts, sid, w.joiners[sid]);
    }
  }

  lemma SaidsGrow(f: Facts, g: Facts, said: map<SessionId, Code>)
    requires SaidsOk(f, said) && Extends(f, g)
    ensures SaidsOk(g, said)
  {
    assert forall sid :: sid in said ==> SaidOk(f, sid, said[sid]);
  }

  lemma IssuesGrow(w: World, g: Facts)
    requires Sound(w) && Extends(w.facts, g) && g.issued == w.facts.issued
    ensures IssuesOk(g, w.now, w.table)
  {
    hide RequestsOk, RepliesOk, TableOk, JoinersOk, StartsOk, SaidsOk, FinishesOk;
    assert forall sid :: sid in g.issued ==> IssueOk(w.facts, w.now, w.table, sid);
  }

  lemma FactsGrow(w: World, g: Facts)
    requires Sound(w) && Extends(w.facts, g) && g.issued == w.facts.issued
    requires SaidsOk(g, g.memberSaid) && SaidsOk(g, g.joinerSaid) && g.restarted <= g.begun.Keys
    ensures Sound(w.(facts := g))
  {
    SidesGrow(w, g);
    TablesGrow(w, g);
    IssuesGrow(w, g);
    hide RequestsOk, RepliesOk, TableOk, IssuesOk, JoinersOk, StartsOk, SaidsOk, FinishesOk;
  }

  /** A hello that opens a session does so for an id no nonce was ever issued for, unless the member restarted since the
      attempt began. */
  lemma HelloOnce(w: World, m: PairMessage)
    requires Sound(w) && m in w.requests && m.op == Hello && Fresh(m, w.now) && m.sid !in ExpiredTable(w.table, w.now)
    ensures m.sid !in w.facts.issued || m.sid in w.facts.restarted
  {
    assert RequestOk(w.facts, m);
    if m.sid in w.facts.issued {
      assert IssueOk(w.facts, w.now, w.table, m.sid);
    }
    if m.sid in w.table {
      assert MemberOk(w.facts, m.sid, w.table[m.sid]);
    }
  }

  lemma BeginSound(w: World, e: Event)
    requires Sound(w) && e.Begin?
    ensures Sound(Next(w, e))
  {
    if e.sid !in w.facts.begun {
      var v := Next(w, e);
      SaidsGrow(w.facts, v.facts, w.facts.memberSaid);
      SaidsGrow(w.facts, v.facts, w.facts.joinerSaid);
      FactsGrow(w, v.facts);
      assert RequestsOk(v.facts, w.requests) && StartsOk(v.facts, w.starting);
      hide RepliesOk, TableOk, IssuesOk, JoinersOk, SaidsOk, FinishesOk;
    }
  }

  /** Expiring keeps the table sound. */
  lemma ExpireSound(w: World)
    requires Sound(w)
    ensures Sound(w.(table := ExpiredTable(w.table, w.now)))
  {
    hide RequestsOk, RepliesOk, JoinersOk, StartsOk, SaidsOk, FinishesOk;
    var t := ExpiredTable(w.table, w.now);
    forall sid | sid in t
      ensures MemberOk(w.facts, sid, t[sid])
    {
      assert MemberOk(w.facts, sid, w.table[sid]);
    }
    forall sid | sid in w.facts.issued
      ensures IssueOk(w.facts, w.now, t, sid)
    {
      assert IssueOk(w.facts, w.now, w.table, sid);
      if sid in w.table {
        assert MemberOk(w.facts, sid, w.table[sid]);
      }
    }
  }

  /** One session of the table changes to another sound one, and one sound reply is sent. */
  lemma TableSound(w: World, sid: SessionId, s: Session, r: PairReply)
    requires Sound(w) && sid in w.table && MemberOk(w.facts, sid, s) && ReplyOk(w.facts, r)
    ensures Sound(w.(table := w.table[sid := s], replies := w.replies + {r}))
  {
    hide RequestsOk, JoinersOk, StartsOk, SaidsOk, FinishesOk, MemberOk, ReplyOk;
    var t := w.table[sid := s];
    forall id | id in w.facts.issued
      ensures IssueOk(w.facts, w.now, t, id)
    {
      assert IssueOk(w.facts, w.now, w.table, id);
    }
  }

  lemma ReplySound(w: World, r: PairReply)
    requires Sound(w) && ReplyOk(w.facts, r)
    ensures Sound(w.(replies := w.replies + {r}))
  {
    hide RequestsOk, TableOk, IssuesOk, JoinersOk, StartsOk, SaidsOk, FinishesOk, ReplyOk;
  }

  lemma HelloSound(w: World, m: PairMessage, nonce: Text)
    requires Sound(w) && m in w.requests && m.op == Hello && Fresh(m, w.now) && m.sid !in w.table
    requires m.sid !in w.facts.issued || m.sid in w.facts.restarted
    ensures var g := w.facts.(issued := w.facts.issued[m.sid := Issue(nonce, w.now)]);
      var r := PairReply("", Some(Connecting), m.sid, w.facts.self, Some(nonce), None);
      Sound(w.(table := w.table[m.sid := Opening(m, w.now, nonce)], facts := g, replies := w.replies + {r}))
  {
    var g := w.facts.(issued := w.facts.issued[m.sid := Issue(nonce, w.now)]);
    var t := w.table[m.sid := Opening(m, w.now, nonce)];
    assert RequestOk(w.facts, m);
    SidesGrow(w, g);
    TablesGrow(w, g);
    SaidsGrow(w.facts, g, g.memberSaid);
    SaidsGrow(w.facts, g, g.joinerSaid);
    hide RequestsOk, JoinersOk, StartsOk, SaidsOk, FinishesOk;
    forall id | id in g.issued
      ensures IssueOk(g, w.now, t, id)
    {
      assert id != m.sid ==> IssueOk(w.facts, w.now, w.table, id);
    }
    assert TableOk(g, w.table) && MemberOk(g, m.sid, t[m.sid]);
    assert TableOk(g, t);
  }

  /** What the member does to a session it knows, when a genuine request names it. */
  lemma HandledSound(f: Facts, t: Table, m: PairMessage, now: int, nonce: Text)
    requires RequestOk(f, m) && m.sid in t && MemberOk(f, m.sid, t[m.sid]) && ExpiredTable(t, now) == t
    ensures var (table, reply) := Handled(t, f.self, m, now, nonce);
      && m.sid in table && table == t[m.sid := table[m.sid]]
      && MemberOk(f, m.sid, table[m.sid]) && ReplyOk(f, reply)
  {
  }

  lemma ExpireTwice(t: Table, now: int)
    ensures ExpiredTable(ExpiredTable(t, now), now) == ExpiredTable(t, now)
  {
  }

  lemma ReceiveSound(w: World, m: PairMessage, nonce: Text)
    requires Sound(w) && m in w.requests && Fresh(m, w.now)
    ensures Sound(Received(w, m, nonce))
  {
    var u := w.(table := ExpiredTable(w.table, w.now));
    ExpireSound(w);
    ExpireTwice(w.table, w.now);
    assert RequestOk(w.facts, m);
    assert Handled(w.table, w.facts.self, m, w.now, nonce) == Handled(u.table, w.facts.self, m, w.now, nonce);
    if m.sid in u.table {
      assert MemberOk(w.facts, m.sid, u.table[m.sid]);
      HandledSound(w.facts, u.table, m, w.now, nonce);
      var (table, reply) := Handled(u.table, w.facts.self, m, w.now, nonce);
      TableSound(u, m.sid, table[m.sid], reply);
    } else {
      NewSound(w, u, m, nonce);
    }
  }

  lemma NewSound(w: World, u: World, m: PairMessage, nonce: Text)
    requires Sound(w) && Sound(u) && m in w.requests && Fresh(m, w.now)
    requires u == w.(table := ExpiredTable(w.table, w.now)) && m.sid !in u.table
    ensures Sound(Received(w, m, nonce))
  {
    var (table, reply) := Handled(w.table, w.facts.self, m, w.now, nonce);
    if m.sid in table {
      HelloOnce(w, m);
      HelloSound(u, m, nonce);
    } else {
      assert table == u.table && ReplyOk(u.facts, reply);
      ReplySound(u, reply);
    }
  }

  lemma RequestSound(w: World, m: PairMessage)
    requires Sound(w) && RequestOk(w.facts, m)
    ensures Sound(w.(requests := w.requests + {m}))
  {
    hide RepliesOk, TableOk, IssuesOk, JoinersOk, StartsOk, SaidsOk, FinishesOk, RequestOk;
  }

  lemma StartSound(w: World, starting: map<SessionId, Phase>)
    requires Sound(w) && StartsOk(w.facts, starting)
    ensures Sound(w.(starting := starting))
  {
    hide RequestsOk, RepliesOk, TableOk, IssuesOk, JoinersOk, StartsOk, SaidsOk, FinishesOk;
  }

  lemma JoinerSound(w: World, sid: SessionId, s: Session)
    requires Sound(w) && JoinerOk(w.facts, sid, s)
    ensures Sound(w.(joiners := w.joiners[sid := s]))
  {
    hide RequestsOk, RepliesOk, TableOk, IssuesOk, StartsOk, SaidsOk, FinishesOk, JoinerOk;
  }

  lemma HelloAnswerSound(w: World, e: Event)
    requires Sound(w) && e.HelloAnswer?
    ensures Sound(Next(w, e))
  {
    hide TableOk, IssuesOk, JoinersOk, SaidsOk, FinishesOk;
    var v := Next(w, e);
    if v != w {
      assert ReplyOk(w.facts, e.r) && StartOk(w.facts, e.sid, w.starting[e.sid]);
      assert StartsOk(w.facts, v.starting);
      StartSound(w, v.starting);
      var start := w.facts.begun[e.sid];
      RequestSound(w.(starting := v.starting),
        Plain(Reveal, e.sid, start.joiner, e.stamp).(nonce := Some(start.nonceJ)));
    }
  }

  lemma RevealAnswerSound(w: World, e: Event)
    requires Sound(w) && (e.RevealAnswer? || e.GiveUp?)
    ensures Sound(Next(w, e))
  {
    hide RequestsOk, RepliesOk, TableOk, IssuesOk, JoinersOk, SaidsOk, FinishesOk;
    var v := Next(w, e);
    assert StartsOk(w.facts, v.starting);
    StartSound(w, v.starting);
    if e.RevealAnswer? && v.joiners != w.joiners {
      assert StartOk(w.facts, e.sid, w.starting[e.sid]);
      JoinerSound(w.(starting := v.starting), e.sid, v.joiners[e.sid]);
    }
  }

  predicate OnJoiner(e: Event) {
    e.PollAnswer? || e.JoinerSets? || e.FinishSets? || e.JoinerCancels? || e.AskPoll? || e.JoinerExpires?
  }

  lemma PollAfter(w: World, e: Event)
    requires Sound(w) && e.PollAnswer? && e.sid in w.joiners && e.sid in Next(w, e).joiners
    ensures JoinerOk(w.facts, e.sid, Next(w, e).joiners[e.sid])
  {
    hide RequestsOk, TableOk, IssuesOk, StartsOk, SaidsOk, FinishesOk, CodeUnder;
    assert JoinerOk(w.facts, e.sid, w.joiners[e.sid]);
    if e.answer.Some? && e.answer.value in w.replies {
      assert ReplyOk(w.facts, e.answer.value);
    }
  }

  /** Such a step touches no other session. */
  lemma JoinersElsewhere(w: World, e: Event)
    requires OnJoiner(e) && e.sid in w.joiners && e.sid in Next(w, e).joiners
    ensures Next(w, e).joiners == w.joiners[e.sid := Next(w, e).joiners[e.sid]]
  {
  }

  lemma JoinerAfter(w: World, e: Event)
    requires Sound(w) && OnJoiner(e) && e.sid in w.joiners && e.sid in Next(w, e).joiners
    ensures JoinerOk(w.facts, e.sid, Next(w, e).joiners[e.sid])
  {
    hide RequestsOk, RepliesOk, TableOk, IssuesOk, StartsOk, SaidsOk, CodeUnder;
    if e.PollAnswer? {
      PollAfter(w, e);
      hide JoinerOk;
    } else {
      assert JoinerOk(w.facts, e.sid, w.joiners[e.sid]);
      assert e.sid in w.finishing ==> e.sid in w.facts.joinerSaid && e.sid in w.facts.memberSaid;
    }
  }

  lemma JoinerGone(w: World, sid: SessionId)
    requires Sound(w)
    ensures Sound(w.(joiners := w.joiners - {sid}))
  {
    hide RequestsOk, RepliesOk, TableOk, IssuesOk, StartsOk, SaidsOk, FinishesOk, JoinerOk;
  }

  lemma AskedSound(w: World, op: Op, sid: SessionId, stamp: int)
    requires Sound(w) && op in {Poll, Cancel}
    ensures Sound(Asked(w, op, sid, stamp))
  {
    if sid in w.joiners && sid in w.facts.begun {
      RequestSound(w, Plain(op, sid, w.facts.begun[sid].joiner, stamp));
    }
  }

  /** Each step on a joiner's own session. */
  lemma JoinerStepSound(w: World, e: Event)
    requires Sound(w) && OnJoiner(e)
    ensures Sound(Next(w, e))
  {
    hide Sound;
    var u := w;
    if e.sid in w.joiners && e.sid in Next(w, e).joiners {
      JoinerAfter(w, e);
      JoinersElsewhere(w, e);
      JoinerSound(w, e.sid, Next(w, e).joiners[e.sid]);
      u := w.(joiners := Next(w, e).joiners);
    }
    JoinerGone(w, e.sid);
    if e.AskPoll? {
      AskedSound(w, Poll, e.sid, e.stamp);
    } else if e.JoinerCancels? {
      AskedSound(u, Cancel, e.sid, e.stamp);
    }
    hide Asked, JoinerConfirmed, FinishedIn, PolledIn;
  }

  lemma ChecksSound(w: World, e: Event)
    requires Sound(w) && (e.JoinerChecks? || e.FinishChecks?)
    ensures Sound(Next(w, e))
  {
    hide RequestsOk, RepliesOk, TableOk, IssuesOk, StartsOk;
    var v := Next(w, e);
    if e.sid in w.joiners {
      assert JoinerOk(w.facts, e.sid, w.joiners[e.sid]);
    }
    if e.JoinerChecks? {
      SaidsGrow(w.facts, v.facts, w.facts.memberSaid);
      SaidsGrow(w.facts, v.facts, w.facts.joinerSaid);
      assert SaidsOk(v.facts, v.facts.joinerSaid);
      FactsGrow(w, v.facts);
    }
  }

  lemma MemberChecksSound(w: World, e: Event)
    requires Sound(w) && e.MemberChecks?
    ensures Sound(Next(w, e))
  {
    hide RequestsOk, RepliesOk, IssuesOk, JoinersOk, StartsOk, FinishesOk;
    ExpireSound(w);
    var u := w.(table := ExpiredTable(w.table, w.now));
    var v := Next(w, e);
    if e.sid in u.table {
      assert MemberOk(u.facts, e.sid, u.table[e.sid]);
    }
    SaidsGrow(w.facts, v.facts, w.facts.memberSaid);
    SaidsGrow(w.facts, v.facts, w.facts.joinerSaid);
    assert SaidsOk(v.facts, v.facts.memberSaid);
    FactsGrow(u, v.facts);
  }

  /** A session of the member's table changes to another sound one. */
  lemma TableStepSound(w: World, sid: SessionId, s: Session)
    requires Sound(w) && sid in w.table && MemberOk(w.facts, sid, s)
    ensures Sound(w.(table := w.table[sid := s]))
  {
    var r := PairReply("", None, sid, w.facts.self, None, None);
    hide RequestsOk, JoinersOk, StartsOk, SaidsOk, FinishesOk, MemberOk, RepliesOk;
    var t := w.table[sid := s];
    forall id | id in w.facts.issued
      ensures IssueOk(w.facts, w.now, t, id)
    {
      assert IssueOk(w.facts, w.now, w.table, id);
    }
  }

  lemma MemberStepSound(w: World, e: Event)
    requires Sound(w) && (e.MemberSets? || e.MemberCancels? || e.MemberExpires? || e.Tick?)
    ensures Sound(Next(w, e))
  {
    ExpireSound(w);
    if e.Tick? {
      hide RequestsOk, RepliesOk, TableOk, JoinersOk, StartsOk, SaidsOk, FinishesOk;
      assert forall sid :: sid in w.facts.issued ==> IssueOk(w.facts, w.now, w.table, sid);
    } else if !e.MemberExpires? {
      var u := if e.MemberSets? then w else w.(table := ExpiredTable(w.table, w.now));
      if e.sid in u.table {
        assert MemberOk(u.facts, e.sid, u.table[e.sid]);
        var after := Next(w, e).table[e.sid];
        assert MemberOk(u.facts, e.sid, after);
        TableStepSound(u, e.sid, after);
        assert u.table[e.sid := after] == Next(w, e).table;
      }
    }
  }

  lemma RestartSound(w: World, e: Event)
    requires Sound(w) && (e.MemberRestarts? || e.JoinerStops?)
    ensures Sound(Next(w, e))
  {
    var v := Next(w, e);
    if e.MemberRestarts? {
      SidesGrow(w, v.facts);
      TablesGrow(w, v.facts);
      SaidsGrow(w.facts, v.facts, w.facts.memberSaid);
      SaidsGrow(w.facts, v.facts, w.facts.joinerSaid);
      forall sid | sid in v.facts.issued
        ensures IssueOk(v.facts, v.now, v.table, sid)
      {
        assert IssueOk(w.facts, w.now, w.table, sid);
      }
      hide RequestsOk, RepliesOk, JoinersOk, StartsOk, SaidsOk, FinishesOk;
    } else {
      assert StartsOk(w.facts, v.starting);
      StartSound(w, v.starting);
      JoinerGone(w.(starting := v.starting), e.sid);
    }
  }

  lemma StepSound(w: World, e: Event)
    requires Sound(w)
    ensures Sound(Next(w, e))
  {
    hide Sound;
    match e {
      case Begin(_, _, _, _) => BeginSound(w, e);
      case Receive(m, nonce) =>
        if m in w.requests && Fresh(m, w.now) {
          ReceiveSound(w, m, nonce);
        }
      case HelloAnswer(_, _, _, _) => HelloAnswerSound(w, e);
      case RevealAnswer(_, _, _) => RevealAnswerSound(w, e);
      case GiveUp(_) => RevealAnswerSound(w, e);
      case AskPoll(_, _) => JoinerStepSound(w, e);
      case PollAnswer(_, _) => JoinerStepSound(w, e);
      case JoinerSets(_) => JoinerStepSound(w, e);
      case JoinerCancels(_, _) => JoinerStepSound(w, e);
      case FinishSets(_, _) => JoinerStepSound(w, e);
      case JoinerExpires(_, _) => JoinerStepSound(w, e);
      case JoinerChecks(_) => ChecksSound(w, e);
      case FinishChecks(_) => ChecksSound(w, e);
      case MemberChecks(_) => MemberChecksSound(w, e);
      case MemberSets(_, _) => MemberStepSound(w, e);
      case MemberCancels(_) => MemberStepSound(w, e);
      case MemberExpires => MemberStepSound(w, e);
      case Tick(_) => MemberStepSound(w, e);
      case MemberRestarts => RestartSound(w, e);
      case JoinerStops(_) => RestartSound(w, e);
    }
  }

  lemma {:induction false} RunSound(w: World, events: seq<Event>)
    requires Sound(w)
    ensures Sound(Run(w, events))
    decreases |events|
  {
    hide Sound, Next;
    if events == [] {
    } else {
      StepSound(w, events[0]);
      RunSound(Next(w, events[0]), events[1..]);
    }
  }

  /** Whenever both sides of a session hold a code, it is the same code if and only if they hold the same nonce of the
      member's; and so it is unless the member restarted after the attempt began. */
  lemma CodesAgree(w: World, events: seq<Event>, sid: SessionId)
    requires Initial(w)
    ensures var v := Run(w, events);
      sid in v.table && sid in v.joiners && v.table[sid].code.Some? && v.joiners[sid].code.Some? ==>
        && (v.table[sid].code == v.joiners[sid].code <==> v.table[sid].nonceM == v.joiners[sid].nonceM)
        && (sid !in v.facts.restarted ==> v.table[sid].code == v.joiners[sid].code)
  {
    RunSound(w, events);
    var v := Run(w, events);
    if sid in v.table && sid in v.joiners {
      assert MemberOk(v.facts, sid, v.table[sid]) && JoinerOk(v.facts, sid, v.joiners[sid]);
    }
  }

  /** A joiner that joined did so after both people confirmed, and they confirmed the same code unless the member
      restarted after the attempt began. */
  lemma JoinedNeedsBoth(w: World, events: seq<Event>, sid: SessionId)
    requires Initial(w)
    ensures var v := Run(w, events);
      sid in v.joiners && v.joiners[sid].state == Joined ==>
        && sid in v.facts.memberSaid && sid in v.facts.joinerSaid
        && (sid !in v.facts.restarted ==> v.facts.memberSaid[sid] == v.facts.joinerSaid[sid])
  {
    RunSound(w, events);
    var v := Run(w, events);
    if sid in v.joiners && v.joiners[sid].state == Joined {
      assert JoinerOk(v.facts, sid, v.joiners[sid]);
      assert SaidOk(v.facts, sid, v.facts.memberSaid[sid]) && SaidOk(v.facts, sid, v.facts.joinerSaid[sid]);
    }
  }

  /** No nonce is ever issued twice for one session, however often its hello is repeated or delayed, unless the member
      restarted after the attempt began. */
  lemma NonceIssuedOnce(w: World, events: seq<Event>, e: Event, sid: SessionId)
    requires Initial(w) && sid in Run(w, events).facts.issued && sid !in Run(w, events).facts.restarted
    ensures var v, after := Run(w, events), Next(Run(w, events), e);
      sid in after.facts.issued && after.facts.issued[sid] == v.facts.issued[sid]
  {
    RunSound(w, events);
    IssuedStays(Run(w, events), e, sid);
  }

  lemma IssuedStays(v: World, e: Event, sid: SessionId)
    requires Sound(v) && sid in v.facts.issued && sid !in v.facts.restarted
    ensures sid in Next(v, e).facts.issued && Next(v, e).facts.issued[sid] == v.facts.issued[sid]
  {
    hide Sound;
    if e.Receive? && e.m in v.requests && Fresh(e.m, v.now) && e.m.op == Hello
      && e.m.sid !in ExpiredTable(v.table, v.now) {
      HelloOnce(v, e.m);
    }
  }

  /** No step of a run adds a session to the member's table while eight are open. */
  lemma NoNinthSession(w: World, e: Event, sid: SessionId)
    requires sid !in w.table && sid in Next(w, e).table
    ensures e.Receive? && e.m.op == Hello && e.m.sid == sid && |OpenIds(ExpiredTable(w.table, w.now))| < MAX_SESSIONS
  {
    if e.Receive? && e.m in w.requests && Fresh(e.m, w.now) {
      HelloOpensIff(w.table, w.facts.self, e.m, w.now, e.nonce, sid);
    }
  }
}
