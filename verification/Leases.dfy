/** Control leases of live terminals (terminal_store.go, terminal_control.go): one call of the store is one
    atomic step, and a new lease id is a parameter. */
module Leases {
  import opened Wrappers
  import opened Identity

  /** `expires` is None when the text is empty or no time. */
  datatype Lease = Lease(id: Text, session: Text, holder: Text, epoch: nat, expires: Option<int>, revoked: bool)

  datatype Session = Session(owner: Text, host: Text, private: bool, sequence: nat)

  datatype Store = Store(sessions: map<Text, Session>, leases: seq<Lease>)

  datatype Refusal = SessionNotFound | AccessDenied | PrivateMode | InvalidLease | NotStored

  datatype Answer = Granted(lease: Lease) | Refused(why: Refusal)

  predicate Live(l: Lease, sid: Text) {
    l.session == sid && !l.revoked
  }

  /** The session's unrevoked lease of the highest epoch. */
  function Active(leases: seq<Lease>, sid: Text): Option<Lease> {
    if leases == [] then None
    else
      var best := Active(leases[..|leases| - 1], sid);
      var last := leases[|leases| - 1];
      if Live(last, sid) && (best.None? || last.epoch > best.value.epoch) then Some(last) else best
  }

  function EpochOf(active: Option<Lease>): nat {
    match active case None => 0 case Some(l) => l.epoch
  }

  function ActiveEpoch(s: Store, sid: Text): nat {
    EpochOf(Active(s.leases, sid))
  }

  function Ended(leases: seq<Lease>, sid: Text): seq<Lease> {
    seq(|leases|, i requires 0 <= i < |leases| =>
      if Live(leases[i], sid) then leases[i].(revoked := true) else leases[i])
  }

  predicate Used(leases: seq<Lease>, id: Text) {
    exists i :: 0 <= i < |leases| && leases[i].id == id
  }

  lemma EndedUses(leases: seq<Lease>, sid: Text, id: Text)
    ensures Used(Ended(leases, sid), id) <==> Used(leases, id)
  {
    var ended := Ended(leases, sid);
    if Used(leases, id) {
      var i :| 0 <= i < |leases| && leases[i].id == id;
      assert ended[i].id == id;
    }
  }

  function Bumped(sessions: map<Text, Session>, sid: Text): map<Text, Session>
    requires sid in sessions
  {
    sessions[sid := sessions[sid].(sequence := sessions[sid].sequence + 1)]
  }

  /** grantLeaseCAS. */
  function Cas(s: Store, sid: Text, holder: Text, expected: int, expires: Option<int>, id: Text): (Store, Answer) {
    if ActiveEpoch(s, sid) != expected then (s, Refused(InvalidLease))
    else
      var ended := s.(leases := Ended(s.leases, sid));
      var lease := Lease(id, sid, holder, expected + 1, expires, false);
      if sid !in s.sessions || Used(s.leases, id) then (ended, Refused(NotStored))
      else (Store(Bumped(s.sessions, sid), ended.leases + [lease]), Granted(lease))
  }

  /** SetPrivateMode. */
  function PrivateSet(s: Store, sid: Text, enabled: bool): Store {
    if sid !in s.sessions then s
    else
      var sessions := s.sessions[sid := s.sessions[sid].(private := enabled)];
      Store(Bumped(sessions, sid), if enabled then Ended(s.leases, sid) else s.leases)
  }

  /** Inserting a session; an id is used once. */
  function Opened(s: Store, sid: Text, device: Text): Store {
    if sid in s.sessions then s else s.(sessions := s.sessions[sid := Session(device, device, false, 0)])
  }

  /** The store's table rows, updated in place. */
  class TerminalStore {
    var sessions: map<Text, Session>
    var leases: seq<Lease>

    function Value(): Store
      reads this
    {
      Store(sessions, leases)
    }

    constructor ()
      ensures Value() == Store(map[], [])
    {
      sessions, leases := map[], [];
    }

    method InsertSession(sid: Text, device: Text)
      modifies this
      ensures Value() == Opened(old(Value()), sid, device)
    {
      if sid !in sessions {
        sessions := sessions[sid := Session(device, device, false, 0)];
      }
    }

    method GetActiveLease(sid: Text) returns (active: Option<Lease>)
      ensures active == Active(leases, sid)
    {
      active := None;
      var i := 0;
      while i < |leases|
        invariant 0 <= i <= |leases|
        invariant active == Active(leases[..i], sid)
      {
        assert leases[..i + 1][..i] == leases[..i];
        if Live(leases[i], sid) && (active.None? || leases[i].epoch > active.value.epoch) {
          active := Some(leases[i]);
        }
        i := i + 1;
      }
      assert leases[..i] == leases;
    }

    method RevokeLive(sid: Text)
      modifies this`leases
      ensures leases == Ended(old(leases), sid)
    {
      ghost var before := leases;
      var i := 0;
      while i < |leases|
        invariant 0 <= i <= |leases| == |before|
        invariant forall k :: 0 <= k < i ==> leases[k] == Ended(before, sid)[k]
        invariant forall k :: i <= k < |leases| ==> leases[k] == before[k]
      {
        if Live(leases[i], sid) {
          leases := leases[i := leases[i].(revoked := true)];
        }
        i := i + 1;
      }
    }

    method GrantLeaseCas(sid: Text, holder: Text, expected: int, expires: Option<int>,
        id: Text) returns (answer: Answer)
      modifies this
      ensures (Value(), answer) == Cas(old(Value()), sid, holder, expected, expires, id)
    {
      var active := GetActiveLease(sid);
      if EpochOf(active) != expected {
        return Refused(InvalidLease);
      }
      RevokeLive(sid);
      EndedUses(old(leases), sid, id);
      if sid !in sessions || Used(leases, id) {
        return Refused(NotStored);
      }
      var lease := Lease(id, sid, holder, EpochOf(active) + 1, expires, false);
      leases := leases + [lease];
      sessions := Bumped(sessions, sid);
      return Granted(lease);
    }

    method SetPrivateMode(sid: Text, enabled: bool)
      modifies this
      ensures Value() == PrivateSet(old(Value()), sid, enabled)
    {
      if sid !in sessions {
        return;
      }
      sessions := sessions[sid := sessions[sid].(private := enabled)];
      sessions := Bumped(sessions, sid);
      if enabled {
        RevokeLive(sid);
      }
    }

    /** Checks first and grants later: the grant's compare is what notices a change in between. */
    method ReleaseLeaseCas(sid: Text, holder: Text, leaseId: Text, epoch: int, expires: Option<int>, id: Text)
      returns (answer: Answer)
      modifies this
      ensures (Value(), answer) == Released(old(Value()), sid, holder, leaseId, epoch, expires, id)
    {
      var active := GetActiveLease(sid);
      if !Names(active, holder, leaseId, epoch) {
        return Refused(InvalidLease);
      }
      if sid !in sessions {
        return Refused(SessionNotFound);
      }
      answer := GrantLeaseCas(sid, sessions[sid].owner, epoch, expires, id);
    }
  }

  /** What is read when there is no lease: every field empty. */
  predicate Names(active: Option<Lease>, holder: Text, leaseId: Text, epoch: int) {
    match active
    case None => leaseId == EMPTY && epoch == 0 && holder == EMPTY
    case Some(l) => leaseId == l.id && epoch == l.epoch && holder == l.holder
  }

  function Released(s: Store, sid: Text, holder: Text, leaseId: Text, epoch: int, expires: Option<int>,
      id: Text): (Store, Answer) {
    if !Names(Active(s.leases, sid), holder, leaseId, epoch) then (s, Refused(InvalidLease))
    else if sid !in s.sessions then (s, Refused(SessionNotFound))
    else Cas(s, sid, s.sessions[sid].owner, epoch, expires, id)
  }

  predicate Hosts(session: Session, device: Text) {
    device == session.owner || device == session.host
  }

  function GrantedBy(s: Store, sid: Text, actor: Text, holder: Text, expected: int, expires: Option<int>,
      id: Text): (Store, Answer) {
    if sid !in s.sessions then (s, Refused(SessionNotFound))
    else if !Hosts(s.sessions[sid], actor) then (s, Refused(AccessDenied))
    else if s.sessions[sid].private then (s, Refused(PrivateMode))
    else Cas(s, sid, holder, expected, expires, id)
  }

  function RevokedBy(s: Store, sid: Text, actor: Text, holder: Text, expires: Option<int>, id: Text): (Store, Answer) {
    if sid !in s.sessions then (s, Refused(SessionNotFound))
    else if !Hosts(s.sessions[sid], actor) then (s, Refused(AccessDenied))
    else
      var active := Active(s.leases, sid);
      if holder != EMPTY && active.Some? && active.value.holder != EMPTY && active.value.holder != holder
      then (s, Refused(InvalidLease))
      else Cas(s, sid, s.sessions[sid].owner, EpochOf(active), expires, id)
  }

  /** The check on every write to the terminal. */
  function Checked(s: Store, sid: Text, device: Text, leaseId: Text, epoch: int, now: int): Option<Refusal> {
    if sid !in s.sessions then Some(SessionNotFound)
    else if s.sessions[sid].private then Some(PrivateMode)
    else
      match Active(s.leases, sid)
      case None => Some(InvalidLease)
      case Some(l) =>
        if l.id == EMPTY || (leaseId != EMPTY && l.id != leaseId) || epoch != l.epoch then Some(InvalidLease)
        else if l.holder != device && device != s.sessions[sid].owner then Some(AccessDenied)
        else if l.expires.Some? && now > l.expires.value then Some(InvalidLease)
        else None
  }

  predicate Accepts(s: Store, sid: Text, device: Text, leaseId: Text, epoch: int, now: int) {
    Checked(s, sid, device, leaseId, epoch, now).None?
  }

  class TerminalControl {
    const store: TerminalStore

    constructor (s: TerminalStore)
      ensures store == s
    {
      store := s;
    }

    method GrantControl(sid: Text, actor: Text, holder: Text, expected: int, expires: Option<int>, id: Text)
      returns (answer: Answer)
      modifies store
      ensures (store.Value(), answer) == GrantedBy(old(store.Value()), sid, actor, holder, expected, expires, id)
    {
      if sid !in store.sessions {
        return Refused(SessionNotFound);
      }
      var session := store.sessions[sid];
      if actor != session.owner && actor != session.host {
        return Refused(AccessDenied);
      }
      if session.private {
        return Refused(PrivateMode);
      }
      answer := store.GrantLeaseCas(sid, holder, expected, expires, id);
    }

    method ReleaseControl(sid: Text, holder: Text, leaseId: Text, epoch: int, expires: Option<int>, id: Text)
      returns (answer: Answer)
      modifies store
      ensures (store.Value(), answer) == Released(old(store.Value()), sid, holder, leaseId, epoch, expires, id)
    {
      answer := store.ReleaseLeaseCas(sid, holder, leaseId, epoch, expires, id);
    }

    method RevokeControl(sid: Text, actor: Text, holder: Text, expires: Option<int>, id: Text) returns (answer: Answer)
      modifies store
      ensures (store.Value(), answer) == RevokedBy(old(store.Value()), sid, actor, holder, expires, id)
    {
      if sid !in store.sessions {
        return Refused(SessionNotFound);
      }
      var session := store.sessions[sid];
      if actor != session.owner && actor != session.host {
        return Refused(AccessDenied);
      }
      var active := store.GetActiveLease(sid);
      if holder != EMPTY && active.Some? && active.value.holder != EMPTY && active.value.holder != holder {
        return Refused(InvalidLease);
      }
      answer := store.GrantLeaseCas(sid, session.owner, EpochOf(active), expires, id);
    }

    method ValidateWrite(sid: Text, device: Text, leaseId: Text, epoch: int, now: int) returns (why: Option<Refusal>)
      ensures why == Checked(store.Value(), sid, device, leaseId, epoch, now)
    {
      if sid !in store.sessions {
        return Some(SessionNotFound);
      }
      var session := store.sessions[sid];
      if session.private {
        return Some(PrivateMode);
      }
      var active := store.GetActiveLease(sid);
      if active.None? || active.value.id == EMPTY {
        return Some(InvalidLease);
      }
      var lease := active.value;
      if (leaseId != EMPTY && lease.id != leaseId) || epoch != lease.epoch {
        return Some(InvalidLease);
      }
      if lease.holder != device && device != session.owner {
        return Some(AccessDenied);
      }
      if lease.expires.Some? && now > lease.expires.value {
        return Some(InvalidLease);
      }
      return None;
    }
  }
}
