/** What an election and one attempt of a recovery give, in terms of the member list, the marks and the clock. */
module MeshEffects {
  import opened Wrappers
  import opened Identity
  import opened Circles
  import opened Election
  import opened Recovery

  const HALF_MINUTE := 30_000_000_000
  const TWENTY_SECONDS := 20_000_000_000

  /** Some record that is not revoked lists the device. */
  predicate Hosts(c: Circle, id: DeviceId) {
    id != EMPTY && exists i :: 0 <= i < |c.members| && c.members[i].deviceId == id && !c.members[i].revoked
  }

  predicate Able(c: Circle, gone: set<DeviceId>, id: DeviceId) {
    id !in gone && Hosts(c, id)
  }

  /** x comes before y on the ring that starts at the creator, or at the least id when the creator is no host. */
  predicate Sooner(c: Circle, x: DeviceId, y: DeviceId) {
    if x == c.creator || y == c.creator then x == c.creator
    else if Hosts(c, c.creator) && (x > c.creator) != (y > c.creator) then x > c.creator
    else x < y
  }

  /** The device that comes first among those that are able. */
  ghost predicate Foremost(c: Circle, gone: set<DeviceId>, id: DeviceId) {
    Able(c, gone, id) && forall y :: Able(c, gone, y) && y != id ==> Sooner(c, id, y)
  }

  lemma ActiveIff(c: Circle, id: DeviceId)
    ensures id in ActiveIds(c.members) <==> Hosts(c, id)
  {
    if Hosts(c, id) {
      var i :| 0 <= i < |c.members| && c.members[i].deviceId == id && !c.members[i].revoked;
      assert !c.members[i].revoked && c.members[i].deviceId != EMPTY;
    }
  }

  /** The elected broker is the able device that comes first on the ring. */
  lemma ElectedIff(c: Circle, gone: set<DeviceId>, id: DeviceId)
    ensures Elected(ActiveIds(c.members), c.creator, gone) == Some(id) <==> Foremost(c, gone, id)
  {
    var active := ActiveIds(c.members);
    forall y
      ensures y in active - gone <==> Able(c, gone, y)
    {
      ActiveIff(c, y);
    }
    ActiveIff(c, c.creator);
    ElectsIff(active, c.creator, gone);
    hide Hosts, ActiveIds;
    if Elected(active, c.creator, gone) == Some(id) {
      SoonestElected(c, active, gone);
    }
    if Foremost(c, gone, id) {
      assert id in active - gone;
      SoonestElected(c, active, gone);
    }
  }

  lemma SoonestElected(c: Circle, active: set<DeviceId>, gone: set<DeviceId>)
    requires active - gone != {} && (c.creator in active <==> Hosts(c, c.creator))
    ensures var elected := Elected(active, c.creator, gone);
      elected.Some? && elected.value in active - gone
        && forall y :: y in active - gone && y != elected.value ==> Sooner(c, elected.value, y)
  {
    hide Hosts;
    var able := active - gone;
    var host := Elected(active, c.creator, gone).value;
    forall y | y in able && y != host
      ensures Sooner(c, host, y)
    {
      assert y > c.creator <==> y in Above(able, c.creator);
    }
  }

  /** A mark keeps a host out while it is younger than half a minute and discovery has not taken it off. */
  predicate Out(gone: Times, a: Attempt, id: DeviceId) {
    id in gone && id !in a.cleared && a.electAt - gone[id] < HALF_MINUTE
  }

  function Marks(gone: Times, a: Attempt): Times {
    map id | id in gone && Out(gone, a, id) :: gone[id]
  }

  /** The attempt tries the host: chat is allowed and the host comes first among those that are not kept out. */
  ghost predicate Tries(c: Circle, gone: Times, a: Attempt, host: DeviceId) {
    a.allowed && Foremost(c, Marks(gone, a).Keys, host)
  }

  /** The host has failed for at least twenty seconds. */
  predicate FailedLong(failing: Times, a: Attempt, host: DeviceId) {
    host in failing && a.failAt - failing[host] >= TWENTY_SECONDS
  }

  ghost function One(c: Circle, self: DeviceId, gone: Times, failing: Times, a: Attempt): Report {
    RecoveredFrom(c, self, gone, failing, [a], 0)
  }

  lemma MarksAre(gone: Times, a: Attempt)
    ensures Fresh(gone - a.cleared, a.electAt) == Marks(gone, a)
  {
  }

  lemma OneIs(c: Circle, self: DeviceId, gone: Times, failing: Times, a: Attempt)
    ensures One(c, self, gone, failing, a) ==
      match Attempted(c, self, gone, failing, a)
      case Done(outcome, tried, marks, noted) => Report(outcome, tried, marks, noted)
      case Again(host, marks, noted) => Report(NoneReachable, [host], marks, noted)
  {
    hide Attempted;
    var env := [a];
    assert env[0] == a;
    var step := Attempted(c, self, gone, failing, a);
    if step.Again? {
      assert RecoveredFrom(c, self, step.gone, step.failing, env, 1) == Report(NoneReachable, [], step.gone,
                                                                           step.failing);
      assert [step.host] + [] == [step.host];
    }
  }

  /** How a recovery with one attempt ends: it is suspended, finds no broker, reaches the host it tries, gives up on
      it, or marks it and has nothing left to try. */
  lemma OutcomeIff(c: Circle, self: DeviceId, gone: Times, failing: Times, a: Attempt, host: DeviceId)
    ensures var r := One(c, self, gone, failing, a);
      && (r.outcome == Suspended <==> !a.allowed)
      && (r.outcome == NoBroker <==> a.allowed && forall id :: Hosts(c, id) ==> Out(gone, a, id))
      && (r.outcome == Linked(host) <==> Tries(c, gone, a, host) && a.reached)
      && (r.outcome == HostFailed(host) <==>
            Tries(c, gone, a, host) && !a.reached && (host == self || !FailedLong(failing, a, host)))
      && (r.outcome == NoneReachable && r.tried == [host] <==>
            Tries(c, gone, a, host) && !a.reached && host != self && FailedLong(failing, a, host))
  {
    hide Elected, ActiveIds, Hosts, Fresh, Foremost, RecoveredFrom, One, Marks, Out;
    OneIs(c, self, gone, failing, a);
    MarksAre(gone, a);
    ElectedIff(c, Marks(gone, a).Keys, host);
    NoBrokerIff(c, gone, a);
  }

  lemma NoBrokerIff(c: Circle, gone: Times, a: Attempt)
    ensures Elected(ActiveIds(c.members), c.creator, Marks(gone, a).Keys).None? <==>
      forall id :: Hosts(c, id) ==> Out(gone, a, id)
  {
    var active, out := ActiveIds(c.members), Marks(gone, a).Keys;
    ElectsIff(active, c.creator, out);
    forall id
      ensures id in active - out <==> Hosts(c, id) && !Out(gone, a, id)
    {
      ActiveIff(c, id);
    }
    hide Elected, ActiveIds, Hosts;
    if active - out == {} {
      forall id | Hosts(c, id)
        ensures Out(gone, a, id)
      {
        assert id !in active - out;
      }
    } else {
      var id :| id in active - out;
      assert Hosts(c, id) && !Out(gone, a, id);
    }
  }

  /** The marks and failure times one attempt leaves: expired marks and those taken off go, a reached host ends all
      failures, a first failure is timed, and a host that failed for long is marked. */
  lemma AttemptLeaves(c: Circle, self: DeviceId, gone: Times, failing: Times, a: Attempt, host: DeviceId)
    requires Tries(c, gone, a, host)
    ensures var r := One(c, self, gone, failing, a);
      var marks := Marks(gone, a);
      && r.tried == [host]
      && r.failing == (if a.reached then map[] else if host == self || host in failing then failing
                       else failing[host := a.failAt])
      && r.gone == (if !a.reached && host != self && FailedLong(failing, a, host) then marks[host := a.markAt]
                    else marks)
  {
    hide Elected, ActiveIds, Hosts, Fresh, Foremost, RecoveredFrom, One, Marks, Out;
    OneIs(c, self, gone, failing, a);
    MarksAre(gone, a);
    ElectedIff(c, Marks(gone, a).Keys, host);
  }

  /** Without a host to try, nothing is tried; suspension forgets the failures and keeps even expired marks. */
  lemma IdleLeaves(c: Circle, self: DeviceId, gone: Times, failing: Times, a: Attempt)
    requires forall host :: !Tries(c, gone, a, host)
    ensures var r := One(c, self, gone, failing, a);
      && r.tried == []
      && (if a.allowed then r.gone == Marks(gone, a) && r.failing == failing
          else r.gone == gone - a.cleared && r.failing == map[])
  {
    hide Elected, ActiveIds, Hosts, Fresh, Foremost, RecoveredFrom, One, Marks, Out;
    OneIs(c, self, gone, failing, a);
    MarksAre(gone, a);
    var out := Marks(gone, a).Keys;
    var elected := Elected(ActiveIds(c.members), c.creator, out);
    if elected.Some? {
      ElectedIff(c, out, elected.value);
      assert Tries(c, gone, a, elected.value) <==> a.allowed;
    }
  }

  /** A recovery makes its attempts in turn: it ends with the first one that decides, and goes on from the marks and
      failures of one that does not. */
  lemma AttemptsInTurn(c: Circle, self: DeviceId, gone: Times, failing: Times, env: seq<Attempt>, k: nat)
    requires k < |env|
    ensures var one := One(c, self, gone, failing, env[k]);
      var all := RecoveredFrom(c, self, gone, failing, env, k);
      if one.outcome != NoneReachable then all == one
      else
        var later := RecoveredFrom(c, self, one.gone, one.failing, env, k + 1);
        all == later.(tried := one.tried + later.tried)
  {
    hide Attempted, ActiveIds, One;
    AttemptActive(c, self, gone, failing, env[k]);
    OneIs(c, self, gone, failing, env[k]);
  }
}
