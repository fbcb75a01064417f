/** Recovery of a circle's chat link (share_mqtt.go): elect, try, mark the host gone, elect again. */
module Recovery {
  import opened Wrappers
  import opened Identity
  import opened Circles
  import opened Collections
  import opened Election

  const GONE_TTL := 30_000_000_000
  const FAILOVER_AFTER := 20_000_000_000

  type Times = map<DeviceId, int>

  /** What one attempt meets: whether chat is allowed, the clock at each reading, the marks that discovery took
      off before it, and whether the elected host was reached. */
  datatype Attempt = Attempt(allowed: bool, cleared: set<DeviceId>, electAt: int, reached: bool, failAt: int,
    markAt: int)

  datatype Outcome = Linked(host: DeviceId) | Suspended | NoBroker | HostFailed(host: DeviceId) | NoneReachable

  /** The marks that have not expired. */
  function Fresh(gone: Times, now: int): Times {
    map id | id in gone && now - gone[id] < GONE_TTL :: gone[id]
  }

  /** Since when a host has been failing; a first failure starts the count. */
  function Noted(failing: Times, host: DeviceId, now: int): Times {
    if host in failing then failing else failing[host := now]
  }

  datatype Report = Report(outcome: Outcome, tried: seq<DeviceId>, gone: Times, failing: Times)

  /** One attempt ends the call, or marks the host it tried and goes on. */
  datatype Step =
    | Done(outcome: Outcome, tried: seq<DeviceId>, gone: Times, failing: Times)
    | Again(host: DeviceId, gone: Times, failing: Times)

  ghost function Attempted(c: Circle, self: DeviceId, gone: Times, failing: Times, a: Attempt): Step {
    if !a.allowed then Done(Suspended, [], gone - a.cleared, map[])
    else
      var marks := Fresh(gone - a.cleared, a.electAt);
      var elected := Elected(ActiveIds(c.members), c.creator, marks.Keys);
      if elected.None? then Done(NoBroker, [], marks, failing)
      else
        var host := elected.value;
        if a.reached then Done(Linked(host), [host], marks, map[])
        else if host == self then Done(HostFailed(host), [host], marks, failing)
        else
          var noted := Noted(failing, host, a.failAt);
          if a.failAt - noted[host] < FAILOVER_AFTER then Done(HostFailed(host), [host], marks, noted)
          else Again(host, marks[host := a.markAt], noted)
  }

  /** The attempts from the k-th on. */
  ghost function RecoveredFrom(c: Circle, self: DeviceId, gone: Times, failing: Times, env: seq<Attempt>,
      k: nat): Report
    requires k <= |env|
    decreases |env| - k
  {
    if k == |env| then Report(NoneReachable, [], gone, failing)
    else
      match Attempted(c, self, gone, failing, env[k])
      case Done(outcome, tried, marks, noted) => Report(outcome, tried, marks, noted)
      case Again(host, marks, noted) =>
        var later := RecoveredFrom(c, self, marks, noted, env, k + 1);
        later.(tried := [host] + later.tried)
  }

  /** The marks of one circle, updated in place. */
  class MeshRuntime {
    var gone: Times
    var failing: Times

    constructor ()
      ensures gone == map[] && failing == map[]
    {
      gone, failing := map[], map[];
    }

    method MarkBrokerGone(host: DeviceId, now: int)
      modifies this
      ensures gone == old(gone)[host := now] && failing == old(failing)
    {
      gone := gone[host := now];
    }

    method ClearBrokerGone(hosts: set<DeviceId>)
      modifies this
      ensures gone == old(gone) - hosts && failing == old(failing)
    {
      gone := gone - hosts;
    }

    /** Expired marks are dropped as the set is read. */
    method BrokerGoneSet(now: int) returns (ids: set<DeviceId>)
      modifies this
      ensures gone == Fresh(old(gone), now) && failing == old(failing) && ids == gone.Keys
    {
      ids := {};
      var left, kept := gone.Keys, gone;
      while left != {}
        invariant left <= gone.Keys && gone == old(gone) && failing == old(failing)
        invariant forall id :: id in ids <==> id in gone && id !in left && now - gone[id] < GONE_TTL
        invariant forall id :: id in kept <==> id in gone && (id in left || now - gone[id] < GONE_TTL)
        invariant forall id :: id in kept ==> kept[id] == gone[id]
        decreases |left|
      {
        var id :| id in left;
        left := left - {id};
        if now - gone[id] < GONE_TTL {
          ids := ids + {id};
        } else {
          kept := kept - {id};
        }
      }
      gone := kept;
      assert gone == Fresh(old(gone), now) && ids == gone.Keys;
    }

    method BrokerFailingFor(host: DeviceId, now: int) returns (time: int)
      modifies this
      ensures failing == Noted(old(failing), host, now) && gone == old(gone) && time == now - failing[host]
    {
      if host !in failing {
        failing := failing[host := now];
        return 0;
      }
      time := now - failing[host];
    }

    method TryOnce(c: Circle, self: DeviceId, a: Attempt) returns (done: Option<Outcome>, tried: seq<DeviceId>)
      modifies this
      ensures match Attempted(c, self, old(gone), old(failing), a)
        case Done(outcome, hosts, marks, noted) =>
          done == Some(outcome) && tried == hosts && gone == marks && failing == noted
        case Again(host, marks, noted) => done == None && tried == [host] && gone == marks && failing == noted
    {
      hide Elected, Fresh;
      ClearBrokerGone(a.cleared);
      if !a.allowed {
        failing := map[];
        return Some(Suspended), [];
      }
      var ids := BrokerGoneSet(a.electAt);
      var elected := ElectBroker(c, ids);
      if elected.None? {
        return Some(NoBroker), [];
      }
      var host := elected.value;
      if a.reached {
        failing := map[];
        return Some(Linked(host)), [host];
      }
      if host == self {
        return Some(HostFailed(host)), [host];
      }
      var time := BrokerFailingFor(host, a.failAt);
      if time < FAILOVER_AFTER {
        return Some(HostFailed(host)), [host];
      }
      MarkBrokerGone(host, a.markAt);
      return None, [host];
    }

    /** At most one attempt more than the circle has members. */
    method RecoverCircleMesh(c: Circle, self: DeviceId, allowed: bool, env: seq<Attempt>)
      returns (outcome: Outcome, tried: seq<DeviceId>)
      requires |env| == |c.members| + 1
      modifies this
      ensures Report(outcome, tried, gone, failing) ==
        if allowed then RecoveredFrom(c, self, old(gone), old(failing), env, 0)
          else Report(Suspended, [], old(gone), old(failing))
    {
      tried := [];
      if !allowed {
        return Suspended, [];
      }
      hide Attempted;
      var attempt := 0;
      ghost var goal := RecoveredFrom(c, self, gone, failing, env, 0);
      assert goal == Prefixed(tried, goal);
      while attempt < |c.members| + 1
        invariant 0 <= attempt <= |env|
        invariant goal == Prefixed(tried, RecoveredFrom(c, self, gone, failing, env, attempt))
      {
        var done, hosts := TryOnce(c, self, env[attempt]);
        ghost var before := tried;
        tried := tried + hosts;
        if done.Some? {
          return done.value, tried;
        }
        attempt := attempt + 1;
        ghost var later := RecoveredFrom(c, self, gone, failing, env, attempt).tried;
        assert before + (hosts + later) == tried + later;
      }
      assert tried + [] == tried;
      return NoneReachable, tried;
    }
  }

  ghost function Prefixed(tried: seq<DeviceId>, r: Report): Report {
    r.(tried := tried + r.tried)
  }

  /** At the k-th attempt no mark the call made has expired, and discovery has taken none of them off. */
  ghost predicate MarksHoldAt(env: seq<Attempt>, k: nat, before: seq<DeviceId>)
    requires |before| <= k < |env|
  {
    forall i :: 0 <= i < |before| ==> env[k].electAt - env[i].markAt < GONE_TTL && before[i] !in env[k].cleared
  }

  /** The same for every attempt the call goes on to make. */
  ghost predicate MarksHold(c: Circle, self: DeviceId, gone: Times, failing: Times, env: seq<Attempt>, k: nat,
      before: seq<DeviceId>)
    requires |before| <= k <= |env|
    decreases |env| - k
  {
    k == |env| ||
    (MarksHoldAt(env, k, before) &&
     match Attempted(c, self, gone, failing, env[k])
     case Done(_, _, _, _) => true
     case Again(host, marks, noted) => MarksHold(c, self, marks, noted, env, k + 1, before + [host]))
  }

  /** The hosts tried before the k-th attempt are active, marked, and marked by this call. */
  ghost predicate Marked(c: Circle, gone: Times, env: seq<Attempt>, k: nat, tried: seq<DeviceId>) {
    && k <= |env| && |tried| == k
    && (forall i :: 0 <= i < k ==>
          tried[i] in ActiveIds(c.members) && tried[i] in gone && gone[tried[i]] == env[i].markAt)
    && NoDuplicates(tried)
  }

  /** An attempt that goes on has tried an active host it had not marked before, and has marked it. */
  lemma AgainMarks(c: Circle, self: DeviceId, gone: Times, failing: Times, env: seq<Attempt>, k: nat,
      before: seq<DeviceId>)
    requires k < |env| && Marked(c, gone, env, k, before) && MarksHoldAt(env, k, before)
    ensures match Attempted(c, self, gone, failing, env[k])
      case Done(outcome, tried, _, _) =>
        outcome != NoneReachable && NoDuplicates(before + tried) && Elements(tried) <= ActiveIds(c.members)
      case Again(host, marks, _) => Marked(c, marks, env, k + 1, before + [host])
  {
    var a := env[k];
    var marks := Fresh(gone - a.cleared, a.electAt);
    StillMarked(c, gone, env, k, before);
    ElectsIff(ActiveIds(c.members), c.creator, marks.Keys);
    hide Elected, ActiveIds, Fresh;
    if a.allowed && Elected(ActiveIds(c.members), c.creator, marks.Keys).Some? {
      var host := Elected(ActiveIds(c.members), c.creator, marks.Keys).value;
      assert forall i :: 0 <= i < k ==> before[i] in marks;
      assert Elements([host]) == {host};
    } else {
      assert before + [] == before;
    }
  }

  /** With marks that hold, no host is tried twice and the call never runs out of attempts. */
  lemma {:induction false} RecoveryTriesOnce(
    c: Circle, self: DeviceId, gone: Times, failing: Times, env: seq<Attempt>, k: nat, before: seq<DeviceId>)
    requires |env| == |c.members| + 1 && Marked(c, gone, env, k, before)
    requires MarksHold(c, self, gone, failing, env, k, before)
    ensures var r := RecoveredFrom(c, self, gone, failing, env, k);
      && NoDuplicates(before + r.tried) && r.outcome != NoneReachable
      && Elements(r.tried) <= ActiveIds(c.members)
    decreases |env| - k
  {
    hide Attempted, ActiveIds;
    if k == |env| {
      assert Elements(before) <= ActiveIds(c.members);
      FitsIn(before, ActiveIds(c.members));
      ActiveFew(c.members);
    } else {
      AgainMarks(c, self, gone, failing, env, k, before);
      match Attempted(c, self, gone, failing, env[k]) {
        case Done(_, _, _, _) =>
        case Again(host, marks, noted) =>
          RecoveryTriesOnce(c, self, marks, noted, env, k + 1, before + [host]);
          var later := RecoveredFrom(c, self, marks, noted, env, k + 1).tried;
          assert before + ([host] + later) == before + [host] + later;
          assert (before + [host])[k] == host;
          assert Elements([host] + later) == {host} + Elements(later);
      }
    }
  }

  lemma StillMarked(c: Circle, gone: Times, env: seq<Attempt>, k: nat, tried: seq<DeviceId>)
    requires k < |env| && Marked(c, gone, env, k, tried) && MarksHoldAt(env, k, tried)
    ensures Marked(c, Fresh(gone - env[k].cleared, env[k].electAt), env, k, tried)
  {
    forall i | 0 <= i < k
      ensures tried[i] in Fresh(gone - env[k].cleared, env[k].electAt)
    {
      assert env[k].electAt - env[i].markAt < GONE_TTL && tried[i] !in env[k].cleared;
    }
  }

  /** Whatever marks it starts with, one recovery tries no host twice, tries only active members, and never
      reaches its last return. */
  lemma RecoveryBounded(c: Circle, self: DeviceId, gone: Times, failing: Times, env: seq<Attempt>)
    requires |env| == |c.members| + 1 && MarksHold(c, self, gone, failing, env, 0, [])
    ensures var r := RecoveredFrom(c, self, gone, failing, env, 0);
      NoDuplicates(r.tried) && Elements(r.tried) <= ActiveIds(c.members) && r.outcome != NoneReachable
  {
    RecoveryTriesOnce(c, self, gone, failing, env, 0, []);
    var r := RecoveredFrom(c, self, gone, failing, env, 0);
    assert [] + r.tried == r.tried;
  }

  /** An attempt elects a host this call has tried, and so marked, before: the mark has expired or discovery has taken
      it off. */
  ghost predicate ElectsAgain(c: Circle, gone: Times, a: Attempt, before: seq<DeviceId>) {
    && a.allowed
    && var marks := Fresh(gone - a.cleared, a.electAt);
    && var elected := Elected(ActiveIds(c.members), c.creator, marks.Keys);
    && elected.Some? && elected.value in before
  }

  /** Some attempt the call makes, from the k-th on, does. */
  ghost predicate SomeElectsAgain(c: Circle, self: DeviceId, gone: Times, failing: Times, env: seq<Attempt>, k: nat,
      before: seq<DeviceId>)
    requires k <= |env|
    decreases |env| - k
  {
    k < |env| &&
    (ElectsAgain(c, gone, env[k], before) ||
     match Attempted(c, self, gone, failing, env[k])
     case Done(_, _, _, _) => false
     case Again(host, marks, noted) => SomeElectsAgain(c, self, marks, noted, env, k + 1, before + [host]))
  }

  /** What an attempt tries is what it elects. */
  lemma TriesElected(c: Circle, self: DeviceId, gone: Times, failing: Times, a: Attempt, before: seq<DeviceId>)
    ensures match Attempted(c, self, gone, failing, a)
      case Done(_, tried, _, _) =>
        |tried| <= 1 && (ElectsAgain(c, gone, a, before) <==> |tried| == 1 && tried[0] in before)
      case Again(host, _, _) => ElectsAgain(c, gone, a, before) <==> host in before
  {
    hide Elected, ActiveIds, Fresh;
  }

  lemma {:induction false} TriesTwiceFrom(c: Circle, self: DeviceId, gone: Times, failing: Times, env: seq<Attempt>,
      k: nat, before: seq<DeviceId>)
    requires k <= |env| && NoDuplicates(before)
    ensures NoDuplicates(before + RecoveredFrom(c, self, gone, failing, env, k).tried) <==>
      !SomeElectsAgain(c, self, gone, failing, env, k, before)
    decreases |env| - k
  {
    hide Attempted, ElectsAgain;
    if k == |env| {
      assert before + [] == before;
    } else {
      TriesElected(c, self, gone, failing, env[k], before);
      match Attempted(c, self, gone, failing, env[k]) {
        case Done(_, tried, _, _) =>
          Appended(before, tried);
        case Again(host, marks, noted) =>
          var later := RecoveredFrom(c, self, marks, noted, env, k + 1).tried;
          assert before + ([host] + later) == before + [host] + later;
          Appended(before, [host]);
          if host in before {
            PrefixDistinct(before + [host], later);
          } else {
            TriesTwiceFrom(c, self, marks, noted, env, k + 1, before + [host]);
          }
      }
    }
  }

  lemma Appended(before: seq<DeviceId>, tried: seq<DeviceId>)
    requires NoDuplicates(before) && |tried| <= 1
    ensures NoDuplicates(before + tried) <==> !(|tried| == 1 && tried[0] in before)
  {
    if |tried| == 1 && tried[0] in before {
      var i :| 0 <= i < |before| && before[i] == tried[0];
      assert (before + tried)[i] == (before + tried)[|before|];
    }
  }

  lemma PrefixDistinct(a: seq<DeviceId>, b: seq<DeviceId>)
    ensures NoDuplicates(a + b) ==> NoDuplicates(a)
  {
    assert forall i :: 0 <= i < |a| ==> (a + b)[i] == a[i];
  }

  /** The exact condition: a recovery tries a host twice if and only if some attempt elects a host the call has marked
      before, and it cannot run out of attempts without that. */
  lemma TriesTwiceIff(c: Circle, self: DeviceId, gone: Times, failing: Times, env: seq<Attempt>)
    requires |env| == |c.members| + 1
    ensures var r := RecoveredFrom(c, self, gone, failing, env, 0);
      && (NoDuplicates(r.tried) <==> !SomeElectsAgain(c, self, gone, failing, env, 0, []))
      && (r.outcome == NoneReachable ==> SomeElectsAgain(c, self, gone, failing, env, 0, []))
  {
    var r := RecoveredFrom(c, self, gone, failing, env, 0);
    TriesTwiceFrom(c, self, gone, failing, env, 0, []);
    assert [] + r.tried == r.tried;
    TriesActive(c, self, gone, failing, env, 0);
    if r.outcome == NoneReachable && NoDuplicates(r.tried) {
      FitsIn(r.tried, ActiveIds(c.members));
      ActiveFew(c.members);
      assert false;
    }
  }

  lemma AttemptActive(c: Circle, self: DeviceId, gone: Times, failing: Times, a: Attempt)
    ensures match Attempted(c, self, gone, failing, a)
      case Done(outcome, tried, _, _) => outcome != NoneReachable && Elements(tried) <= ActiveIds(c.members)
      case Again(host, _, _) => host in ActiveIds(c.members)
  {
    ElectsIff(ActiveIds(c.members), c.creator, Fresh(gone - a.cleared, a.electAt).Keys);
    hide Elected, ActiveIds, Fresh;
  }

  /** Only active hosts are tried, and one at every attempt if the call runs out of them. */
  lemma {:induction false} TriesActive(c: Circle, self: DeviceId, gone: Times, failing: Times, env: seq<Attempt>,
      k: nat)
    requires k <= |env|
    ensures var r := RecoveredFrom(c, self, gone, failing, env, k);
      Elements(r.tried) <= ActiveIds(c.members) && (r.outcome == NoneReachable ==> |r.tried| == |env| - k)
    decreases |env| - k
  {
    if k >= |env| {
    } else {
      AttemptActive(c, self, gone, failing, env[k]);
      hide Attempted, ActiveIds;
      match Attempted(c, self, gone, failing, env[k]) {
        case Done(_, _, _, _) =>
        case Again(host, marks, noted) =>
          TriesActive(c, self, marks, noted, env, k + 1);
          var later := RecoveredFrom(c, self, marks, noted, env, k + 1).tried;
          assert Elements([host] + later) == {host} + Elements(later);
      }
    }
  }

  /** An active device that has no mark on itself always has a broker to try, and never marks itself. */
  lemma {:induction false} ActiveSelfHasBroker(c: Circle, self: DeviceId, gone: Times, failing: Times,
      env: seq<Attempt>, k: nat)
    requires k <= |env| && self in ActiveIds(c.members) && self !in gone
    ensures var r := RecoveredFrom(c, self, gone, failing, env, k); r.outcome != NoBroker && self !in r.gone
    decreases |env| - k
  {
    if k >= |env| {
    } else {
      var a := env[k];
      var marks := Fresh(gone - a.cleared, a.electAt);
      assert self in ActiveIds(c.members) - marks.Keys;
      ElectsIff(ActiveIds(c.members), c.creator, marks.Keys);
      var host := Elected(ActiveIds(c.members), c.creator, marks.Keys).value;
      if a.allowed && !a.reached && host != self {
        ActiveSelfHasBroker(c, self, marks[host := a.markAt], Noted(failing, host, a.failAt), env, k + 1);
      }
    }
  }

  /** Marks that expire during the call make it try a host again and run out of attempts. */
  lemma ExpiryRunsOut(c: Circle, self: DeviceId, host: DeviceId, env: seq<Attempt>)
    requires ActiveIds(c.members) == {host} && self != host && |c.members| == 1
    requires env == [Attempt(true, {}, 0, false, 0, 0), Attempt(true, {}, GONE_TTL, false, GONE_TTL, GONE_TTL)]
    ensures var r := RecoveredFrom(c, self, map[], map[host := -FAILOVER_AFTER], env, 0);
      r.outcome == NoneReachable && r.tried == [host, host]
  {
    var failing: Times := map[host := -FAILOVER_AFTER];
    var marked: Times := map[host := 0];
    var none: Times := map[];
    assert Fresh(none, 0) == none && none[host := 0] == marked && none.Keys == {};
    assert Fresh(marked, GONE_TTL) == none;
    OnlyHost(host, c.creator);
    assert RecoveredFrom(c, self, map[host := GONE_TTL], failing, env, 2).tried == [];
    assert RecoveredFrom(c, self, marked, failing, env, 1).tried == [host];
  }

  lemma OnlyHost(host: DeviceId, creator: DeviceId)
    ensures Elected({host}, creator, {}) == Some(host)
  {
    assert {host} - {} == {host} && Least({host}) == host;
    assert Above({host}, creator) == {} || Above({host}, creator) == {host};
  }
}
