/** Why a device is on a roster, over whole runs: a finite chain of stored admissions back to the first roster. */
module RosterChains {
  import opened Wrappers
  import opened Identity
  import opened Circles
  import opened Roster
  import opened RosterSteps
  import opened RosterRuns

  /** The stored admission of d verifies under the recorded key of its inviter, who is listed. */
  predicate Admitted(c: Circle, inviter: DeviceId, d: DeviceId) {
    && Known(c.members, inviter) && Known(c.members, d) && d in c.admissions
    && c.admissions[d].invitedBy == inviter
    && VerifyAdmission(c.id, Record(c.members, d).value, c.admissions[d], Record(c.members, inviter).value.publicKey)
  }

  /** A chain of stored admissions from a member of the first roster; the creator is one. */
  ghost predicate StoredChain(first: Circle, c: Circle, path: seq<DeviceId>) {
    var k := |path| - 1;
    if k < 0 then false
    else if k == 0 then Known(first.members, path[0])
    else StoredChain(first, c, path[..k]) && Admitted(c, path[k - 1], path[k])
  }

  ghost predicate Chained(first: Circle, c: Circle, d: DeviceId) {
    exists path :: StoredChain(first, c, path) && path[|path| - 1] == d
  }

  /** Admissions are stored only for listed devices, and a core is listed under its own key. */
  ghost predicate Listed(self: Self, c: Circle) {
    && (forall d :: d in c.admissions ==> Known(c.members, d))
    && Known(c.members, self.device) && Record(c.members, self.device).value.publicKey == self.key
  }

  ghost predicate AllChained(self: Self, first: Circle, c: Circle) {
    && Listed(self, c) && Evolves(first, c)
    && forall d :: Known(c.members, d) && !Known(first.members, d) ==> d in c.admissions && Chained(first, c, d)
  }

  lemma RootChained(first: Circle, c: Circle, d: DeviceId)
    requires Known(first.members, d)
    ensures Chained(first, c, d)
  {
    assert StoredChain(first, c, [d]) && [d][0] == d;
  }

  lemma ChainedFurther(first: Circle, c: Circle, inviter: DeviceId, d: DeviceId)
    requires Chained(first, c, inviter) && Admitted(c, inviter, d)
    ensures Chained(first, c, d)
  {
    var path :| StoredChain(first, c, path) && path[|path| - 1] == inviter;
    var longer := path + [d];
    assert longer[..|path|] == path;
    assert StoredChain(first, c, longer) && longer[|longer| - 1] == d;
  }

  lemma AdmittedStays(c: Circle, r: Circle, inviter: DeviceId, d: DeviceId)
    requires Evolves(c, r) && Admitted(c, inviter, d)
    ensures Admitted(r, inviter, d)
  {
    EvolvesKeepsKeys(c, r, inviter);
    EvolvesKeepsKeys(c, r, d);
    var i := RecordFound(c.members, d);
    var j := RecordFound(r.members, d);
  }

  lemma {:induction false} ChainStays(first: Circle, c: Circle, r: Circle, path: seq<DeviceId>)
    requires Evolves(c, r) && StoredChain(first, c, path)
    ensures StoredChain(first, r, path)
  {
    if |path| <= 1 {
    } else {
      ChainStays(first, c, r, path[..|path| - 1]);
      AdmittedStays(c, r, path[|path| - 2], path[|path| - 1]);
    }
  }

  lemma ChainedStays(first: Circle, c: Circle, r: Circle, d: DeviceId)
    requires Evolves(c, r) && Chained(first, c, d)
    ensures Chained(first, r, d)
  {
    var path :| StoredChain(first, c, path) && path[|path| - 1] == d;
    ChainStays(first, c, r, path);
  }

  /** A listed device of the roster before has its chain afterwards. */
  lemma KnownChained(self: Self, first: Circle, c: Circle, r: Circle, d: DeviceId)
    requires AllChained(self, first, c) && Evolves(c, r) && Known(c.members, d)
    ensures Chained(first, r, d) && Known(r.members, d) && (d in c.admissions ==> d in r.admissions)
  {
    EvolvesKeepsKeys(c, r, d);
    if Known(first.members, d) {
      RootChained(first, r, d);
    } else {
      ChainedStays(first, c, r, d);
    }
  }

  /** What an ingestion stored for a device it trusted and did not know. */
  lemma IngestedRecord(c: Circle, p: Proofs, r: Circle, d: DeviceId)
    requires Ingested(c, p, r) && Admissible(c, p, d) && !Known(c.members, d)
    ensures Known(r.members, d) && Candidate(p, d) && Record(r.members, d).value.deviceId == d
    ensures Record(r.members, d).value.publicKey == Pending(p.members)[d].publicKey
    ensures d !in c.admissions ==> d in r.admissions && r.admissions[d] == p.admissions[d]
  {
    var reach := Trusted(c, p);
    assert d in reach;
    var i := RecordFound(r.members, d);
    if i < |c.members| {
      KnownAt(c.members, i);
      assert false;
    }
    assert Added(c, p, reach, r, r.members[i]);
    PendingBound(p.members, d);
  }

  /** A device that a new device vouched for. */
  lemma VouchedLinks(self: Self, first: Circle, c: Circle, p: Proofs, r: Circle, inviter: DeviceId, d: DeviceId)
    requires AllChained(self, first, c) && Ingested(c, p, r) && NewVoucher(c, p, inviter, d) && !Known(c.members, d)
    requires Admissible(c, p, inviter) && Admissible(c, p, d) && Chained(first, r, inviter)
    ensures Chained(first, r, d)
  {
    IngestedRecord(c, p, r, d);
    IngestedRecord(c, p, r, inviter);
    PendingBound(p.members, d);
    assert d !in c.admissions;
    hide Ingested, Admissible, Chained;
    assert Admitted(r, inviter, d);
    ChainedFurther(first, r, inviter, d);
  }

  lemma {:induction false} IngestChains(self: Self, first: Circle, c: Circle, p: Proofs, r: Circle, path: seq<DeviceId>)
    requires Sound(self, c) && AllChained(self, first, c) && Ingested(c, p, r) && Evolves(c, r)
      && AdmissionChain(c, p, path)
    ensures Chained(first, r, path[|path| - 1])
  {
    hide Sound, AllChained, Ingested, Evolves, Chained, Admissible, Rooted, NewVoucher;
    var d := path[|path| - 1];
    ChainAdmits(c, p, path);
    if Known(c.members, d) {
      KnownChained(self, first, c, r, d);
    } else if |path| == 1 {
      RootedLinks(self, first, c, p, r, d);
    } else {
      IngestChains(self, first, c, p, r, path[..|path| - 1]);
      ChainAdmits(c, p, path[..|path| - 1]);
      VouchedLinks(self, first, c, p, r, path[|path| - 2], d);
    }
  }

  lemma ChainAdmits(c: Circle, p: Proofs, path: seq<DeviceId>)
    requires AdmissionChain(c, p, path)
    ensures Admissible(c, p, path[|path| - 1])
  {
  }

  lemma RootedLinks(self: Self, first: Circle, c: Circle, p: Proofs, r: Circle, d: DeviceId)
    requires Sound(self, c) && AllChained(self, first, c) && Ingested(c, p, r) && Evolves(c, r) && Rooted(c, p, d)
    requires !Known(c.members, d) && Admissible(c, p, d)
    ensures Chained(first, r, d)
  {
    IngestedRecord(c, p, r, d);
    PendingBound(p.members, d);
    var inviter := p.admissions[d].invitedBy;
    var i := ActiveFound(c.members, inviter);
    KnownAt(c.members, i);
    KnownChained(self, first, c, r, inviter);
    EvolvesKeepsKeys(c, r, inviter);
    RecordAt(c.members, i);
    assert Admitted(r, inviter, d);
    ChainedFurther(first, r, inviter, d);
  }

  lemma IngestKeepsChains(self: Self, first: Circle, c: Circle, p: Proofs, r: Circle)
    requires Sound(self, c) && AllChained(self, first, c) && Ingested(c, p, r)
    ensures AllChained(self, first, r)
  {
    IngestKeepsSound(self, c, p, r);
    EvolvesTransitive(first, c, r);
    EvolvesKeepsKeys(c, r, self.device);
    forall d | Known(r.members, d) && !Known(first.members, d)
      ensures d in r.admissions && Chained(first, r, d)
    {
      if Known(c.members, d) {
        KnownChained(self, first, c, r, d);
      } else {
        var i := RecordFound(r.members, d);
        NewIsAdmissible(c, p, r, i);
        var path :| AdmissionChain(c, p, path) && path[|path| - 1] == d;
        IngestChains(self, first, c, p, r, path);
      }
    }
    forall d | d in r.admissions
      ensures Known(r.members, d)
    {
      if d in c.admissions {
        EvolvesKeepsKeys(c, r, d);
      }
    }
  }

  lemma NewIsAdmissible(c: Circle, p: Proofs, r: Circle, i: nat)
    requires Ingested(c, p, r) && i < |r.members| && !Known(c.members, r.members[i].deviceId)
    ensures Admissible(c, p, r.members[i].deviceId) && r.members[i].deviceId in r.admissions
  {
    if i < |c.members| {
      assert r.members[i].deviceId == c.members[i].deviceId;
      KnownAt(c.members, i);
      assert false;
    }
    assert Added(c, p, Trusted(c, p), r, r.members[i]);
  }

  /** A step that lists no new device, and stores admissions only for listed ones. */
  lemma SameListChains(self: Self, first: Circle, c: Circle, r: Circle)
    requires AllChained(self, first, c) && Evolves(c, r) && |r.members| == |c.members|
    requires forall d :: d in r.admissions ==> d in c.admissions || Known(c.members, d)
    ensures AllChained(self, first, r)
  {
    EvolvesTransitive(first, c, r);
    EvolvesKeepsKeys(c, r, self.device);
    forall d | Known(r.members, d)
      ensures Known(c.members, d)
    {
      var i := RecordFound(r.members, d);
      assert c.members[i].deviceId == d;
      KnownAt(c.members, i);
    }
    forall d | Known(r.members, d) && !Known(first.members, d)
      ensures d in r.admissions && Chained(first, r, d)
    {
      KnownChained(self, first, c, r, d);
    }
    forall d | d in r.admissions
      ensures Known(r.members, d)
    {
      EvolvesKeepsKeys(c, r, d);
    }
  }

  lemma VouchKeepsChains(self: Self, first: Circle, c: Circle, now: Text)
    requires Sound(self, c) && AllChained(self, first, c)
    ensures AllChained(self, first, Vouched(c, self, now))
  {
    VouchKeepsSound(self, c, now);
    MembersKnown(c.members);
    if Active(c.members, self.device).Some? {
      VouchingEstablishes(c, self, c.members, now);
      var r := Vouched(c, self, now);
      forall d | d in r.admissions && d !in c.admissions
        ensures Known(c.members, d)
      {
        var i :| 0 <= i < |c.members| && c.members[i].deviceId == d;
      }
      SameListChains(self, first, c, r);
    }
  }

  lemma PairKeepsChains(self: Self, first: Circle, c: Circle, joiner: Member, now: Text)
    requires Sound(self, c) && AllChained(self, first, c)
    ensures AllChained(self, first, Admit(c, joiner, SignAdmission(self.key, c.id, joiner, self.device, now)))
  {
    var d := joiner.deviceId;
    var adm := SignAdmission(self.key, c.id, joiner, self.device, now);
    var r := Admit(c, joiner, adm);
    AdmitKeepsSound(self, c, joiner, adm);
    if Known(c.members, d) {
      SameListChains(self, first, c, r);
    } else {
      EvolvesTransitive(first, c, r);
      EvolvesKeepsKeys(c, r, self.device);
      var added := Joined(joiner, adm, d in c.revocations);
      forall x | Known(r.members, x)
        ensures x == d || Known(c.members, x)
      {
        RecordAppend(c.members, [added], x);
      }
      RecordAppend(c.members, [added], d);
      assert Record([added], d) == Some(added);
      KnownChained(self, first, c, r, self.device);
      assert d !in c.admissions;
      assert Admitted(r, self.device, d);
      ChainedFurther(first, r, self.device, d);
      forall x | Known(r.members, x) && !Known(first.members, x)
        ensures x in r.admissions && Chained(first, r, x)
      {
        if x != d {
          KnownChained(self, first, c, r, x);
        }
      }
      forall x | x in r.admissions
        ensures Known(r.members, x)
      {
        if x != d {
          EvolvesKeepsKeys(c, r, x);
        }
      }
    }
  }

  lemma StepKeepsChains(self: Self, first: Circle, c: Circle, step: Step, r: Circle)
    requires Sound(self, c) && AllChained(self, first, c) && Next(self, c, step, r)
    ensures AllChained(self, first, r)
  {
    match step
    case Ingest(p) => IngestKeepsChains(self, first, c, p, r);
    case Vouch(now) => VouchKeepsChains(self, first, c, now);
    case Remove(d, now) =>
      RemoveKeepsSound(self, c, d, now);
      SameListChains(self, first, c, r);
    case Merge(incoming, now) =>
      var merged := c.(members := HintsMerged(c.members, self, incoming, now));
      MergeOnlyHints(c.members, self, incoming, now);
      HintsKeepSound(self, c, merged.members);
      SameListChains(self, first, c, merged);
      VouchKeepsChains(self, first, merged, now);
    case Pair(joiner, now) =>
      var admitted := Admit(c, joiner, SignAdmission(self.key, c.id, joiner, self.device, now));
      PairKeepsChains(self, first, c, joiner, now);
      AdmitKeepsSound(self, c, joiner, SignAdmission(self.key, c.id, joiner, self.device, now));
      VouchKeepsChains(self, first, admitted, now);
  }

  lemma FirstChained(self: Self, first: Circle)
    requires Listed(self, first)
    ensures AllChained(self, first, first)
  {
  }

  lemma {:induction false} RunKeepsChains(self: Self, run: seq<Circle>, steps: seq<Step>, j: nat)
    requires Run(self, run, steps) && Sound(self, run[0]) && Listed(self, run[0]) && j < |run|
    ensures AllChained(self, run[0], run[j])
    decreases j
  {
    if j == 0 {
      FirstChained(self, run[0]);
    } else {
      RunKeepsChains(self, run, steps, j - 1);
      RunKeepsSound(self, run, steps, 0, j - 1);
      StepKeepsChains(self, run[0], run[j - 1], steps[j - 1], run[j]);
    }
  }

  /** Over every run, each listed device that was not on the first roster has a finite chain of stored admissions,
      each verifying under the recorded key of its inviter, back to a member of the first roster. */
  lemma EveryMemberChained(self: Self, run: seq<Circle>, steps: seq<Step>, j: nat, d: DeviceId)
    requires Run(self, run, steps) && Sound(self, run[0]) && Listed(self, run[0]) && j < |run|
    requires Known(run[j].members, d)
    ensures exists path :: StoredChain(run[0], run[j], path) && path[|path| - 1] == d
  {
    RunKeepsChains(self, run, steps, j);
    if Known(run[0].members, d) {
      RootChained(run[0], run[j], d);
    }
    assert Chained(run[0], run[j], d);
  }

  /** Runs may start where circles come from: a new circle is such a roster. */
  lemma CreatedListed(self: Self, id: Text, groupKey: Bytes, hostname: Text, now: Text)
    requires MemberKeyBound(self.device, self.key)
    ensures Listed(self, Vouched(NewCircle(self, id, groupKey, hostname, now), self, now))
  {
    var first := NewCircle(self, id, groupKey, hostname, now);
    CreatedSound(self, id, groupKey, hostname, now);
    MembersKnown(first.members);
    VouchingEstablishes(first, self, first.members, now);
  }

  /** And so is the roster a joiner gets with its welcome, if it lists the joiner under its own key. */
  lemma WelcomedListed(self: Self, c: Circle, joiner: Member, now: Text)
    requires Sound(self, c) && Listed(self, c)
    requires Known(c.members, joiner.deviceId) ==>
      Record(c.members, joiner.deviceId).value.publicKey == joiner.publicKey
    ensures Listed(Self(joiner.deviceId, joiner.publicKey),
                   Admit(c, joiner, SignAdmission(self.key, c.id, joiner, self.device, now)))
  {
    var d := joiner.deviceId;
    var r := Admit(c, joiner, SignAdmission(self.key, c.id, joiner, self.device, now));
    AdmitKeepsSound(self, c, joiner, r.admissions[d]);
    if !Known(c.members, d) {
      RecordAppend(c.members, r.members[|c.members|..], d);
    }
    forall x | x in r.admissions
      ensures Known(r.members, x)
    {
      if x != d {
        EvolvesKeepsKeys(c, r, x);
      }
    }
  }
}
