/** Whom the preview of a removal reports as cut off, in terms of the members and records. */
module RemovalEffects {
  import opened Identity
  import opened Circles
  import opened RosterSteps
  import opened Removal

  /** They are exactly the active others that stay and have no key-agreement record, in roster order. */
  lemma {:induction false} PlannedIs(c: Circle, self: Self, targets: seq<DeviceId>, members: seq<Member>)
    returns (at: seq<int>)
    ensures var out := PlannedCutOff(c, self, targets, members);
      && |at| == |out| && (forall k :: 0 <= k < |at| ==> 0 <= at[k] < |members| && out[k] == members[at[k]].deviceId)
      && (forall k, l :: 0 <= k < l < |at| ==> at[k] < at[l])
      && (forall i :: i in at <==>
            && 0 <= i < |members| && !members[i].revoked && members[i].deviceId != self.device
            && members[i].deviceId !in targets && members[i].deviceId !in c.kexKeys)
  {
    if members == [] {
      at := [];
    } else {
      var n := |members| - 1;
      var front := PlannedIs(c, self, targets, members[..n]);
      assert forall i :: 0 <= i < n ==> members[..n][i] == members[i];
      var m := members[n];
      if !m.revoked && m.deviceId != self.device && m.deviceId !in targets && m.deviceId !in c.kexKeys {
        at := front + [n];
        assert forall i :: i in at <==> i in front || i == n;
      } else {
        at := front;
      }
    }
  }
}
