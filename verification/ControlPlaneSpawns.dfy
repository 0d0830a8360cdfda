/** When a spawn call loses its response channel, over all runs of the control plane. */
module ControlPlaneSpawns {
  import opened SpawnCalls
  import P = ControlPlane

  ghost predicate SpawnRun(x: seq<Spawns>, ops: seq<SpawnOp>) {
    && |x| == |ops| + 1 && x[0] == Spawns(map[], [], [])
    && forall k :: 0 <= k < |ops| ==> x[k + 1] == SpawnStep(x[k], ops[k])
  }

  lemma {:induction false} AlwaysSound(x: seq<Spawns>, ops: seq<SpawnOp>, k: nat)
    requires SpawnRun(x, ops) && k < |x|
    ensures SpawnSound(x[k])
  {
    if k > 0 {
      AlwaysSound(x, ops, k - 1);
      SpawnStepKeeps(x[k - 1], ops[k - 1]);
    }
  }

  /** Some step before k hit the call. */
  ghost predicate WasHit(x: seq<Spawns>, ops: seq<SpawnOp>, k: nat, c: nat)
    requires k <= |ops| < |x|
  {
    exists j :: 0 <= j < k && Hit(x[j], ops[j], c)
  }

  lemma WasHitNext(x: seq<Spawns>, ops: seq<SpawnOp>, k: nat, c: nat)
    requires 0 < k <= |ops| < |x|
    ensures WasHit(x, ops, k, c) <==> WasHit(x, ops, k - 1, c) || Hit(x[k - 1], ops[k - 1], c)
  {
    if WasHit(x, ops, k - 1, c) {
      var j :| 0 <= j < k - 1 && Hit(x[j], ops[j], c);
      assert Hit(x[j], ops[j], c) && j < k;
    }
  }

  lemma {:induction false} LostExactly(x: seq<Spawns>, ops: seq<SpawnOp>, k: nat, c: nat)
    requires SpawnRun(x, ops) && k < |x|
    ensures Lost(x[k], c) <==> WasHit(x, ops, k, c)
  {
    if k > 0 {
      LostExactly(x, ops, k - 1, c);
      AlwaysSound(x, ops, k - 1);
      LostStep(x[k - 1], ops[k - 1], c);
      WasHitNext(x, ops, k, c);
    }
  }

  function SpawnsOf(states: seq<P.State>): (r: seq<Spawns>)
    ensures |r| == |states| && forall k :: 0 <= k < |r| ==> r[k] == states[k].spawns
  {
    seq(|states|, k requires 0 <= k < |states| => states[k].spawns)
  }

  function SpawnOps(states: seq<P.State>, actions: seq<P.Action>): (r: seq<SpawnOp>)
    requires |actions| <= |states|
    ensures |r| == |actions| && forall k :: 0 <= k < |r| ==> r[k] == P.EffectOf(states[k], actions[k]).spawn
  {
    seq(|actions|, k requires 0 <= k < |actions| => P.EffectOf(states[k], actions[k]).spawn)
  }

  lemma RunSpawns(states: seq<P.State>, actions: seq<P.Action>)
    requires P.Run(states, actions)
    ensures SpawnRun(SpawnsOf(states), SpawnOps(states, actions))
  {
    var x, ops := SpawnsOf(states), SpawnOps(states, actions);
    forall k | 0 <= k < |ops| ensures x[k + 1] == SpawnStep(x[k], ops[k]) {
      assert states[k + 1] == P.Step(states[k], actions[k]);
    }
  }

  /** A call loses its channel if and only if, while it was pending, another call with its id
      inserted its request or gave up. */
  lemma ChannelLostExactly(states: seq<P.State>, actions: seq<P.Action>, k: nat, c: nat)
    requires P.Run(states, actions) && k < |states|
    ensures Lost(states[k].spawns, c)
       <==> exists j :: 0 <= j < k && Hit(states[j].spawns, P.EffectOf(states[j], actions[j]).spawn, c)
  {
    var x, ops := SpawnsOf(states), SpawnOps(states, actions);
    RunSpawns(states, actions);
    LostExactly(x, ops, k, c);
    assert forall j :: 0 <= j < k ==>
      (Hit(x[j], ops[j], c) <==> Hit(states[j].spawns, P.EffectOf(states[j], actions[j]).spawn, c));
  }

  /** So a call that ends with a dropped channel was hit; and with distinct ids none is. */
  lemma DroppedWasHit(states: seq<P.State>, actions: seq<P.Action>, k: nat, c: nat)
    requires P.Run(states, actions) && k < |states| && c < |states[k].spawns.calls|
    requires states[k].spawns.calls[c].pc == Returned(Err(ChannelDropped))
    ensures exists j :: 0 <= j < k && Hit(states[j].spawns, P.EffectOf(states[j], actions[j]).spawn, c)
    ensures !DistinctIds(states[k].spawns)
  {
    var x, ops := SpawnsOf(states), SpawnOps(states, actions);
    RunSpawns(states, actions);
    AlwaysSound(x, ops, k);
    assert CallSound(x[k].calls[c]);
    ChannelLostExactly(states, actions, k, c);
    var j :| 0 <= j < k && Hit(x[j], ops[j], c);
    if DistinctIds(x[k]) {
      DistinctBefore(x, ops, j, k);
      DistinctNeverHit(x[j], ops[j], c);
    }
  }

  lemma {:induction false} DistinctBefore(x: seq<Spawns>, ops: seq<SpawnOp>, j: nat, k: nat)
    requires SpawnRun(x, ops) && j <= k < |x| && DistinctIds(x[k])
    ensures DistinctIds(x[j])
    decreases k - j
  {
    if j < k {
      IdsKept(x[k - 1], ops[k - 1]);
      DistinctBefore(x, ops, j, k - 1);
    }
  }
}
