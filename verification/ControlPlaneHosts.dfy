/** When a connected host is in the hub, over all runs of the control plane. */
module ControlPlaneHosts {
  import opened Hosts
  import P = ControlPlane

  ghost predicate HostRun(hosts: seq<Hosts>, ops: seq<HostOp>) {
    |hosts| == |ops| + 1 && forall k :: 0 <= k < |ops| ==> hosts[k + 1] == HostStep(hosts[k], ops[k])
  }

  /** Loop l enters its name in the hub. */
  predicate Joins(h: Hosts, op: HostOp, l: nat) { op == JoinHub(l) && At(h, l, Connected) }

  /** Another loop of the same name enters it in the hub, or takes it out. */
  predicate Displaces(h: Hosts, op: HostOp, m: nat) {
    && m < |h.loops|
    && (op.JoinHub? || op.LeaveHub?) && op.l != m
    && At(h, op.l, if op.JoinHub? then Connected else Closing)
    && h.loops[op.l].name == h.loops[m].name
  }

  predicate InHub(h: Hosts, m: nat) { m < |h.loops| && h.loops[m].name in h.hub && h.hub[h.loops[m].name] == m }

  /** Between its entry and its own cleanup. */
  predicate Staying(pc: LoopPc) { pc != Connected && pc != HubLeft && pc != Finished }

  /** Loops keep their names, and what has left does not come back. */
  lemma LoopOnward(h: Hosts, op: HostOp, m: nat)
    requires m < |h.loops|
    ensures var g := HostStep(h, op);
            && m < |g.loops| && g.loops[m].name == h.loops[m].name
            && (h.loops[m].pc != Connected ==> g.loops[m].pc != Connected)
            && (Staying(g.loops[m].pc) ==> Staying(h.loops[m].pc) || Joins(h, op, m))
  {
  }

  lemma EntryStep(h: Hosts, op: HostOp, m: nat)
    requires m < |h.loops| && Staying(h.loops[m].pc) && m < |HostStep(h, op).loops|
            && Staying(HostStep(h, op).loops[m].pc)
    ensures InHub(HostStep(h, op), m) <==> InHub(h, m) && !Displaces(h, op, m)
  {
  }

  lemma JoinEnters(h: Hosts, op: HostOp, m: nat)
    requires Joins(h, op, m)
    ensures var g := HostStep(h, op); m < |g.loops| && InHub(g, m) && Staying(g.loops[m].pc)
  {
  }

  lemma {:induction false} EntryLasts(hosts: seq<Hosts>, ops: seq<HostOp>, j: nat, k: nat, m: nat)
    requires HostRun(hosts, ops) && j < k < |hosts|
    requires Joins(hosts[j], ops[j], m)
    ensures m < |hosts[k].loops| && hosts[k].loops[m].pc != Connected
            && hosts[k].loops[m].name == hosts[j].loops[m].name
    ensures Staying(hosts[k].loops[m].pc) ==>
              (InHub(hosts[k], m) <==> forall i :: j < i < k ==> !Displaces(hosts[i], ops[i], m))
    decreases k - j
  {
    if k == j + 1 {
      JoinEnters(hosts[j], ops[j], m);
      LoopOnward(hosts[j], ops[j], m);
    } else {
      EntryLasts(hosts, ops, j, k - 1, m);
      LoopOnward(hosts[k - 1], ops[k - 1], m);
      if Staying(hosts[k].loops[m].pc) {
        EntryStep(hosts[k - 1], ops[k - 1], m);
      }
    }
  }

  function HostsOf(states: seq<P.State>): (r: seq<Hosts>)
    ensures |r| == |states| && forall k :: 0 <= k < |r| ==> r[k] == states[k].hosts
  {
    seq(|states|, k requires 0 <= k < |states| => states[k].hosts)
  }

  function HostOps(states: seq<P.State>, actions: seq<P.Action>): (r: seq<HostOp>)
    requires |actions| <= |states|
    ensures |r| == |actions| && forall k :: 0 <= k < |r| ==> r[k] == P.EffectOf(states[k], actions[k]).host
  {
    seq(|actions|, k requires 0 <= k < |actions| => P.EffectOf(states[k], actions[k]).host)
  }

  lemma RunHosts(states: seq<P.State>, actions: seq<P.Action>)
    requires P.Run(states, actions)
    ensures HostRun(HostsOf(states), HostOps(states, actions))
  {
    var h, ops := HostsOf(states), HostOps(states, actions);
    forall k | 0 <= k < |ops| ensures h[k + 1] == HostStep(h[k], ops[k]) {
      assert states[k + 1] == P.Step(states[k], actions[k]);
    }
  }

  /** A loop that joined at step j and has not cleaned up by step k holds its name in the hub
      if and only if no other loop of that name has joined or left in between. */
  lemma ConnectedIsInHub(states: seq<P.State>, actions: seq<P.Action>, j: nat, k: nat, m: nat)
    requires P.Run(states, actions) && j < k < |states|
    requires Joins(states[j].hosts, P.EffectOf(states[j], actions[j]).host, m)
    requires m < |states[k].hosts.loops| && Staying(states[k].hosts.loops[m].pc)
    ensures InHub(states[k].hosts, m)
       <==> forall i :: j < i < k ==> !Displaces(states[i].hosts, P.EffectOf(states[i], actions[i]).host, m)
  {
    var h, ops := HostsOf(states), HostOps(states, actions);
    RunHosts(states, actions);
    EntryLasts(h, ops, j, k, m);
    assert forall i :: j < i < k ==>
      (Displaces(h[i], ops[i], m) <==> Displaces(states[i].hosts, P.EffectOf(states[i], actions[i]).host, m));
  }
}
