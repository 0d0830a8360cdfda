/** What holds in every run of the control plane. */
module ControlPlaneSafety {
  import opened Common
  import H = Hosts
  import T = Sessions
  import F = StdinFlow
  import C = SpawnCalls
  import D = StdinDelivery
  import S = ControlPlaneSpawns
  import opened ControlPlane

  /** The parts of the state talk about the same objects, and a local session is one whose
      receiver went to its PTY writer before anybody could see it. */
  ghost predicate Aligned(s: State) {
    && |s.hosts.loops| == |s.flow.channels|
    && |s.table.objects| == |s.flow.stdins|
    && forall i :: 0 <= i < |s.table.objects| ==> s.flow.stdins[i].pty == !s.table.objects[i].managed
  }

  /** A loop that has not broken off yet. */
  predicate Serving(pc: H.LoopPc) { pc != H.Closing && pc != H.HubLeft && pc != H.Finished }

  /** A queue lives as long as its loop; a loop whose socket failed has broken off; and a loop
      has a message in hand exactly while it is sending one. */
  ghost predicate QueuesFollow(s: State) {
    forall l :: 0 <= l < |s.hosts.loops| && l < |s.flow.channels| ==>
        QueueFollows(s.flow.channels[l], s.hosts.loops[l].pc)
  }

  ghost predicate QueueFollows(c: F.Channel, pc: H.LoopPc) {
    && (c.open <==> pc != H.Finished) && (c.broken ==> !Serving(pc))
    && (c.hand.Some? <==> pc == H.Up(H.Sending))
  }

  ghost predicate Safe(s: State) {
    H.NoGhosts(s.hosts) && T.TableSafe(s.table) && D.Delivery(s.flow) && Aligned(s) && QueuesFollow(s)
  }

  lemma FlowSizes(x: F.Flow, op: F.FlowOp)
    ensures var y := F.FlowStep(x, op);
      && |y.stdins| == |x.stdins| + (if op.NewStdin? then 1 else 0)
      && |y.channels| == |x.channels| + (if op.NewChannel? then 1 else 0)
      && (forall i :: 0 <= i < |x.stdins| ==> y.stdins[i].pty == x.stdins[i].pty)
      && (op.NewStdin? ==> y.stdins[|x.stdins|].pty == op.pty)
  {
  }

  lemma TableSizes(t: T.Table, op: T.TableOp)
    ensures var u := T.TableStep(t, op);
      && |u.objects| == |t.objects|
           + (if (op.Register? && T.CanRegister(t, op.id)) || (op.Create? && !T.Full(t)) then 1 else 0)
      && (forall i :: 0 <= i < |t.objects| ==>
           u.objects[i].managed == t.objects[i].managed && u.objects[i].id == t.objects[i].id)
      && (|u.objects| > |t.objects| ==> u.objects[|t.objects|].managed == op.Register?)
  {
  }

  lemma HostSizes(h: H.Hosts, op: H.HostOp)
    ensures |H.HostStep(h, op).loops| == |h.loops| + (if op.Accept? then 1 else 0)
  {
  }

  /** Objects are created in both parts of the state at once. */
  lemma EffectsMatch(s: State, a: Action)
    ensures var e := EffectOf(s, a);
      && (e.flow.NewChannel? <==> e.host.Accept?)
      && (e.flow.NewStdin? <==>
            (e.table.Register? && T.CanRegister(s.table, e.table.id)) || (e.table.Create? && !T.Full(s.table)))
      && (e.flow.NewStdin? ==> e.flow.pty == e.table.Create?)
  {
  }

  lemma AlignedKept(s: State, a: Action)
    requires Aligned(s)
    ensures Aligned(Step(s, a))
  {
    var e := EffectOf(s, a);
    FlowSizes(s.flow, e.flow);
    TableSizes(s.table, e.table);
    HostSizes(s.hosts, e.host);
    EffectsMatch(s, a);
  }

  lemma QueueStep(x: F.Flow, op: F.FlowOp, l: nat)
    requires l < |x.channels|
    ensures var y := F.FlowStep(x, op);
            && l < |y.channels|
            && (y.channels[l].open <==> x.channels[l].open && op != F.CloseChannel(l))
            && (y.channels[l].broken ==> x.channels[l].broken || op == F.SocketTakes(l, false))
  {
  }

  /** What becomes of the message in a loop's hand. */
  lemma HandStep(x: F.Flow, op: F.FlowOp, l: nat)
    requires l < |x.channels|
    ensures var c, d := x.channels[l], F.FlowStep(x, op).channels[l];
            d.hand.Some? <==>
              if c.hand.Some? then !(op.SocketTakes? && op.l == l) && op != F.CloseChannel(l)
              else op == F.Dequeue(l) && c.queue != [] && !c.broken
  {
  }

  /** What becomes of a loop that is sending, or of one that is not. */
  lemma SendingStep(h: H.Hosts, op: H.HostOp, l: nat)
    requires l < |h.loops|
    ensures var before, after := h.loops[l].pc, H.HostStep(h, op).loops[l].pc;
            after == H.Up(H.Sending) <==>
              if before == H.Up(H.Sending) then !((op.Work? && op.l == l && op.task != H.Sending) || op == H.Break(l))
              else before.Up? && op == H.Work(l, H.Sending)
  {
  }

  lemma SendingEffects(s: State, a: Action, l: nat)
    requires l < |s.hosts.loops| && l < |s.flow.channels|
    ensures var e, pc := EffectOf(s, a), s.hosts.loops[l].pc;
            && (pc == H.Up(H.Sending) ==>
                  && ((e.host.Work? && e.host.l == l) || e.host == H.Break(l) <==> e.flow.SocketTakes? && e.flow.l == l)
                  && (e.host.Work? && e.host.l == l ==> e.host.task == H.Idle))
            && (pc != H.Up(H.Sending) ==>
                  (e.host == H.Work(l, H.Sending) <==>
                     e.flow == F.Dequeue(l) && s.flow.channels[l].queue != [] && pc == H.Up(H.Idle)))
            && (e.flow == F.Dequeue(l) ==> pc == H.Up(H.Idle) && s.flow.channels[l].queue != [])
            && (e.flow == F.CloseChannel(l) ==> pc == H.HubLeft)
  {
  }

  lemma HandFollows(s: State, a: Action, l: nat)
    requires l < |s.hosts.loops| && l < |s.flow.channels| && QueueFollows(s.flow.channels[l], s.hosts.loops[l].pc)
    ensures F.FlowStep(s.flow, EffectOf(s, a).flow).channels[l].hand.Some?
       <==> H.HostStep(s.hosts, EffectOf(s, a).host).loops[l].pc == H.Up(H.Sending)
  {
    var e := EffectOf(s, a);
    HandStep(s.flow, e.flow, l);
    SendingStep(s.hosts, e.host, l);
    SendingEffects(s, a, l);
  }

  lemma LoopStep(h: H.Hosts, op: H.HostOp, l: nat)
    requires l < |h.loops|
    ensures var g := H.HostStep(h, op);
            && l < |g.loops|
            && (g.loops[l].pc == H.Finished <==>
                 h.loops[l].pc == H.Finished || (op == H.LeaveRegistry(l) && h.loops[l].pc == H.HubLeft))
            && (!Serving(h.loops[l].pc) ==> !Serving(g.loops[l].pc))
            && (op == H.Break(l) && h.loops[l].pc.Up? ==> !Serving(g.loops[l].pc))
  {
  }

  /** The queue goes with the last step of its loop, and a failed send ends the loop. */
  lemma QueueEffects(s: State, a: Action, l: nat)
    requires l < |s.hosts.loops|
    ensures var e := EffectOf(s, a);
            && (e.flow == F.CloseChannel(l) <==> e.host == H.LeaveRegistry(l) && s.hosts.loops[l].pc == H.HubLeft)
            && (e.flow == F.SocketTakes(l, false) ==> e.host == H.Break(l) && s.hosts.loops[l].pc.Up?)
  {
  }

  lemma FreshLoop(s: State, a: Action)
    requires Aligned(s) && |Step(s, a).hosts.loops| > |s.hosts.loops|
    ensures var t := Step(s, a); var l := |s.hosts.loops|;
            |t.hosts.loops| == l + 1 && l < |t.flow.channels| && QueueFollows(t.flow.channels[l], t.hosts.loops[l].pc)
  {
  }

  lemma QueuesKept(s: State, a: Action)
    requires Aligned(s) && QueuesFollow(s)
    ensures QueuesFollow(Step(s, a))
  {
    var t, e := Step(s, a), EffectOf(s, a);
    HostSizes(s.hosts, e.host);
    forall l | 0 <= l < |t.hosts.loops| && l < |t.flow.channels|
      ensures QueueFollows(t.flow.channels[l], t.hosts.loops[l].pc)
    {
      if l < |s.hosts.loops| {
        assert QueueFollows(s.flow.channels[l], s.hosts.loops[l].pc);
        QueueStep(s.flow, e.flow, l);
        LoopStep(s.hosts, e.host, l);
        QueueEffects(s, a, l);
        HandFollows(s, a, l);
      } else {
        FreshLoop(s, a);
      }
    }
  }

  lemma InitialSafe(max: nat)
    ensures Safe(InitialState(max))
  {
  }

  lemma SafeKept(s: State, a: Action)
    requires Safe(s)
    ensures Safe(Step(s, a))
  {
    var e := EffectOf(s, a);
    H.HostStepKeeps(s.hosts, e.host);
    T.TableStepKeeps(s.table, e.table);
    D.DeliveryKept(s.flow, e.flow);
    AlignedKept(s, a);
    QueuesKept(s, a);
  }

  /** In every reachable state of every interleaving. */
  lemma {:induction false} RunSafe(states: seq<State>, actions: seq<Action>, k: nat)
    requires Run(states, actions) && k < |states|
    ensures Safe(states[k])
  {
    if k == 0 {
      InitialSafe(states[0].table.max);
    } else {
      RunSafe(states, actions, k - 1);
      SafeKept(states[k - 1], actions[k - 1]);
    }
  }

  /** Calls, pending entries and answers match up throughout the run, whatever ids were drawn. */
  lemma RunSpawnsSound(states: seq<State>, actions: seq<Action>, k: nat)
    requires Run(states, actions) && k < |states|
    ensures C.SpawnSound(states[k].spawns)
  {
    S.RunSpawns(states, actions);
    S.AlwaysSound(S.SpawnsOf(states), S.SpawnOps(states, actions), k);
  }

  // --- The four guarantees, as a client would state them ---

  /** A name whose loops have all finished is in neither map, unless REST put it there. */
  lemma NoGhostHosts(states: seq<State>, actions: seq<Action>, k: nat, n: Name)
    requires Run(states, actions) && k < |states|
    requires var h := states[k].hosts;
             forall l :: 0 <= l < |h.loops| && h.loops[l].name == n ==> h.loops[l].pc == H.Finished
    ensures n !in states[k].hosts.hub
    ensures n in states[k].hosts.registry ==> states[k].hosts.registry[n] == H.ByRest
  {
    RunSafe(states, actions, k);
    H.GoneAfterCleanup(states[k].hosts, n);
  }

  /** Each session object's receiver has one holder for ever: the PTY writer for a local
      session, else the slot, or the one forwarder or pipe that took it. */
  lemma OneReceiver(states: seq<State>, actions: seq<Action>, k: nat, i: nat)
    requires Run(states, actions) && k < |states| && i < |states[k].table.objects|
    ensures i < |states[k].flow.stdins|
    ensures exists h :: F.Holds(states[k].flow, h, i)
    ensures forall h, g :: F.Holds(states[k].flow, h, i) && F.Holds(states[k].flow, g, i) ==> h == g
    ensures !states[k].table.objects[i].managed <==> F.Holds(states[k].flow, F.Pty, i)
  {
    RunSafe(states, actions, k);
    assert F.SomeHolder(states[k].flow, i);
  }

  /** Each write to a session reaches at most one socket, at most once, in order. */
  lemma StdinAtMostOnce(states: seq<State>, actions: seq<Action>, k: nat, l: nat, i: nat)
    requires Run(states, actions) && k < |states|
    requires var x := states[k].flow; l < |x.channels| && i < |x.stdins|
    ensures var x := states[k].flow; var s := x.stdins[i];
            |s.handed| <= |s.writes| && D.Inputs(x.channels[l].sent, i) <= D.Select(s.writes, s.handed, l)
  {
    RunSafe(states, actions, k);
    D.AtMostOnceInOrder(states[k].flow, l, i);
  }

  /** From step `start` on, and before step `end`, the name led to no loop but l. */
  ghost predicate HostLeadsTo(states: seq<State>, start: nat, end: nat, host: Name, l: nat) {
    forall k :: start <= k < end && k < |states| && host in states[k].hosts.hub ==> states[k].hosts.hub[host] == l
  }

  ghost predicate ForwardsFor(x: F.Flow, i: nat, host: Name) {
    forall f :: 0 <= f < |x.forwarders| && x.forwarders[f].owner == i ==> x.forwarders[f].host == host
  }

  lemma HandsOverToHub(s: State, a: Action)
    ensures var op := EffectOf(s, a).flow;
            op.HandOver? ==> op.f < |s.flow.forwarders| && op.target == Target(s, s.flow.forwarders[op.f].host)
  {
  }

  function Flows(states: seq<State>): (r: seq<F.Flow>)
    ensures |r| == |states| && forall k :: 0 <= k < |r| ==> r[k] == states[k].flow
  {
    seq(|states|, k requires 0 <= k < |states| => states[k].flow)
  }

  function FlowOps(states: seq<State>, actions: seq<Action>): (r: seq<F.FlowOp>)
    requires |actions| <= |states|
    ensures |r| == |actions| && forall k :: 0 <= k < |r| ==> r[k] == EffectOf(states[k], actions[k]).flow
  {
    seq(|actions|, k requires 0 <= k < |actions| => EffectOf(states[k], actions[k]).flow)
  }

  lemma RunFlows(states: seq<State>, actions: seq<Action>)
    requires Run(states, actions)
    ensures D.FlowRun(Flows(states), FlowOps(states, actions))
  {
    var x, ops := Flows(states), FlowOps(states, actions);
    forall k | 0 <= k < |ops| ensures x[k + 1] == F.FlowStep(x[k], ops[k]) {
      assert states[k + 1] == Step(states[k], actions[k]);
    }
  }

  /** Whatever was handed over before, while the name of a session's host leads to loop l
      only, everything is handed to l. */
  lemma StableHost(states: seq<State>, actions: seq<Action>, start: nat, k: nat, i: nat, host: Name, l: nat)
    requires Run(states, actions) && start <= k < |states| && i < |states[k].flow.stdins|
    requires HostLeadsTo(states, start, k, host, l) && ForwardsFor(states[k].flow, i, host)
    ensures D.RestTo(D.HandedAt(states[start].flow, i), states[k].flow.stdins[i].handed, l)
  {
    var x, ops := Flows(states), FlowOps(states, actions);
    RunFlows(states, actions);
    forall j | start <= j < k ensures D.HandsOnlyTo(x[j], ops[j], i, l) {
      HandsOverToHub(states[j], actions[j]);
      D.ForwardersStayAll(x, ops, j, k);
    }
    D.HandedOnlyTo(x, ops, start, k, i, l);
  }

  /** While the hub leads to one loop, which has not broken off, no write is missing: from the
      first step of such a stretch on, what was sent, is in hand, queued, held and still in
      stdin is what that loop was handed before, and then every write not handed over before. */
  lemma StdinConserved(states: seq<State>, actions: seq<Action>, start: nat, k: nat, f: nat, l: nat)
    requires Run(states, actions) && start <= k < |states|
    requires f < |states[k].flow.forwarders| && !states[k].flow.forwarders[f].pc.Stopped?
    requires l < |states[k].hosts.loops| && Serving(states[k].hosts.loops[l].pc)
    requires HostLeadsTo(states, start, k, states[k].flow.forwarders[f].host, l)
    ensures var x := states[k].flow; var i := x.forwarders[f].owner;
            && l < |x.channels| && i < |x.stdins|
            && var c, s, before := x.channels[l], x.stdins[i], D.HandedAt(states[start].flow, i);
            && |before| <= |s.writes|
            && (D.Inputs(c.sent, i) + D.Inputs(D.Hand(c), i) + D.Inputs(c.queue, i)
                + D.InHand(x.forwarders[f].pc) + s.queue)
               == D.Select(s.writes, before, l) + s.writes[|before|..]
  {
    RunSafe(states, actions, k);
    var x := states[k].flow;
    var i := x.forwarders[f].owner;
    D.SoleReader(x, f);
    StableHost(states, actions, start, k, i, x.forwarders[f].host, l);
    assert QueueFollows(x.channels[l], states[k].hosts.loops[l].pc);
    var before := D.HandedAt(states[start].flow, i);
    assert x.stdins[i].handed[..|before|] == before;
    D.NothingMissing(x, l, f, |before|);
  }

  // --- A forwarder that broke ---

  /** A session whose forwarder broke has lost its stdin for good. */
  lemma StdinLostForGood(states: seq<State>, actions: seq<Action>, j: nat, k: nat, f: nat)
    requires Run(states, actions) && j <= k < |states| && D.Halted(states[j].flow, f)
    ensures var x, y := states[j].flow, states[k].flow; var i := x.forwarders[f].owner;
            && i < |x.stdins| && !x.stdins[i].open
            && f < |y.forwarders| && y.forwarders[f] == x.forwarders[f]
            && i < |y.stdins| && y.stdins[i] == x.stdins[i]
  {
    forall m | j <= m <= k ensures D.Delivery(states[m].flow) {
      RunSafe(states, actions, m);
    }
    RunFlows(states, actions);
    D.StoppedForGood(Flows(states), FlowOps(states, actions), j, k, f);
  }

  /** Forwarder f has a write to hand over while its host is not in the hub. */
  predicate HostAway(s: State, a: Action, f: nat) {
    && a == ForwarderSends(f) && f < |s.flow.forwarders| && s.flow.forwarders[f].pc.Holding?
    && s.flow.forwarders[f].host !in s.hosts.hub
  }

  /** The hub never leads to a loop whose queue is gone. */
  lemma HubLeadsToOpen(s: State, host: Name)
    requires Safe(s) && host in s.hosts.hub
    ensures s.hosts.hub[host] < |s.flow.channels| && s.flow.channels[s.hosts.hub[host]].open
  {
    var l := s.hosts.hub[host];
    assert QueueFollows(s.flow.channels[l], s.hosts.loops[l].pc);
  }

  lemma SendsHandOver(s: State, a: Action, f: nat)
    ensures var op := EffectOf(s, a).flow;
            && (op.HandOver? && op.f == f ==> a == ForwarderSends(f) && f < |s.flow.forwarders|)
            && (a == ForwarderSends(f) && f < |s.flow.forwarders| && s.flow.forwarders[f].owner < |s.table.objects| ==>
                  op.HandOver? && op.f == f && op.target == Target(s, s.flow.forwarders[f].host))
  {
  }

  lemma BreaksWhenAway(s: State, a: Action, f: nat)
    requires Safe(s)
    ensures D.Breaks(s.flow, EffectOf(s, a).flow, f) <==> HostAway(s, a, f)
  {
    SendsHandOver(s, a, f);
    HandsOverToHub(s, a);
    if f < |s.flow.forwarders| && s.flow.forwarders[f].host in s.hosts.hub {
      HubLeadsToOpen(s, s.flow.forwarders[f].host);
    }
  }

  /** A forwarder breaks if and only if, at some step, its host is not in the hub as it is
      about to hand over a write. */
  lemma {:induction false} BrokenExactly(states: seq<State>, actions: seq<Action>, k: nat, f: nat)
    requires Run(states, actions) && k < |states|
    ensures D.Halted(states[k].flow, f) <==> WasAway(states, actions, k, f)
  {
    if k > 0 {
      BrokenExactly(states, actions, k - 1, f);
      RunSafe(states, actions, k - 1);
      BrokenStep(states[k - 1], actions[k - 1], states[k], f);
      WasAwayNext(states, actions, k, f);
    }
  }

  ghost predicate WasAway(states: seq<State>, actions: seq<Action>, k: nat, f: nat)
    requires k <= |actions| < |states|
  {
    exists j :: 0 <= j < k && HostAway(states[j], actions[j], f)
  }

  lemma WasAwayNext(states: seq<State>, actions: seq<Action>, k: nat, f: nat)
    requires 0 < k <= |actions| < |states|
    ensures WasAway(states, actions, k, f)
       <==> WasAway(states, actions, k - 1, f) || HostAway(states[k - 1], actions[k - 1], f)
  {
    if WasAway(states, actions, k - 1, f) {
      var j :| 0 <= j < k - 1 && HostAway(states[j], actions[j], f);
      assert HostAway(states[j], actions[j], f) && j < k;
    }
  }

  lemma BrokenStep(s: State, a: Action, t: State, f: nat)
    requires Safe(s) && t == Step(s, a)
    ensures D.Halted(t.flow, f) <==> D.Halted(s.flow, f) || HostAway(s, a, f)
  {
    D.HaltStep(s.flow, EffectOf(s, a).flow, f);
    BreaksWhenAway(s, a, f);
  }

  /** Every input that a loop has accepted carries the id of the session it was written to. */
  ghost predicate WireIds(s: State) {
    var channels := s.flow.channels;
    forall l, k :: (0 <= l < |channels| && 0 <= k < |channels[l].accepted| && channels[l].accepted[k].Input?) ==>
      var m := channels[l].accepted[k];
      m.owner < |s.table.objects| && m.sid == s.table.objects[m.owner].id
  }

  /** A step adds at most one message to what a loop accepted, and an input only by a hand-over. */
  lemma AcceptedGrows(x: F.Flow, op: F.FlowOp, l: nat, k: nat)
    requires var y := F.FlowStep(x, op);
             l < |y.channels| && k < |y.channels[l].accepted| && y.channels[l].accepted[k].Input?
    ensures var m := F.FlowStep(x, op).channels[l].accepted[k];
            || (l < |x.channels| && k < |x.channels[l].accepted| && m == x.channels[l].accepted[k])
            || (op.HandOver? && op.f < |x.forwarders| && m.owner == x.forwarders[op.f].owner && m.sid == op.sid)
  {
  }

  lemma HandsOverWithId(s: State, a: Action)
    ensures var op := EffectOf(s, a).flow;
            op.HandOver? ==> op.f < |s.flow.forwarders| && s.flow.forwarders[op.f].owner < |s.table.objects|
                             && op.sid == s.table.objects[s.flow.forwarders[op.f].owner].id
  {
  }

  lemma {:induction false} RunWireIds(states: seq<State>, actions: seq<Action>, k: nat)
    requires Run(states, actions) && k < |states|
    ensures WireIds(states[k])
  {
    if k > 0 {
      RunWireIds(states, actions, k - 1);
      var s, a := states[k - 1], actions[k - 1];
      var t, e := states[k], EffectOf(s, a);
      TableSizes(s.table, e.table);
      HandsOverWithId(s, a);
      forall l, j |
        0 <= l < |t.flow.channels| && 0 <= j < |t.flow.channels[l].accepted| && t.flow.channels[l].accepted[j].Input?
        ensures var m := t.flow.channels[l].accepted[j];
                m.owner < |t.table.objects| && m.sid == t.table.objects[m.owner].id
      {
        AcceptedGrows(s.flow, e.flow, l, j);
      }
    }
  }

  /** A call's result never changes once it has returned. */
  lemma {:induction false} OneResult(states: seq<State>, actions: seq<Action>, j: nat, k: nat, c: nat)
    requires Run(states, actions) && j <= k < |states|
    requires c < |states[j].spawns.calls| && states[j].spawns.calls[c].pc.Returned?
    ensures c < |states[k].spawns.calls| && states[k].spawns.calls[c].pc == states[j].spawns.calls[c].pc
    decreases k - j
  {
    if j < k {
      OneResult(states, actions, j, k - 1, c);
      var s := states[k - 1];
      C.IdsKept(s.spawns, EffectOf(s, actions[k - 1]).spawn);
      C.ResultFinal(s.spawns, EffectOf(s, actions[k - 1]).spawn, c);
    }
  }

  // --- Registered before told ---

  /** Loop l is past `register_session` for this reply and has not answered yet. */
  predicate PastRegister(h: H.Hosts, l: nat, reply: H.Reply) {
    H.At(h, l, H.Up(H.OkTake(reply))) || H.At(h, l, H.Up(H.OkReply(reply)))
  }

  /** At step j loop l went through `register_session` for this reply: the session was in the
      table when it came out, or the table had been full when it went in. From then up to step k
      it was on its way to the answer. */
  ghost predicate RegisteredFirst(states: seq<State>, actions: seq<Action>, j: nat, k: nat, l: nat, reply: H.Reply) {
    && j < k < |states| && j < |actions|
    && actions[j] == Advance(l) && H.At(states[j].hosts, l, H.Up(H.OkRegister(reply)))
    && (reply.sid in states[j + 1].table.ids || T.Full(states[j].table))
    && forall i :: j < i <= k ==> PastRegister(states[i].hosts, l, reply)
  }

  lemma OnlyThroughWork(h: H.Hosts, op: H.HostOp, l: nat, reply: H.Reply)
    requires PastRegister(H.HostStep(h, op), l, reply)
    ensures PastRegister(h, l, reply)
         || (op.Work? && op.l == l && (op.task == H.OkTake(reply) || op.task == H.OkReply(reply)) && H.Running(h, l))
  {
  }

  lemma WorkComesFrom(s: State, a: Action, reply: H.Reply)
    requires var op := EffectOf(s, a).host; op.Work? && (op.task == H.OkTake(reply) || op.task == H.OkReply(reply))
    ensures var e := EffectOf(s, a);
            || PastRegister(s.hosts, e.host.l, reply)
            || (a == Advance(e.host.l) && H.At(s.hosts, e.host.l, H.Up(H.OkRegister(reply)))
                 && e.table == T.Register(reply.sid))
  {
  }

  /** A loop gets past `register_session` only through it. */
  lemma OnlyThroughRegister(s: State, a: Action, t: State, l: nat, reply: H.Reply)
    requires t == Step(s, a) && PastRegister(t.hosts, l, reply)
    ensures PastRegister(s.hosts, l, reply)
         || (a == Advance(l) && H.At(s.hosts, l, H.Up(H.OkRegister(reply)))
             && (reply.sid in t.table.ids || T.Full(s.table)))
  {
    OnlyThroughWork(s.hosts, EffectOf(s, a).host, l, reply);
    if !PastRegister(s.hosts, l, reply) {
      WorkComesFrom(s, a, reply);
    }
  }

  /** A handler on its way to the answer has itself gone through `register_session`. */
  lemma RegisteredIsKnown(states: seq<State>, actions: seq<Action>, k: nat, l: nat, reply: H.Reply) returns (j: nat)
    requires Run(states, actions) && k < |states| && PastRegister(states[k].hosts, l, reply)
    ensures RegisteredFirst(states, actions, j, k, l, reply)
  {
    var past := seq(|states|, i requires 0 <= i < |states| => PastRegister(states[i].hosts, l, reply));
    j := LastRise(past, k);
    assert !past[j] && past[j + 1];
    OnlyThroughRegister(states[j], actions[j], states[j + 1], l, reply);
    forall i | j < i <= k ensures PastRegister(states[i].hosts, l, reply) {
      assert past[i];
    }
  }

  /** At step i loop l gave answer j, an Ok for this reply, and had gone through
      `register_session` for it at step r. */
  ghost predicate ToldAt(states: seq<State>, actions: seq<Action>, i: nat, r: nat, l: nat, reply: H.Reply, j: nat) {
    && i + 1 < |states| && i < |actions| && actions[i] == Advance(l)
    && H.At(states[i].hosts, l, H.Up(H.OkReply(reply)))
    && |states[i].spawns.answers| == j < |states[i + 1].spawns.answers|
    && states[i + 1].spawns.answers[j].req == reply.req
    && states[i + 1].spawns.answers[j].result == C.Ok(reply.shell, reply.sid)
    && RegisteredFirst(states, actions, r, i, l, reply)
  }

  /** Answers are kept, at most one is added, and an Ok only by a loop that is about to reply. */
  lemma OnlyThroughReply(s: State, a: Action)
    ensures var x, y := s.spawns.answers, Step(s, a).spawns.answers;
            x <= y && |y| <= |x| + 1
    ensures var x, y := s.spawns.answers, Step(s, a).spawns.answers;
            |x| < |y| && y[|x|].result.Ok? ==>
              && a.Advance? && a.l < |s.hosts.loops|
              && var pc := s.hosts.loops[a.l].pc;
              && pc.Up? && pc.task.OkReply?
              && y[|x|].req == pc.task.reply.req && y[|x|].result == C.Ok(pc.task.reply.shell, pc.task.reply.sid)
  {
  }

  /** The call that an answer meets is the one pending under its id at that very step. */
  lemma MetWhilePending(s: State, a: Action)
    requires |Step(s, a).spawns.answers| > |s.spawns.answers|
    ensures var x, y := s.spawns, Step(s, a).spawns.answers;
            var answer := y[|x.answers|];
            answer.call.Some? ==> answer.req in x.pending && x.pending[answer.req] == answer.call.value
  {
  }

  /** Registered before told, for every answer of every handler. */
  lemma {:induction false} AnswersAreKnown(states: seq<State>, actions: seq<Action>, k: nat, j: nat)
      returns (i: nat, r: nat, l: nat, reply: H.Reply)
    requires Run(states, actions) && k < |states|
    requires j < |states[k].spawns.answers| && states[k].spawns.answers[j].result.Ok?
    ensures i < k && ToldAt(states, actions, i, r, l, reply, j)
    ensures states[i + 1].spawns.answers[j] == states[k].spawns.answers[j]
  {
    if k == 0 {
      assert false;
    } else {
      OnlyThroughReply(states[k - 1], actions[k - 1]);
      if j < |states[k - 1].spawns.answers| {
        i, r, l, reply := AnswersAreKnown(states, actions, k - 1, j);
      } else {
        i, l := k - 1, actions[k - 1].l;
        reply := states[i].hosts.loops[l].pc.task.reply;
        r := RegisteredIsKnown(states, actions, i, l, reply);
      }
    }
  }

  /** A spawn call that succeeds returns the payload of one SpawnOk: the loop that handled it
      went through `register_session` for it, and then answered while the call was pending. */
  lemma SpawnSucceeds(states: seq<State>, actions: seq<Action>, k: nat, c: nat)
      returns (j: nat, i: nat, r: nat, l: nat, reply: H.Reply)
    requires Run(states, actions) && k < |states|
    requires var x := states[k].spawns; c < |x.calls| && x.calls[c].pc.Returned? && x.calls[c].pc.result.Ok?
    ensures var x := states[k].spawns;
            && reply.req == x.calls[c].req && x.calls[c].pc.result == C.Ok(reply.shell, reply.sid)
            && j < |x.answers| && x.answers[j] == C.Answer(reply.req, x.calls[c].pc.result, Some(c))
    ensures i < k && ToldAt(states, actions, i, r, l, reply, j)
    ensures reply.req in states[i].spawns.pending && states[i].spawns.pending[reply.req] == c
  {
    RunSpawnsSound(states, actions, k);
    j := C.OkIsCorrelated(states[k].spawns, c);
    i, r, l, reply := AnswersAreKnown(states, actions, k, j);
    assert states[i + 1] == Step(states[i], actions[i]);
    MetWhilePending(states[i], actions[i]);
  }
}
