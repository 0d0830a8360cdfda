/** Which actions the records of the control plane come from: what a session was written, who
    read it, what a loop was given to send and what it sent, and who is in the table. */
module ControlPlaneHistories {
  import opened Common
  import opened Text
  import opened Utf8
  import H = Hosts
  import T = Sessions
  import F = StdinFlow
  import C = SpawnCalls
  import D = StdinDelivery
  import E = StdinRecords
  import opened ControlPlaneSafety
  import opened ControlPlane

  // --- Stdin of one session object ---

  /** A client writes to session object i, whose receiver exists and has fewer than 256 writes waiting. */
  predicate Writes(s: State, a: Action, i: nat) {
    && a.ClientWrites? && a.i == i && i < |s.flow.stdins|
    && s.flow.stdins[i].open && |s.flow.stdins[i].queue| < 256
  }

  /** Whoever holds the receiver of session object i reads the next write. */
  predicate Reads(s: State, a: Action, i: nat) {
    && i < |s.flow.stdins| && s.flow.stdins[i].open && s.flow.stdins[i].queue != []
    && (|| (a == PtyReads(i) && F.Holds(s.flow, F.Pty, i))
        || (a.PipeReads? && F.Holds(s.flow, F.ByPipe(a.p), i))
        || (a.ForwarderReads? && F.Holds(s.flow, F.ByForwarder(a.f), i) && s.flow.forwarders[a.f].pc.Receiving?))
  }

  /** The forwarder of session object i turns to its host with a write. */
  predicate Offers(s: State, a: Action, i: nat) {
    && i < |s.flow.stdins| && a.ForwarderSends? && F.Holds(s.flow, F.ByForwarder(a.f), i)
    && s.flow.forwarders[a.f].pc.Holding?
  }

  /** The holder of the receiver drops it: the child's input is closed, the pipe ends, or the
      forwarder does not find its host. */
  predicate Drops(s: State, a: Action, i: nat) {
    && i < |s.flow.stdins|
    && (|| (a == PtyCloses(i) && F.Holds(s.flow, F.Pty, i))
        || (a.PipeCloses? && F.Holds(s.flow, F.ByPipe(a.p), i))
        || (Offers(s, a, i) && s.flow.forwarders[a.f].host !in s.hosts.hub))
  }

  /** Each action of the stdin flow does what its name says, to the object it names. */
  lemma StdinOps(s: State, a: Action)
    ensures var op := EffectOf(s, a).flow;
            && (op.Write? <==> a.ClientWrites?) && (op.Write? ==> op == F.Write(a.i, a.data))
            && (op.PtyReads? <==> a.PtyReads?) && (op.PtyReads? ==> op.i == a.i)
            && (op.PtyCloses? <==> a.PtyCloses?) && (op.PtyCloses? ==> op.i == a.i)
            && (op.PipeReads? <==> a.PipeReads?) && (op.PipeReads? ==> op.p == a.p)
            && (op.PipeCloses? <==> a.PipeCloses?) && (op.PipeCloses? ==> op.p == a.p)
            && (op.ForwarderReads? <==> a.ForwarderReads?) && (op.ForwarderReads? ==> op.f == a.f)
  {
  }

  lemma HandOverOps(s: State, a: Action, i: nat)
    requires Aligned(s)
    ensures var op := EffectOf(s, a).flow;
            && (E.Offers(s.flow, op, i) <==> Offers(s, a, i))
            && (E.Offers(s.flow, op, i) ==>
                  op == F.HandOver(a.f, Target(s, s.flow.forwarders[a.f].host), s.table.objects[i].id))
            && (op.HandOver? ==> a.ForwarderSends? && op.f == a.f)
  {
  }

  /** The hub leads to loops that exist and have not gone. */
  lemma HubOpen(s: State, host: Name)
    requires Safe(s)
    ensures host in s.hosts.hub ==>
              s.hosts.hub[host] < |s.flow.channels| && s.flow.channels[s.hosts.hub[host]].open
  {
    if host in s.hosts.hub {
      HubLeadsToOpen(s, host);
    }
  }

  /** What a step does to the stdin of session object i. */
  lemma StdinNext(s: State, a: Action, i: nat, y: F.Flow)
    requires Safe(s) && i < |s.flow.stdins| && y == F.FlowStep(s.flow, EffectOf(s, a).flow)
    ensures i < |y.stdins|
    ensures y.stdins[i].writes == s.flow.stdins[i].writes + (if Writes(s, a, i) then [a.data] else [])
    ensures y.stdins[i].popped == s.flow.stdins[i].popped + (if Reads(s, a, i) then 1 else 0)
    ensures y.stdins[i].open <==> s.flow.stdins[i].open && !Drops(s, a, i)
  {
    var op := EffectOf(s, a).flow;
    StdinOps(s, a);
    HandOverOps(s, a, i);
    E.WritesStep(s.flow, op, i);
    E.ReadsStep(s.flow, op, i);
    E.OpenStep(s.flow, op, i);
    if Offers(s, a, i) {
      HubOpen(s, s.flow.forwarders[a.f].host);
    }
  }

  /** A write is handed over exactly when its forwarder turns to a host in the hub whose queue
      has room, and then to the loop the name leads to. */
  lemma HandedNext(s: State, a: Action, i: nat, y: F.Flow)
    requires Safe(s) && i < |s.flow.stdins| && y == F.FlowStep(s.flow, EffectOf(s, a).flow)
    ensures i < |y.stdins|
    ensures var target := if Offers(s, a, i) then Target(s, s.flow.forwarders[a.f].host) else None;
            y.stdins[i].handed == s.flow.stdins[i].handed +
              (if target.Some? && target.value < |s.flow.channels| && |s.flow.channels[target.value].queue| < 64
               then [target.value] else [])
  {
    HandOverOps(s, a, i);
    E.HandedStep(s.flow, EffectOf(s, a).flow, i);
    if Offers(s, a, i) {
      HubOpen(s, s.flow.forwarders[a.f].host);
    }
  }

  /** What clients wrote to session object i at each step, so far as it was accepted. */
  function Written(states: seq<State>, actions: seq<Action>, i: nat): (r: seq<seq<Bytes>>)
    requires |actions| <= |states|
    ensures |r| == |actions|
    ensures forall j :: 0 <= j < |r| ==>
              r[j] == if Writes(states[j], actions[j], i) then [actions[j].data] else []
  {
    seq(|actions|, j requires 0 <= j < |actions| =>
      if Writes(states[j], actions[j], i) then [actions[j].data] else [])
  }

  /** What a session object was written is what clients wrote to that very object, in order. */
  lemma WritesAreOwn(states: seq<State>, actions: seq<Action>, k: nat, i: nat)
    requires Run(states, actions) && k < |states|
    ensures E.WritesAt(states[k].flow, i) == Concat(Written(states, actions, i)[..k])
  {
    var x, ops := Flows(states), FlowOps(states, actions);
    RunFlows(states, actions);
    E.WritesAre(x, ops, k, i);
    forall j | 0 <= j < |actions|
      ensures E.WrittenBy(x[j], ops[j], i) == if Writes(states[j], actions[j], i) then [actions[j].data] else []
    {
      StdinOps(states[j], actions[j]);
    }
    assert E.Written(x, ops, i) == Written(states, actions, i);
  }

  // --- The queue of one loop ---

  /** What an action puts into the queue of loop l: a write from the forwarder of a host whose
      name leads to l, under the id of its session; the request of a call that looked l up,
      under its own id; or a command for such a host. */
  function Arrives(s: State, a: Action, l: nat): seq<F.Message> {
    if !E.TakesMore(s.flow, l) then []
    else
      match a
      case ForwarderSends(f) =>
        if f < |s.flow.forwarders| && s.flow.forwarders[f].pc.Holding?
           && Target(s, s.flow.forwarders[f].host) == Some(l) && s.flow.forwarders[f].owner < |s.table.objects| then
          var i := s.flow.forwarders[f].owner;
          [F.Input(i, s.table.objects[i].id, s.flow.forwarders[f].pc.data)]
        else []
      case CallProceeds(c) =>
        if c < |s.spawns.calls| && s.spawns.calls[c].pc == C.Inserted(l) then [F.Spawn(s.spawns.calls[c].req)] else []
      case AdminSends(host) => if Target(s, host) == Some(l) then [F.Command] else []
      case _ => []
  }

  /** Only calls and commands put anything but writes into a queue. */
  lemma EnqueueOps(s: State, a: Action)
    ensures var op := EffectOf(s, a).flow;
            && (op.Enqueue? ==> a.CallProceeds? || a.AdminSends?)
            && (op.HandOver? ==> a.ForwarderSends?)
            && (a.AdminSends? ==>
                  op == if a.host in s.hosts.hub then F.Enqueue(s.hosts.hub[a.host], F.Command) else F.NoFlow)
            && (a.ForwarderSends? ==> op.NoFlow? || op.HandOver?)
  {
  }

  lemma CallOps(s: State, a: Action)
    requires a.CallProceeds?
    ensures var op := EffectOf(s, a).flow; var calls := s.spawns.calls;
            op == if a.c < |calls| && calls[a.c].pc.Inserted? && F.HasRoom(s.flow, calls[a.c].pc.target)
                  then F.Enqueue(calls[a.c].pc.target, F.Spawn(calls[a.c].req)) else F.NoFlow
  {
  }

  lemma ArrivesSame(s: State, a: Action, l: nat)
    requires Aligned(s)
    ensures E.Arrives(s.flow, EffectOf(s, a).flow, l) == Arrives(s, a, l)
  {
    EnqueueOps(s, a);
    if a.ForwarderSends? {
      if a.f < |s.flow.forwarders| {
        HandOverOps(s, a, s.flow.forwarders[a.f].owner);
      }
    } else if a.CallProceeds? {
      CallOps(s, a);
    }
  }

  function Arrived(states: seq<State>, actions: seq<Action>, l: nat): (r: seq<seq<F.Message>>)
    requires |actions| <= |states|
    ensures |r| == |actions| && forall j :: 0 <= j < |r| ==> r[j] == Arrives(states[j], actions[j], l)
  {
    seq(|actions|, j requires 0 <= j < |actions| => Arrives(states[j], actions[j], l))
  }

  /** A loop's queue accepted exactly what these actions put there, in order. */
  lemma AcceptedArrived(states: seq<State>, actions: seq<Action>, k: nat, l: nat)
    requires Run(states, actions) && k < |states|
    ensures E.AcceptedAt(states[k].flow, l) == Concat(Arrived(states, actions, l)[..k])
  {
    var x, ops := Flows(states), FlowOps(states, actions);
    RunFlows(states, actions);
    E.AcceptedAre(x, ops, k, l);
    forall j | 0 <= j < |actions| ensures E.Arrives(x[j], ops[j], l) == Arrives(states[j], actions[j], l) {
      RunSafe(states, actions, j);
      ArrivesSame(states[j], actions[j], l);
    }
    assert E.Arrived(x, ops, l) == Arrived(states, actions, l);
  }

  /** The socket of loop l takes the message the loop is sending. */
  predicate Sends(s: State, a: Action, l: nat) { a == SocketTakes(l, true) && Up(s, l, H.Sending) }

  lemma SocketOps(s: State, a: Action, l: nat)
    ensures EffectOf(s, a).flow == F.SocketTakes(l, true) <==> Sends(s, a, l)
  {
  }

  /** Each message the socket takes is the oldest accepted one that it has not taken yet. */
  lemma SentNext(s: State, a: Action, l: nat, y: F.Flow)
    requires Safe(s) && l < |s.flow.channels| && y == F.FlowStep(s.flow, EffectOf(s, a).flow)
    ensures l < |y.channels|
    ensures var c := s.flow.channels[l];
            if Sends(s, a, l) then |c.sent| < |c.accepted| && y.channels[l].sent == c.sent + [c.accepted[|c.sent|]]
            else y.channels[l].sent == c.sent
  {
    var c := s.flow.channels[l];
    SocketOps(s, a, l);
    E.SentStep(s.flow, EffectOf(s, a).flow, l);
    assert QueueFollows(c, s.hosts.loops[l].pc) && D.Accounted(c);
    if Sends(s, a, l) {
      assert c.accepted == c.sent + [c.hand.value] + c.queue;
    }
  }

  // --- Who takes a receiver ---

  /** What a loop registers or takes for this id at its next step. */
  predicate TakesUp(s: State, a: Action, id: SessionId) {
    && a.Advance? && a.l < |s.hosts.loops| && s.hosts.loops[a.l].pc.Up?
    && match s.hosts.loops[a.l].pc.task
       case OkTake(reply) => reply.sid == id
       case RecoverTake(sid, _) => sid == id
       case _ => false
  }

  predicate InSlot(s: State, id: SessionId) {
    id in s.table.ids && s.table.ids[id] < |s.flow.stdins| && s.flow.stdins[s.table.ids[id]].slot
  }

  /** A forwarder is made for the session object that an id names, and for the host of the loop
      that takes its receiver. */
  lemma ForwarderMade(s: State, a: Action, id: SessionId)
    requires TakesUp(s, a, id)
    ensures F.FlowStep(s.flow, EffectOf(s, a).flow).forwarders
         == s.flow.forwarders + (if InSlot(s, id) then
                                   [F.Forwarder(s.table.ids[id], s.hosts.loops[a.l].name, F.Receiving)]
                                 else [])
  {
  }

  lemma NoForwarderElse(s: State, a: Action)
    ensures (forall id :: !TakesUp(s, a, id)) ==>
              |F.FlowStep(s.flow, EffectOf(s, a).flow).forwarders| == |s.flow.forwarders|
  {
    if a.Advance? && a.l < |s.hosts.loops| && s.hosts.loops[a.l].pc.Up? {
      var task := s.hosts.loops[a.l].pc.task;
      assert task.OkTake? ==> TakesUp(s, a, task.reply.sid);
      assert task.RecoverTake? ==> TakesUp(s, a, task.sid);
    }
  }

  lemma PipeMade(s: State, a: Action)
    ensures F.FlowStep(s.flow, EffectOf(s, a).flow).pipes
         == s.flow.pipes + (if a.PipeOpens? && InSlot(s, a.id) then [s.table.ids[a.id]] else [])
  {
  }

  // --- The table and the hub ---

  /** A loop is about to register this id. */
  predicate Registers(s: State, a: Action, id: SessionId) {
    && a.Advance? && a.l < |s.hosts.loops| && s.hosts.loops[a.l].pc.Up?
    && match s.hosts.loops[a.l].pc.task
       case OkRegister(reply) => reply.sid == id
       case RecoverRegister(sid, _) => sid == id
       case _ => false
  }

  predicate PutsIn(s: State, a: Action, id: SessionId) {
    && |s.table.ids| < s.table.max
    && (a == Create(id) || (id !in s.table.ids && (a == RestRegister(id) || Registers(s, a, id))))
  }

  predicate TakesOut(s: State, a: Action, id: SessionId) {
    || a == RestUnregister(id)
    || (a.Advance? && Up(s, a.l, H.Died(id)))
    || (a.SweepRemoves? && a.k < |s.table.sweeps| && id in s.table.sweeps[a.k])
  }

  lemma AddOps(s: State, a: Action, id: SessionId)
    ensures T.Adds(s.table, EffectOf(s, a).table, id) <==> PutsIn(s, a, id)
  {
  }

  lemma RemoveOps(s: State, a: Action, id: SessionId)
    ensures T.Removes(s.table, EffectOf(s, a).table, id) <==> TakesOut(s, a, id)
  {
  }

  lemma OtherOps(s: State, a: Action)
    ensures var op := EffectOf(s, a).table;
            && (op.Create? <==> a.Create?) && (op.Register? ==> !a.Create?)
            && (op.ChildExits? <==> a.ChildExits?) && (op.ChildExits? ==> op.i == a.i)
            && (op.Collect? <==> a.SweepCollects?) && (op.Collect? ==> op.dead == a.dead)
  {
  }

  /** Who is in the table after a step, and under which object. */
  lemma TableNext(s: State, a: Action, id: SessionId, u: T.Table)
    requires u == T.TableStep(s.table, EffectOf(s, a).table)
    ensures id in u.ids <==> PutsIn(s, a, id) || (id in s.table.ids && !TakesOut(s, a, id))
    ensures id in u.ids ==> u.ids[id] == if PutsIn(s, a, id) then |s.table.objects| else s.table.ids[id]
    ensures PutsIn(s, a, id) ==>
              |s.table.objects| < |u.objects| && u.objects[|s.table.objects|] == T.Session(id, !a.Create?, true)
  {
    AddOps(s, a, id);
    RemoveOps(s, a, id);
    OtherOps(s, a);
    T.NameStep(s.table, EffectOf(s, a).table, u, id);
    T.ObjectStep(s.table, EffectOf(s, a).table, id, 0);
  }

  /** Only the exit of its own child makes a session object dead, and only an unmanaged one. */
  lemma AliveNext(s: State, a: Action, i: nat, u: T.Table)
    requires u == T.TableStep(s.table, EffectOf(s, a).table) && i < |s.table.objects|
    ensures i < |u.objects|
    ensures var o := s.table.objects[i];
            u.objects[i] == o.(alive := o.alive && !(a == ChildExits(i) && !o.managed))
  {
    OtherOps(s, a);
    T.ObjectStep(s.table, EffectOf(s, a).table, "", i);
  }

  /** The first phase of a cleanup notes which dead sessions it found, whenever it looks. */
  lemma SweepsNext(s: State, a: Action, u: T.Table)
    requires Safe(s) && u == T.TableStep(s.table, EffectOf(s, a).table)
    ensures var t := s.table;
            var found := a.SweepCollects? && forall id :: id in a.dead ==> id in t.ids && T.Dead(t, t.ids[id]);
            && |u.sweeps| == |t.sweeps| + (if found then 1 else 0)
            && (found ==> u.sweeps[|t.sweeps|].Keys == a.dead
                          && forall id :: id in a.dead ==> u.sweeps[|t.sweeps|][id] == t.ids[id])
  {
    OtherOps(s, a);
    T.SweepStep(s.table, EffectOf(s, a).table);
  }

  /** Loop a.l of this name takes its next step, and this is where it stands. */
  predicate LoopAt(s: State, a: Action, name: Name, pc: H.LoopPc) {
    a.Advance? && a.l < |s.hosts.loops| && s.hosts.loops[a.l].name == name && s.hosts.loops[a.l].pc == pc
  }

  lemma HubOps(s: State, a: Action)
    ensures var op := EffectOf(s, a).host;
            && (forall l :: op == H.JoinHub(l) <==> a == Advance(l) && H.At(s.hosts, l, H.Connected))
            && (forall l :: op == H.LeaveHub(l) <==> a == Advance(l) && H.At(s.hosts, l, H.Closing))
            && (op.Accept? <==> a.Accept?) && (op.Accept? ==> op.name == a.name)
  {
  }

  /** Whom a name leads to after a step: the loop that has just joined under it, nobody once
      any loop of the name has left, else the same loop as before. */
  lemma HubNext(s: State, a: Action, name: Name, g: H.Hosts)
    requires g == H.HostStep(s.hosts, EffectOf(s, a).host)
    ensures Target(s.(hosts := g), name) == (if LoopAt(s, a, name, H.Connected) then Some(a.l)
                                             else if LoopAt(s, a, name, H.Closing) then None
                                             else Target(s, name))
  {
    HubOps(s, a);
    H.HubStep(s.hosts, EffectOf(s, a).host, name);
  }

  /** A loop is announced when it has joined the hub, and at every heartbeat. */
  predicate Announces(s: State, a: Action, name: Name) {
    LoopAt(s, a, name, H.InHub) || LoopAt(s, a, name, H.Up(H.Beating))
  }

  /** Who has announced a name after a step. */
  lemma RegistryNext(s: State, a: Action, name: Name, g: H.Hosts)
    requires g == H.HostStep(s.hosts, EffectOf(s, a).host)
    ensures name in g.registry <==>
              || Announces(s, a, name) || a == RestAnnounce(name)
              || (name in s.hosts.registry && a != RestWithdraw(name) && !LoopAt(s, a, name, H.HubLeft))
    ensures name in g.registry ==>
              g.registry[name] == if Announces(s, a, name) then H.ByLoop(a.l)
                                  else if a == RestAnnounce(name) then H.ByRest
                                  else s.hosts.registry[name]
  {
    RegistryOps(s, a, name);
    H.RegistryStep(s.hosts, EffectOf(s, a).host, name);
  }

  lemma RegistryOps(s: State, a: Action, name: Name)
    ensures var h, op := s.hosts, EffectOf(s, a).host;
            && (H.Enters(h, op, name) <==> Announces(s, a, name)) && (op.Announce? ==> a == Advance(op.l))
            && (H.Erases(h, op, name) <==> LoopAt(s, a, name, H.HubLeft))
            && (op == H.RestAnnounce(name) <==> a == RestAnnounce(name))
            && (op == H.RestWithdraw(name) <==> a == RestWithdraw(name))
  {
  }

  lemma PcOps(s: State, a: Action, l: nat)
    requires H.MovesLoop(EffectOf(s, a).host, l)
    ensures (a.Advance? || a.Receive? || a.Dequeue? || a.SocketTakes? || a.Break?) && a.l == l
  {
  }

  /** Every accepted socket has a loop of its own, under the name its host gave, and only its
      own actions move it. */
  lemma LoopsNext(s: State, a: Action, l: nat, g: H.Hosts)
    requires g == H.HostStep(s.hosts, EffectOf(s, a).host)
    ensures |g.loops| == |s.hosts.loops| + (if a.Accept? then 1 else 0)
    ensures a.Accept? ==> g.loops[|s.hosts.loops|] == H.Loop(a.name, H.Connected)
    ensures l < |s.hosts.loops| ==> g.loops[l].name == s.hosts.loops[l].name
    ensures l < |s.hosts.loops| && g.loops[l].pc != s.hosts.loops[l].pc ==>
              (a.Advance? || a.Receive? || a.Dequeue? || a.SocketTakes? || a.Break?) && a.l == l
  {
    HubOps(s, a);
    H.LoopsStep(s.hosts, EffectOf(s, a).host, l);
    if H.MovesLoop(EffectOf(s, a).host, l) {
      PcOps(s, a, l);
    }
  }

  lemma TurnOps(s: State, a: Action, l: nat)
    ensures var op := EffectOf(s, a).host;
            && (a.Receive? && a.l == l && Up(s, l, H.Idle) ==> op == H.Work(l, Task(a.msg)))
            && (a == Dequeue(l) && Up(s, l, H.Idle) && l < |s.flow.channels| && s.flow.channels[l].queue != [] ==>
                  op == H.Work(l, H.Sending))
            && (op == H.Break(l) <==>
                  (a == Break(l) && Up(s, l, H.Idle)) || (a == SocketTakes(l, false) && Up(s, l, H.Sending)))
  {
  }

  /** A loop that waits for work takes on whatever message its host sends, or the oldest in its
      queue, and goes on to its cleanup if and only if the socket fails. */
  lemma LoopTurns(s: State, a: Action, l: nat, g: H.Hosts)
    requires g == H.HostStep(s.hosts, EffectOf(s, a).host)
    requires l < |s.hosts.loops| && s.hosts.loops[l].pc.Up? && l < |s.flow.channels|
    ensures l < |g.loops|
    ensures a.Receive? && a.l == l && Up(s, l, H.Idle) ==> g.loops[l].pc == H.Up(Task(a.msg))
    ensures a == Dequeue(l) && Up(s, l, H.Idle) && s.flow.channels[l].queue != [] ==> g.loops[l].pc == H.Up(H.Sending)
    ensures g.loops[l].pc == H.Closing <==>
              (a == Break(l) && Up(s, l, H.Idle)) || (a == SocketTakes(l, false) && Up(s, l, H.Sending))
  {
    TurnOps(s, a, l);
    H.ClosingStep(s.hosts, EffectOf(s, a).host, l);
  }
}
