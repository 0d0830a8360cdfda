/** What can still be achieved from a state: a forwarder and its loop can bring all writes to
    the socket, with nobody else's help, and a spawn call can be answered. */
module ControlPlaneProgress {
  import opened Common
  import H = Hosts
  import F = StdinFlow
  import D = StdinDelivery
  import P = StdinProgress
  import C = SpawnCalls
  import W = ControlLoopSteps
  import opened ControlPlaneSafety
  import opened ControlPlane

  function After(s: State, actions: seq<Action>): State
    decreases |actions|
  {
    if actions == [] then s else After(Step(s, actions[0]), actions[1..])
  }

  lemma {:induction false} AfterAppend(s: State, a: seq<Action>, b: seq<Action>)
    ensures After(s, a + b) == After(After(s, a), b)
    decreases |a|
  {
    if a == [] {
      assert a + b == b;
    } else {
      assert (a + b)[1..] == a[1..] + b;
      AfterAppend(Step(s, a[0]), a[1..], b);
    }
  }

  /** Forwarder f has not broken, and its host's name leads to loop l, which waits for work. */
  predicate Served(s: State, f: nat, l: nat) {
    && P.Serving(s.flow, f, l) && s.flow.forwarders[f].owner < |s.table.objects|
    && Target(s, s.flow.forwarders[f].host) == Some(l) && Up(s, l, H.Idle)
  }

  lemma ReadsStep(s: State, f: nat)
    ensures Step(s, ForwarderReads(f)) == s.(flow := F.FlowStep(s.flow, F.ForwarderReads(f)))
  {
  }

  lemma HandsStep(s: State, f: nat, l: nat)
    requires Served(s, f, l)
    ensures var sid := s.table.objects[s.flow.forwarders[f].owner].id;
            Step(s, ForwarderSends(f)) == s.(flow := F.FlowStep(s.flow, F.HandOver(f, Some(l), sid)))
  {
  }

  lemma SendsSteps(s: State, l: nat)
    requires Up(s, l, H.Idle) && l < |s.flow.channels| && s.flow.channels[l].queue != []
    ensures Step(Step(s, Dequeue(l)), SocketTakes(l, true))
         == s.(flow := F.FlowStep(F.FlowStep(s.flow, F.Dequeue(l)), F.SocketTakes(l, true)))
  {
    var t := Step(s, Dequeue(l));
    assert t == s.(hosts := H.Goto(s.hosts, l, H.Up(H.Sending)), flow := F.FlowStep(s.flow, F.Dequeue(l)));
    assert H.HostStep(t.hosts, H.Work(l, H.Idle)).loops == s.hosts.loops;
  }

  lemma AfterOne(s: State, a: Action)
    ensures After(s, [a]) == Step(s, a)
  {
    assert [a][1..] == [];
  }

  lemma AfterTwo(s: State, a: Action, b: Action)
    ensures After(s, [a, b]) == Step(Step(s, a), b)
  {
    assert [a, b][1..] == [b];
    AfterOne(Step(s, a), b);
  }

  /** One thing done: a write read, or handed over, or a message put on the socket. */
  lemma OneThing(s: State, f: nat, l: nat) returns (actions: seq<Action>)
    requires Served(s, f, l) && P.Outstanding(s.flow, f, l) > 0
    ensures var t := After(s, actions); t == s.(flow := t.flow) && P.Closer(s.flow, t.flow, f, l)
  {
    if s.flow.channels[l].queue != [] {
      actions := [Dequeue(l), SocketTakes(l, true)];
      AfterTwo(s, Dequeue(l), SocketTakes(l, true));
      SendsSteps(s, l);
      P.SendsOne(s.flow, f, l);
    } else if s.flow.forwarders[f].pc.Holding? {
      actions := [ForwarderSends(f)];
      AfterOne(s, ForwarderSends(f));
      HandsStep(s, f, l);
      P.HandsOne(s.flow, f, l, s.table.objects[s.flow.forwarders[f].owner].id);
    } else {
      actions := [ForwarderReads(f)];
      AfterOne(s, ForwarderReads(f));
      ReadsStep(s, f);
      P.ReadsOne(s.flow, f, l);
    }
  }

  /** They can go on until nothing is left to do. */
  lemma {:induction false} AllThings(s: State, f: nat, l: nat) returns (actions: seq<Action>)
    requires Served(s, f, l)
    ensures var t := After(s, actions);
            && t == s.(flow := t.flow) && (t.flow == s.flow || P.Closer(s.flow, t.flow, f, l))
            && P.Serving(t.flow, f, l) && P.Outstanding(t.flow, f, l) == 0
    decreases P.Outstanding(s.flow, f, l)
  {
    if P.Outstanding(s.flow, f, l) == 0 {
      actions := [];
    } else {
      var first := OneThing(s, f, l);
      var t := After(s, first);
      var rest := AllThings(t, f, l);
      actions := first + rest;
      AfterAppend(s, first, rest);
      var u := After(t, rest);
      if u.flow != t.flow {
        P.CloserStill(s.flow, t.flow, u.flow, f, l);
      }
    }
  }

  lemma {:induction false} SafeAfter(s: State, actions: seq<Action>)
    requires Safe(s)
    ensures Safe(After(s, actions))
    decreases |actions|
  {
    if actions != [] {
      SafeKept(s, actions[0]);
      SafeAfter(Step(s, actions[0]), actions[1..]);
    }
  }

  lemma ServedFollows(s: State, f: nat, l: nat)
    requires Safe(s) && f < |s.flow.forwarders| && !s.flow.forwarders[f].pc.Stopped?
    requires Target(s, s.flow.forwarders[f].host) == Some(l) && Up(s, l, H.Idle)
    ensures Served(s, f, l)
  {
    assert QueueFollows(s.flow.channels[l], s.hosts.loops[l].pc);
    P.ServingFollows(s.flow, f, l);
  }

  /** In every reachable state, while a session's forwarder has not broken and its host's loop
      waits for work, the two can bring to that loop's socket, in order, every write that was
      not handed to another loop. */
  lemma EverythingDeliverable(states: seq<State>, actions: seq<Action>, k: nat, f: nat, l: nat)
      returns (more: seq<Action>)
    requires Run(states, actions) && k < |states|
    requires var s := states[k];
             && f < |s.flow.forwarders| && !s.flow.forwarders[f].pc.Stopped?
             && Target(s, s.flow.forwarders[f].host) == Some(l) && Up(s, l, H.Idle)
    ensures var s, t := states[k], After(states[k], more); var i := s.flow.forwarders[f].owner;
            && t == s.(flow := t.flow) && i < |s.flow.stdins| && l < |t.flow.channels|
            && |s.flow.stdins[i].handed| <= |s.flow.stdins[i].writes|
            && D.Inputs(t.flow.channels[l].sent, i)
               == D.Select(s.flow.stdins[i].writes, s.flow.stdins[i].handed, l)
                  + s.flow.stdins[i].writes[|s.flow.stdins[i].handed|..]
  {
    var s := states[k];
    RunSafe(states, actions, k);
    ServedFollows(s, f, l);
    more := AllThings(s, f, l);
    SafeAfter(s, more);
    AllSent(s.flow, After(s, more).flow, f, l);
  }

  lemma AllSent(x: F.Flow, y: F.Flow, f: nat, l: nat)
    requires D.Delivery(x) && D.Delivery(y) && P.Serving(x, f, l) && P.Serving(y, f, l)
    requires P.Outstanding(y, f, l) == 0 && (y == x || P.Closer(x, y, f, l))
    ensures var s := P.Source(x, f); var i := x.forwarders[f].owner;
            && |s.handed| <= |s.writes|
            && D.Inputs(y.channels[l].sent, i) == D.Select(s.writes, s.handed, l) + s.writes[|s.handed|..]
  {
    var s, t := P.Source(x, f), P.Source(y, f);
    assert D.StdinCounted(s) && D.StdinCounted(t);
    D.NothingMissing(y, l, f, |s.handed|);
    assert t.handed[..|s.handed|] == s.handed;
  }

  // --- Spawning ---

  /** The three steps of a call up to its waiting. */
  function Asking(s: State, host: Name, req: ReqId): seq<Action> {
    var c := |s.spawns.calls|;
    [CallStart(host, req), CallProceeds(c), CallProceeds(c)]
  }

  /** The four steps of a loop that gets a SpawnOk, and the delivery. */
  function Telling(l: nat, reply: H.Reply, c: nat): seq<Action> {
    [Receive(l, SpawnOk(reply)), Advance(l), Advance(l), Advance(l), CallDelivers(c)]
  }

  lemma AfterFirst(s: State, a: Action, rest: seq<Action>)
    ensures After(s, [a] + rest) == After(Step(s, a), rest)
  {
    assert ([a] + rest)[1..] == rest;
  }

  lemma StartStep(s: State, host: Name, req: ReqId, l: nat)
    requires Target(s, host) == Some(l)
    ensures Step(s, CallStart(host, req)) == s.(spawns := C.SpawnStep(s.spawns, C.Start(req, Some(l))))
  {
  }

  lemma InsertStep(s: State, c: nat)
    requires c < |s.spawns.calls| && s.spawns.calls[c].pc.HasSender?
    ensures Step(s, CallProceeds(c)) == s.(spawns := C.SpawnStep(s.spawns, C.Insert(c)))
  {
  }

  lemma SendStep(s: State, c: nat, l: nat)
    requires c < |s.spawns.calls| && s.spawns.calls[c].pc == C.Inserted(l) && F.HasRoom(s.flow, l)
    ensures Step(s, CallProceeds(c))
         == s.(flow := F.Push(s.flow, l, F.Spawn(s.spawns.calls[c].req)),
               spawns := C.SpawnStep(s.spawns, C.Send(c, true)))
  {
  }

  lemma AskedCall(x: C.Spawns, req: ReqId, l: nat)
    ensures var c := |x.calls|; var y := C.SpawnStep(x, C.Start(req, Some(l)));
            var z := C.SpawnStep(y, C.Insert(c));
            && |y.calls| == c + 1 && y.calls[c] == C.Call(req, C.HasSender(l), C.Empty)
            && |z.calls| == c + 1 && z.calls[c].req == req && z.calls[c].pc == C.Inserted(l)
  {
  }

  /** The call is pending, and its request, under its own id, is in the queue of its host's loop. */
  lemma Asks(s: State, host: Name, req: ReqId, l: nat)
    requires Target(s, host) == Some(l) && F.HasRoom(s.flow, l) && req !in s.spawns.pending
    ensures After(s, Asking(s, host, req))
         == s.(flow := F.Push(s.flow, l, F.Spawn(req)),
               spawns := s.spawns.(calls := s.spawns.calls + [C.Call(req, C.Waiting, C.Empty)],
                                   pending := s.spawns.pending[req := |s.spawns.calls|]))
  {
    var c := |s.spawns.calls|;
    AskedCall(s.spawns, req, l);
    StartStep(s, host, req, l);
    var t := Step(s, CallStart(host, req));
    InsertStep(t, c);
    SendStep(Step(t, CallProceeds(c)), c, l);
    C.AskSteps(s.spawns, req, l);
    AfterThree(s, CallStart(host, req), CallProceeds(c), CallProceeds(c));
  }

  lemma AfterThree(s: State, a: Action, b: Action, c: Action)
    ensures After(s, [a, b, c]) == Step(Step(Step(s, a), b), c)
  {
    assert [a, b, c] == [a] + [b, c];
    AfterFirst(s, a, [b, c]);
    AfterTwo(Step(s, a), b, c);
  }

  /** What the loop's steps make of the calls. */
  lemma Tells(s: State, l: nat, reply: H.Reply, c: nat)
    requires Up(s, l, H.Idle)
    ensures After(s, Telling(l, reply, c)).spawns
         == C.SpawnStep(C.SpawnStep(s.spawns, C.Respond(reply.req, C.Spawned(reply.shell, reply.sid))), C.Deliver(c))
  {
    var a, t := Advance(l), Step(s, Receive(l, SpawnOk(reply)));
    var front := [Receive(l, SpawnOk(reply)), a, a];
    AfterThree(s, Receive(l, SpawnOk(reply)), a, a);
    W.ReceiveStep(s, l, SpawnOk(reply));
    W.AdoptSteps(t, l, reply);
    var u := After(s, front);
    W.ReplyStep(u, l, reply);
    AfterTwo(u, a, CallDelivers(c));
    DeliverStep(Step(u, a), c);
    AfterAppend(s, front, [a, CallDelivers(c)]);
    assert Telling(l, reply, c) == front + [a, CallDelivers(c)];
  }

  lemma DeliverStep(s: State, c: nat)
    ensures Step(s, CallDelivers(c)).spawns == C.SpawnStep(s.spawns, C.Deliver(c))
  {
  }

  /** From every state in which a host's loop waits for work and has room in its queue, a spawn
      call for that host, under an id that is not pending, can end with what the host replies,
      while everything that was pending before still is. */
  lemma SpawnCanSucceed(s: State, host: Name, l: nat, reply: H.Reply)
    requires Target(s, host) == Some(l) && Up(s, l, H.Idle) && F.HasRoom(s.flow, l)
    requires reply.req !in s.spawns.pending
    ensures var c, r := |s.spawns.calls|, C.Ok(reply.shell, reply.sid);
            var t := After(s, Asking(s, host, reply.req) + Telling(l, reply, c)).spawns;
            && t.pending == s.spawns.pending
            && t.calls == s.spawns.calls + [C.Call(reply.req, C.Returned(r), C.Filled(r))]
  {
    var c := |s.spawns.calls|;
    var t := After(s, Asking(s, host, reply.req));
    Asks(s, host, reply.req, l);
    AfterAppend(s, Asking(s, host, reply.req), Telling(l, reply, c));
    Tells(t, l, reply, c);
    C.TellSteps(s.spawns, t.spawns, reply.req, C.Spawned(reply.shell, reply.sid));
  }
}
