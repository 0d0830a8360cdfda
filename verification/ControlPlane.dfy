/** The control plane as an interleaved protocol. Every block under one lock and every
    channel operation is one step, and any task may run between two steps of another. */
module ControlPlane {
  import opened Common
  import opened Utf8
  import H = Hosts
  import T = Sessions
  import F = StdinFlow
  import C = SpawnCalls

  /** Session object i of the table and stdin i of the flow are the same object, as are
      loop l of the hosts and channel l of the flow. */
  datatype State = State(hosts: H.Hosts, table: T.Table, flow: F.Flow, spawns: C.Spawns)

  function InitialState(max: nat): State {
    State(H.Hosts(map[], map[], []), T.Table(max, map[], [], []), F.Flow([], [], [], []), C.Spawns(map[], [], []))
  }

  /** What a host sends; output data and the contents of heartbeats do not touch this state. */
  datatype HostMessage =
    | Heartbeat
    | SpawnOk(reply: H.Reply)
    | SpawnErr(req: ReqId, error: string)
    | ShellDied(sid: SessionId)
    | ShellsList(sids: seq<SessionId>)

  datatype Action =
    // control loops, Mode 1 and Mode 2 alike
    | Accept(name: Name)
    | Receive(l: nat, msg: HostMessage)
    | Advance(l: nat)
    | Dequeue(l: nat)
    | SocketTakes(l: nat, ok: bool)
    | Break(l: nat)
    // stdin forwarders
    | ForwarderReads(f: nat)
    | ForwarderSends(f: nat)
    // spawn calls
    | CallStart(host: Name, req: ReqId)
    | CallProceeds(c: nat)
    | CallDelivers(c: nat)
    | CallTimesOut(c: nat)
    // everybody else
    | AdminSends(host: Name)
    | ClientWrites(i: nat, data: Bytes)
    | RestRegister(id: SessionId)
    | RestUnregister(id: SessionId)
    | Create(id: SessionId)
    | PipeOpens(id: SessionId)
    | PipeReads(p: nat)
    | PipeCloses(p: nat)
    | PtyReads(i: nat)
    | PtyCloses(i: nat)
    | ChildExits(i: nat)
    | SweepCollects(dead: set<SessionId>)
    | SweepRemoves(k: nat)
    | RestAnnounce(name: Name)
    | RestWithdraw(name: Name)

  /** What an action does to each part of the state. */
  datatype Effect = Effect(host: H.HostOp, table: T.TableOp, flow: F.FlowOp, spawn: C.SpawnOp)

  const NOTHING := Effect(H.NoHost, T.NoTable, F.NoFlow, C.NoSpawn)

  function Apply(s: State, e: Effect): State {
    State(H.HostStep(s.hosts, e.host), T.TableStep(s.table, e.table), F.FlowStep(s.flow, e.flow),
        C.SpawnStep(s.spawns, e.spawn))
  }

  predicate Up(s: State, l: nat, task: H.Task) { H.At(s.hosts, l, H.Up(task)) }

  function Task(m: HostMessage): H.Task {
    match m
    case Heartbeat => H.Beating
    case SpawnOk(reply) => H.OkRegister(reply)
    case SpawnErr(req, error) => H.ErrReply(req, error)
    case ShellDied(sid) => H.Died(sid)
    case ShellsList(sids) => H.Recover(sids)
  }

  /** `register_session`, with the stdin of the new object, if there is one. */
  function Registering(s: State, id: SessionId): Effect {
    NOTHING.(table := T.Register(id), flow := if T.CanRegister(s.table, id) then F.NewStdin(false) else F.NoFlow)
  }

  /** `take_stdin_rx` by a control loop, which at once spawns the forwarder. */
  function Forwarding(s: State, id: SessionId, host: Name): Effect {
    NOTHING.(flow := if id in s.table.ids then F.TakeForward(s.table.ids[id], host) else F.NoFlow)
  }

  /** `handle_spawn_ok` and `handle_spawn_err`. */
  function Answering(req: ReqId, answer: C.HostAnswer): Effect { NOTHING.(spawn := C.Respond(req, answer)) }

  /** The next lock section of loop l. */
  function AdvanceEffect(s: State, l: nat): Effect
    requires l < |s.hosts.loops|
  {
    var loop := s.hosts.loops[l];
    match loop.pc
    case Connected => NOTHING.(host := H.JoinHub(l))
    case InHub => NOTHING.(host := H.Announce(l))
    case Closing => NOTHING.(host := H.LeaveHub(l))
    case HubLeft => NOTHING.(host := H.LeaveRegistry(l), flow := F.CloseChannel(l))
    case Finished => NOTHING
    case Up(task) =>
      match task
      case Idle => NOTHING
      case Sending => NOTHING
      case Beating => NOTHING.(host := H.Announce(l))
      case OkRegister(reply) => Registering(s, reply.sid).(host := H.Work(l, H.OkTake(reply)))
      case OkTake(reply) => Forwarding(s, reply.sid, loop.name).(host := H.Work(l, H.OkReply(reply)))
      case OkReply(reply) => Answering(reply.req, C.Spawned(reply.shell, reply.sid)).(host := H.Work(l, H.Idle))
      case ErrReply(req, error) => Answering(req, C.Failed(error)).(host := H.Work(l, H.Idle))
      case Died(sid) => NOTHING.(host := H.Work(l, H.Idle), table := T.Unregister(sid))
      case Recover(rest) =>
        NOTHING.(host := H.Work(l,
          if rest == [] then H.Idle
          else if rest[0] in s.table.ids then H.Recover(rest[1..])
          else H.RecoverRegister(rest[0], rest[1..])))
      case RecoverRegister(sid, rest) => Registering(s, sid).(host := H.Work(l, H.RecoverTake(sid, rest)))
      case RecoverTake(sid, rest) => Forwarding(s, sid, loop.name).(host := H.Work(l, H.Recover(rest)))
  }

  /** The loop whose queue a name leads to at this moment. */
  function Target(s: State, host: Name): Option<nat> {
    if host in s.hosts.hub then Some(s.hosts.hub[host]) else None
  }

  predicate QueueClosed(s: State, l: nat) { l < |s.flow.channels| && !s.flow.channels[l].open }

  function CallEffect(s: State, c: nat): Effect
    requires c < |s.spawns.calls|
  {
    var call := s.spawns.calls[c];
    match call.pc
    case HasSender(_) => NOTHING.(spawn := C.Insert(c))
    case Inserted(l) =>
      // waits while the queue is full
      if QueueClosed(s, l) then NOTHING.(spawn := C.Send(c, false))
      else if F.HasRoom(s.flow, l) then NOTHING.(spawn := C.Send(c, true), flow := F.Enqueue(l, F.Spawn(call.req)))
      else NOTHING
    case _ => NOTHING.(spawn := C.GiveUp(c))
  }

  function EffectOf(s: State, a: Action): Effect {
    match a
    case Accept(name) => NOTHING.(host := H.Accept(name), flow := F.NewChannel)
    case Receive(l, m) => if Up(s, l, H.Idle) then NOTHING.(host := H.Work(l, Task(m))) else NOTHING
    case Advance(l) => if l < |s.hosts.loops| then AdvanceEffect(s, l) else NOTHING
    case Dequeue(l) =>
      if Up(s, l, H.Idle) && l < |s.flow.channels| && s.flow.channels[l].queue != []
      then NOTHING.(host := H.Work(l, H.Sending), flow := F.Dequeue(l)) else NOTHING
    case SocketTakes(l, ok) =>
      if Up(s, l, H.Sending)
      then NOTHING.(host := if ok then H.Work(l, H.Idle) else H.Break(l), flow := F.SocketTakes(l, ok)) else NOTHING
    case Break(l) => if Up(s, l, H.Idle) then NOTHING.(host := H.Break(l)) else NOTHING
    case ForwarderReads(f) => NOTHING.(flow := F.ForwarderReads(f))
    case ForwarderSends(f) =>
      // `send_to` keeps the hub locked while it waits for room, so lookup and hand-over are one step
      if f < |s.flow.forwarders| && s.flow.forwarders[f].owner < |s.table.objects|
      then NOTHING.(flow := F.HandOver(f, Target(s, s.flow.forwarders[f].host),
          s.table.objects[s.flow.forwarders[f].owner].id))
      else NOTHING
    case CallStart(host, req) =>
      NOTHING.(spawn := C.Start(req, if host in s.hosts.hub then Some(s.hosts.hub[host]) else None))
    case CallProceeds(c) => if c < |s.spawns.calls| then CallEffect(s, c) else NOTHING
    case CallDelivers(c) => NOTHING.(spawn := C.Deliver(c))
    case CallTimesOut(c) => NOTHING.(spawn := C.TimerFires(c))
    case AdminSends(host) => if host in s.hosts.hub then NOTHING.(flow := F.Enqueue(s.hosts.hub[host], F.Command))
        else NOTHING
    case ClientWrites(i, data) => NOTHING.(flow := F.Write(i, data))
    case RestRegister(id) => Registering(s, id)
    case RestUnregister(id) => NOTHING.(table := T.Unregister(id))
    case Create(id) => NOTHING.(table := T.Create(id), flow := if T.Full(s.table) then F.NoFlow else F.NewStdin(true))
    case PipeOpens(id) => NOTHING.(flow := if id in s.table.ids then F.TakePipe(s.table.ids[id]) else F.NoFlow)
    case PipeReads(p) => NOTHING.(flow := F.PipeReads(p))
    case PipeCloses(p) => NOTHING.(flow := F.PipeCloses(p))
    case PtyReads(i) => NOTHING.(flow := F.PtyReads(i))
    case PtyCloses(i) => NOTHING.(flow := F.PtyCloses(i))
    case ChildExits(i) => NOTHING.(table := T.ChildExits(i))
    case SweepCollects(dead) => NOTHING.(table := T.Collect(dead))
    case SweepRemoves(k) => NOTHING.(table := T.RemoveDead(k))
    case RestAnnounce(name) => NOTHING.(host := H.RestAnnounce(name))
    case RestWithdraw(name) => NOTHING.(host := H.RestWithdraw(name))
  }

  /** An action whose task is not at the right point does nothing. */
  function Step(s: State, a: Action): State { Apply(s, EffectOf(s, a)) }

  /** A run: any interleaving of actions from the initial state. */
  ghost predicate Run(states: seq<State>, actions: seq<Action>) {
    && |states| == |actions| + 1
    && states[0] == InitialState(states[0].table.max)
    && forall k :: 0 <= k < |actions| ==> states[k + 1] == Step(states[k], actions[k])
  }
}
