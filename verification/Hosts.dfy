/** Who is connected: the hub, the service registry, and the control loops that write them. */
module Hosts {
  import opened Common

  datatype Reply = Reply(req: ReqId, shell: ShellId, sid: SessionId)

  /** What a running loop is in the middle of; each value is a point between two awaits. */
  datatype Task =
    | Idle
    | Beating
    | OkRegister(reply: Reply)
    | OkTake(reply: Reply)
    | OkReply(reply: Reply)
    | ErrReply(req: ReqId, error: string)
    | Died(sid: SessionId)
    | Recover(rest: seq<SessionId>)
    | RecoverRegister(sid: SessionId, rest: seq<SessionId>)
    | RecoverTake(sid: SessionId, rest: seq<SessionId>)
    | Sending

  datatype LoopPc = Connected | InHub | Up(task: Task) | Closing | HubLeft | Finished

  datatype Loop = Loop(name: Name, pc: LoopPc)

  datatype Writer = ByLoop(loop: nat) | ByRest

  /** Loops are numbered in the order in which their sockets were accepted. */
  datatype Hosts = Hosts(hub: map<Name, nat>, registry: map<Name, Writer>, loops: seq<Loop>)

  datatype HostOp =
    | NoHost
    | Accept(name: Name)
    | JoinHub(l: nat)
    | Announce(l: nat)
    | Work(l: nat, task: Task)
    | Break(l: nat)
    | LeaveHub(l: nat)
    | LeaveRegistry(l: nat)
    | RestAnnounce(name: Name)
    | RestWithdraw(name: Name)

  function Goto(h: Hosts, l: nat, pc: LoopPc): Hosts
    requires l < |h.loops|
  {
    h.(loops := h.loops[l := h.loops[l].(pc := pc)])
  }

  predicate At(h: Hosts, l: nat, pc: LoopPc) { l < |h.loops| && h.loops[l].pc == pc }

  predicate Running(h: Hosts, l: nat) { l < |h.loops| && h.loops[l].pc.Up? }

  /** The lock sections of the hub and the registry. Whoever owns an entry,
      `unregister` removes it, and `register` replaces it. */
  function HostStep(h: Hosts, op: HostOp): Hosts {
    match op
    case NoHost => h
    case Accept(name) => h.(loops := h.loops + [Loop(name, Connected)])
    case JoinHub(l) => if At(h, l, Connected) then Goto(h.(hub := h.hub[h.loops[l].name := l]), l, InHub) else h
    case Announce(l) =>
      if At(h, l, InHub) || At(h, l, Up(Beating))
      then Goto(h.(registry := h.registry[h.loops[l].name := ByLoop(l)]), l, Up(Idle)) else h
    case Work(l, task) => if Running(h, l) then Goto(h, l, Up(task)) else h
    case Break(l) => if Running(h, l) then Goto(h, l, Closing) else h
    case LeaveHub(l) => if At(h, l, Closing) then Goto(h.(hub := h.hub - {h.loops[l].name}), l, HubLeft) else h
    case LeaveRegistry(l) =>
      if At(h, l, HubLeft) then Goto(h.(registry := h.registry - {h.loops[l].name}), l, Finished) else h
    case RestAnnounce(name) => h.(registry := h.registry[name := ByRest])
    case RestWithdraw(name) => h.(registry := h.registry - {name})
  }

  /** Every entry belongs to a loop of that name which has yet to clean up. */
  ghost predicate NoGhosts(h: Hosts) {
    && (forall n :: n in h.hub ==>
          h.hub[n] < |h.loops| && h.loops[h.hub[n]].name == n
          && h.loops[h.hub[n]].pc != Connected && h.loops[h.hub[n]].pc != HubLeft && h.loops[h.hub[n]].pc != Finished)
    && (forall n :: n in h.registry && h.registry[n].ByLoop? ==>
          h.registry[n].loop < |h.loops| && h.loops[h.registry[n].loop].name == n
          && (var pc := h.loops[h.registry[n].loop].pc; pc.Up? || pc == Closing || pc == HubLeft))
  }

  lemma HostStepKeeps(h: Hosts, op: HostOp)
    requires NoGhosts(h)
    ensures NoGhosts(HostStep(h, op))
  {
  }

  /** A loop of this name enters it in the registry, or takes it out. */
  predicate Enters(h: Hosts, op: HostOp, n: Name) {
    op.Announce? && (At(h, op.l, InHub) || At(h, op.l, Up(Beating))) && h.loops[op.l].name == n
  }

  predicate Erases(h: Hosts, op: HostOp, n: Name) {
    op.LeaveRegistry? && At(h, op.l, HubLeft) && h.loops[op.l].name == n
  }

  /** Who has announced a name after a step. */
  lemma RegistryStep(h: Hosts, op: HostOp, n: Name)
    ensures var g := HostStep(h, op);
            n in g.registry <==> Enters(h, op, n) || op == RestAnnounce(n)
                                 || (n in h.registry && op != RestWithdraw(n) && !Erases(h, op, n))
    ensures var g := HostStep(h, op);
            n in g.registry ==> g.registry[n] == if Enters(h, op, n) then ByLoop(op.l)
                                                 else if op == RestAnnounce(n) then ByRest else h.registry[n]
  {
  }

  /** Whom a name leads to after a step. */
  lemma HubStep(h: Hosts, op: HostOp, n: Name)
    ensures var g := HostStep(h, op);
            var joins := op.JoinHub? && At(h, op.l, Connected) && h.loops[op.l].name == n;
            var leaves := op.LeaveHub? && At(h, op.l, Closing) && h.loops[op.l].name == n;
            && (n in g.hub <==> joins || (n in h.hub && !leaves))
            && (n in g.hub ==> g.hub[n] == if joins then op.l else h.hub[n])
  {
  }

  /** An operation that is a step of loop l. */
  predicate MovesLoop(op: HostOp, l: nat) {
    (op.JoinHub? || op.Announce? || op.Work? || op.Break? || op.LeaveHub? || op.LeaveRegistry?) && op.l == l
  }

  lemma LoopsStep(h: Hosts, op: HostOp, l: nat)
    ensures var g := HostStep(h, op);
            && |g.loops| == |h.loops| + (if op.Accept? then 1 else 0)
            && (op.Accept? ==> g.loops[|h.loops|] == Loop(op.name, Connected))
            && (l < |h.loops| ==> g.loops[l].name == h.loops[l].name)
            && (l < |h.loops| && g.loops[l].pc != h.loops[l].pc ==> MovesLoop(op, l))
  {
  }

  /** A running loop closes only when it breaks off. */
  lemma ClosingStep(h: Hosts, op: HostOp, l: nat)
    requires l < |h.loops| && h.loops[l].pc.Up?
    ensures l < |HostStep(h, op).loops|
    ensures HostStep(h, op).loops[l].pc == Closing <==> op == Break(l)
    ensures forall task :: op == Work(l, task) ==> HostStep(h, op).loops[l].pc == Up(task)
  {
  }

  /** Once every loop of a name has finished, neither map holds it any more. */
  lemma GoneAfterCleanup(h: Hosts, n: Name)
    requires NoGhosts(h) && forall l :: 0 <= l < |h.loops| && h.loops[l].name == n ==> h.loops[l].pc == Finished
    ensures n !in h.hub && (n in h.registry ==> h.registry[n] == ByRest)
  {
  }

  /** A cleanup removes the entry of another loop exactly when that loop holds the name. */
  lemma CleanupEvicts(h: Hosts, l: nat, m: nat)
    requires At(h, l, Closing) && NoGhosts(h) && m != l
    ensures (exists n :: n in h.hub && h.hub[n] == m && n !in HostStep(h, LeaveHub(l)).hub)
       <==> h.loops[l].name in h.hub && h.hub[h.loops[l].name] == m
  {
    var n := h.loops[l].name;
    if n in h.hub && h.hub[n] == m {
      assert n !in HostStep(h, LeaveHub(l)).hub;
    }
  }

  /** So a host that reconnects before its old loop has cleaned up drops out of the hub,
      although its new loop is running. */
  lemma ReconnectedHostDropsOut(n: Name)
    ensures var h1 := HostStep(HostStep(HostStep(Hosts(map[], map[], []), Accept(n)), JoinHub(0)), Announce(0));
            var h2 := HostStep(HostStep(HostStep(h1, Accept(n)), JoinHub(1)), Announce(1));
            var h3 := HostStep(HostStep(h2, Break(0)), LeaveHub(0));
            n !in h3.hub && At(h3, 1, Up(Idle)) && h3.loops[1].name == n
  {
    var h1 := HostStep(HostStep(HostStep(Hosts(map[], map[], []), Accept(n)), JoinHub(0)), Announce(0));
    assert h1.loops == [Loop(n, Up(Idle))];
    var h2 := HostStep(HostStep(HostStep(h1, Accept(n)), JoinHub(1)), Announce(1));
    assert h2.loops == [Loop(n, Up(Idle)), Loop(n, Up(Idle))];
  }
}
