/** Why a spawn call returned what it returned, over all runs of the control plane. */
module ControlPlaneResults {
  import opened Common
  import opened SpawnCalls
  import H = Hosts
  import F = StdinFlow
  import R = ControlPlaneSpawns
  import S = ControlPlaneSafety
  import opened ControlPlane

  /** Call c stands at this point. */
  predicate Stands(x: Spawns, c: nat, pc: CallPc) { c < |x.calls| && x.calls[c].pc == pc }

  /** A call that stands somewhere started there or got there by a move, and has stood there since. */
  lemma LastMove(x: seq<Spawns>, ops: seq<SpawnOp>, k: nat, c: nat, pc: CallPc) returns (j: nat)
    requires R.SpawnRun(x, ops) && k < |x| && Stands(x[k], c, pc)
    ensures j < k
    ensures if c < |x[j].calls| then Moves(x[j].calls[c], ops[j], c, pc) else c == |x[j].calls| && ops[j].Start?
    ensures forall i :: j < i <= k ==> Stands(x[i], c, pc)
  {
    var stood := seq(|x|, i requires 0 <= i < |x| => Stands(x[i], c, pc));
    j := LastRise(stood, k);
    assert !stood[j] && stood[j + 1];
    FreshCall(x[j], ops[j]);
    if c < |x[j].calls| {
      CallMoves(x[j], ops[j], c, pc);
    }
    forall i | j < i <= k ensures Stands(x[i], c, pc) {
      assert stood[i];
    }
  }

  /** Which action makes a call take which step. */
  lemma CallSteps(s: State, a: Action, c: nat)
    ensures var op := EffectOf(s, a).spawn;
            && (op.Start? <==> a.CallStart?)
            && (op.Start? ==> op == Start(a.req, Target(s, a.host)))
            && (op == Deliver(c) <==> a == CallDelivers(c))
            && (op == TimerFires(c) <==> a == CallTimesOut(c))
            && (op == Insert(c) ==> a == CallProceeds(c))
            && (op == GiveUp(c) ==> a == CallProceeds(c))
  {
  }

  lemma SendSteps(s: State, a: Action, c: nat, ok: bool)
    requires EffectOf(s, a).spawn == Send(c, ok)
    ensures a == CallProceeds(c) && c < |s.spawns.calls| && s.spawns.calls[c].pc.Inserted?
    ensures var l := s.spawns.calls[c].pc.target; if ok then F.HasRoom(s.flow, l) else QueueClosed(s, l)
  {
  }

  lemma ReplySteps(s: State, a: Action)
    requires EffectOf(s, a).spawn.Respond?
    ensures var op := EffectOf(s, a).spawn;
            && a.Advance? && a.l < |s.hosts.loops|
            && (|| (op.answer.Spawned?
                    && exists reply :: H.At(s.hosts, a.l, H.Up(H.OkReply(reply))) && op.req == reply.req
                         && op.answer == Spawned(reply.shell, reply.sid))
                || (op.answer.Failed? && H.At(s.hosts, a.l, H.Up(H.ErrReply(op.req, op.answer.text)))))
  {
  }

  /** The timer of call c goes off while the call waits without an answer. */
  predicate TimesOut(s: State, a: Action, c: nat) {
    && a == CallTimesOut(c) && c < |s.spawns.calls|
    && s.spawns.calls[c].pc.Waiting? && s.spawns.calls[c].response.Empty?
  }

  /** Call c tries to send to a loop whose queue is gone. */
  predicate SendsTooLate(s: State, a: Action, c: nat) {
    && a == CallProceeds(c) && c < |s.spawns.calls| && s.spawns.calls[c].pc.Inserted?
    && var l := s.spawns.calls[c].pc.target;
    && H.At(s.hosts, l, H.Finished)
  }

  /** Call c starts under this id for a host that is not in the hub. */
  predicate StartsUnconnected(s: State, a: Action, c: nat) {
    a.CallStart? && c == |s.spawns.calls| && a.host !in s.hosts.hub
  }

  /** A loop answers call c, which is pending under the id of the reply. */
  predicate Replies(s: State, a: Action, c: nat, r: Result) {
    && a.Advance? && a.l < |s.hosts.loops|
    && var pc := s.hosts.loops[a.l].pc;
    && pc.Up?
    && (match pc.task
        case OkReply(reply) =>
          reply.req in s.spawns.pending && s.spawns.pending[reply.req] == c && r == Ok(reply.shell, reply.sid)
        case ErrReply(req, error) => req in s.spawns.pending && s.spawns.pending[req] == c && r == Err(Remote(error))
        case _ => false)
  }

  /** The step that decided what call c was to return. */
  predicate Decides(s: State, a: Action, c: nat, r: Result) {
    match r
    case Err(NotConnected) => StartsUnconnected(s, a, c)
    case Err(ConnectionLost) => SendsTooLate(s, a, c)
    case Err(TimedOut) => TimesOut(s, a, c)
    case Err(ChannelDropped) => Hit(s.spawns, EffectOf(s, a).spawn, c)
    case _ => Replies(s, a, c, r)
  }

  lemma CallsSound(states: seq<State>, actions: seq<Action>, j: nat, c: nat)
    requires Run(states, actions) && j < |states| && c < |states[j].spawns.calls|
    ensures SpawnSound(states[j].spawns) && CallSound(states[j].spawns.calls[c])
  {
    S.RunSpawnsSound(states, actions, j);
  }

  lemma RanBefore(states: seq<State>, actions: seq<Action>, k: nat, c: nat, pc: CallPc) returns (j: nat)
    requires Run(states, actions) && k < |states| && Stands(states[k].spawns, c, pc)
    ensures j < k && j < |actions| && forall i :: j < i <= k ==> Stands(states[i].spawns, c, pc)
    ensures var s, op := states[j], EffectOf(states[j], actions[j]).spawn;
            if c < |s.spawns.calls| then Moves(s.spawns.calls[c], op, c, pc)
            else
              && actions[j].CallStart? && c == |s.spawns.calls|
              && op == Start(actions[j].req, Target(s, actions[j].host))
              && pc == if op.target.Some? then HasSender(op.target.value) else Returned(Err(NotConnected))
  {
    var x, ops := R.SpawnsOf(states), R.SpawnOps(states, actions);
    R.RunSpawns(states, actions);
    j := LastMove(x, ops, k, c, pc);
    CallSteps(states[j], actions[j], c);
    FreshCall(x[j], ops[j]);
    assert Stands(states[j + 1].spawns, c, pc);
  }

  lemma SentTooLate(states: seq<State>, actions: seq<Action>, k: nat, c: nat) returns (j: nat)
    requires Run(states, actions) && k < |states| && Stands(states[k].spawns, c, SendFailed)
    ensures j < k && SendsTooLate(states[j], actions[j], c)
  {
    j := RanBefore(states, actions, k, c, SendFailed);
    CallsSound(states, actions, j, c);
    SendSteps(states[j], actions[j], c, false);
    S.RunSafe(states, actions, j);
    var l := states[j].spawns.calls[c].pc.target;
    assert S.QueueFollows(states[j].flow.channels[l], states[j].hosts.loops[l].pc);
  }

  lemma TimedOutBefore(states: seq<State>, actions: seq<Action>, k: nat, c: nat) returns (j: nat)
    requires Run(states, actions) && k < |states| && Stands(states[k].spawns, c, TimeUp)
    ensures j < k && TimesOut(states[j], actions[j], c)
  {
    j := RanBefore(states, actions, k, c, TimeUp);
    CallSteps(states[j], actions[j], c);
  }

  predicate HoldsAnswer(x: Spawns, c: nat, r: Result) { c < |x.calls| && x.calls[c].response == Filled(r) }

  lemma RepliedBefore(states: seq<State>, actions: seq<Action>, k: nat, c: nat, r: Result) returns (j: nat)
    requires Run(states, actions) && k < |states| && HoldsAnswer(states[k].spawns, c, r)
    ensures j < k && Replies(states[j], actions[j], c, r)
  {
    var held := seq(|states|, i requires 0 <= i < |states| => HoldsAnswer(states[i].spawns, c, r));
    j := LastRise(held, k);
    assert !held[j] && held[j + 1];
    assert states[j + 1] == Step(states[j], actions[j]);
    var x, op := states[j].spawns, EffectOf(states[j], actions[j]).spawn;
    FreshCall(x, op);
    S.RunSpawnsSound(states, actions, j);
    AnswerReaches(x, op, c, r);
    ReplySteps(states[j], actions[j]);
  }

  /** Whatever a call returns, one step before decided it: a reply to that call, or the timer,
      the lost queue, the repeated id or the missing host that the error names. */
  lemma ResultDecided(states: seq<State>, actions: seq<Action>, k: nat, c: nat) returns (j: nat)
    requires Run(states, actions) && k < |states|
    requires c < |states[k].spawns.calls| && states[k].spawns.calls[c].pc.Returned?
    ensures j < k && Decides(states[j], actions[j], c, states[k].spawns.calls[c].pc.result)
  {
    var r := states[k].spawns.calls[c].pc.result;
    j := RanBefore(states, actions, k, c, Returned(r));
    if c < |states[j].spawns.calls| {
      CallsSound(states, actions, j, c);
      match states[j].spawns.calls[c].pc {
        case SendFailed => j := SentTooLate(states, actions, j, c);
        case TimeUp => j := TimedOutBefore(states, actions, j, c);
        case SawDrop =>
          R.DroppedWasHit(states, actions, k, c);
          j :| 0 <= j < k && Hit(states[j].spawns, EffectOf(states[j], actions[j]).spawn, c);
        case _ => j := RepliedBefore(states, actions, j, c, r);
      }
    }
  }

  /** What a call does when its turn comes: it inserts its request, sends it as soon as the
      queue has room, and ends with the error it ran into. */
  lemma Proceeds(s: State, c: nat, y: Spawns)
    requires c < |s.spawns.calls| && y == SpawnStep(s.spawns, EffectOf(s, CallProceeds(c)).spawn)
    ensures c < |y.calls|
    ensures y.calls[c].pc ==
              match s.spawns.calls[c].pc
              case HasSender(l) => Inserted(l)
              case Inserted(l) =>
                if QueueClosed(s, l) then SendFailed else if F.HasRoom(s.flow, l) then Waiting else Inserted(l)
              case SendFailed => Returned(Err(ConnectionLost))
              case SawDrop => Returned(Err(ChannelDropped))
              case TimeUp => Returned(Err(TimedOut))
              case Waiting => Waiting
              case Returned(r) => Returned(r)
    ensures s.spawns.calls[c].pc.HasSender? ==>
              s.spawns.calls[c].req in y.pending && y.pending[s.spawns.calls[c].req] == c
    ensures GivesUp(s.spawns.calls[c].pc) ==> s.spawns.calls[c].req !in y.pending
  {
  }

  /** A start finds its host's loop, or returns at once, exactly as the hub says. */
  lemma StartExactly(states: seq<State>, actions: seq<Action>, j: nat)
    requires Run(states, actions) && j < |actions| && actions[j].CallStart?
    ensures var s, c := states[j], |states[j].spawns.calls|; var host := actions[j].host;
            && |states[j + 1].spawns.calls| == c + 1
            && states[j + 1].spawns.calls[c].req == actions[j].req
            && states[j + 1].spawns.calls[c].pc
               == if host in s.hosts.hub then HasSender(s.hosts.hub[host]) else Returned(Err(NotConnected))
  {
    assert states[j + 1] == Step(states[j], actions[j]);
    CallSteps(states[j], actions[j], 0);
    FreshCall(states[j].spawns, EffectOf(states[j], actions[j]).spawn);
  }

  /** The loop a call is about to send to is the one its host's name led to when it started. */
  lemma TargetIsHost(states: seq<State>, actions: seq<Action>, k: nat, c: nat) returns (j: nat)
    requires Run(states, actions) && k < |states| && c < |states[k].spawns.calls|
    requires states[k].spawns.calls[c].pc.HasSender? || states[k].spawns.calls[c].pc.Inserted?
    ensures j < k && actions[j].CallStart? && c == |states[j].spawns.calls|
    ensures var s := states[j]; var host := actions[j].host;
            host in s.hosts.hub && s.hosts.hub[host] == states[k].spawns.calls[c].pc.target
  {
    var pc := states[k].spawns.calls[c].pc;
    j := RanBefore(states, actions, k, c, pc);
    if pc.Inserted? {
      j := RanBefore(states, actions, j, c, HasSender(pc.target));
    }
  }

  ghost predicate WasDelivered(actions: seq<Action>, j: nat, k: nat, c: nat) {
    exists i :: j <= i < k && i < |actions| && actions[i] == CallDelivers(c)
  }

  lemma DeliveredNext(actions: seq<Action>, j: nat, k: nat, c: nat)
    requires j < k <= |actions|
    ensures WasDelivered(actions, j, k, c) <==> WasDelivered(actions, j, k - 1, c) || actions[k - 1] == CallDelivers(c)
  {
  }

  /** Call c waits with this answer, or, if `told`, has returned it. */
  predicate Settled(x: Spawns, c: nat, r: Result, told: bool) {
    HoldsAnswer(x, c, r) && Stands(x, c, if told then Returned(r) else Waiting)
  }

  lemma AnswerNext(s: State, a: Action, t: State, c: nat, r: Result, told: bool)
    requires t == Step(s, a) && SpawnSound(s.spawns) && Settled(s.spawns, c, r, told)
    ensures Settled(t.spawns, c, r, told || a == CallDelivers(c))
  {
    CallSteps(s, a, c);
    AnswerStays(s.spawns, EffectOf(s, a).spawn, c);
    if Stands(s.spawns, c, Waiting) {
      AnswerReturned(s.spawns, EffectOf(s, a).spawn, c);
    } else {
      ResultFinal(s.spawns, EffectOf(s, a).spawn, c);
    }
  }

  /** Once a call waits with its answer, it waits on, and returns that very answer as soon as
      it is delivered. */
  lemma AnswerStands(states: seq<State>, actions: seq<Action>, j: nat, k: nat, c: nat, r: Result)
    requires Run(states, actions) && j <= k < |states| && Settled(states[j].spawns, c, r, false)
    ensures Settled(states[k].spawns, c, r, WasDelivered(actions, j, k, c))
  {
    ghost var holds := seq(|states|, i requires 0 <= i < |states| =>
      Settled(states[i].spawns, c, r, WasDelivered(actions, j, i, c)));
    forall i | j <= i < k && holds[i] ensures holds[i + 1] {
      S.RunSpawnsSound(states, actions, i);
      AnswerNext(states[i], actions[i], states[i + 1], c, r, WasDelivered(actions, j, i, c));
      DeliveredNext(actions, j, i + 1, c);
    }
    Carries(holds, j, k);
  }
}
