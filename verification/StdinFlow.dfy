/** Stdin on its way to a host: session queues, forwarders, and the queue of each control
    loop, which many sessions share. */
module StdinFlow {
  import opened Common
  import opened Utf8

  const LOOP_QUEUE := 64
  const STDIN_QUEUE := 256

  /** A message for a host. `owner` names the session object the bytes were written to;
      it is a proof tag, only the id and the data travel. */
  datatype Message = Spawn(req: ReqId) | Input(owner: nat, sid: SessionId, data: Bytes) | Command

  /** The stdin side of a session object. `slot`: the receiver still sits in the object.
      `open`: the receiver still exists. `writes`, `popped` and `handed` record what was
      written, how many writes were read, and which loop each forwarded write went to. */
  datatype Stdin = Stdin(slot: bool, pty: bool, open: bool, queue: seq<Bytes>, writes: seq<Bytes>, popped: nat,
      handed: seq<nat>)

  datatype ForwarderPc = Receiving | Holding(data: Bytes) | Stopped
  datatype Forwarder = Forwarder(owner: nat, host: Name, pc: ForwarderPc)

  /** The queue of a control loop and the message in its hand. `accepted` and `sent` record
      what entered the queue and what went out; `broken` says a send on the socket failed. */
  datatype Channel = Channel(queue: seq<Message>, hand: Option<Message>, open: bool, broken: bool,
      accepted: seq<Message>, sent: seq<Message>)

  datatype Flow = Flow(stdins: seq<Stdin>, forwarders: seq<Forwarder>, pipes: seq<nat>, channels: seq<Channel>)

  datatype FlowOp =
    | NoFlow
    | NewStdin(pty: bool)
    | NewChannel
    | TakeForward(i: nat, host: Name)
    | TakePipe(i: nat)
    | Write(i: nat, data: Bytes)
    | PtyReads(i: nat)
    | PtyCloses(i: nat)
    | PipeReads(p: nat)
    | PipeCloses(p: nat)
    | ForwarderReads(f: nat)
    | HandOver(f: nat, target: Option<nat>, sid: SessionId)
    | Enqueue(l: nat, m: Message)
    | Dequeue(l: nat)
    | SocketTakes(l: nat, ok: bool)
    | CloseChannel(l: nat)

  function SetStdin(x: Flow, i: nat, s: Stdin): Flow
    requires i < |x.stdins|
  {
    x.(stdins := x.stdins[i := s])
  }

  function SetForwarder(x: Flow, f: nat, pc: ForwarderPc): Flow
    requires f < |x.forwarders|
  {
    x.(forwarders := x.forwarders[f := x.forwarders[f].(pc := pc)])
  }

  function SetChannel(x: Flow, l: nat, c: Channel): Flow
    requires l < |x.channels|
  {
    x.(channels := x.channels[l := c])
  }

  predicate CanTake(x: Flow, i: nat) { i < |x.stdins| && x.stdins[i].slot }

  function Take(x: Flow, i: nat): Flow
    requires CanTake(x, i)
  {
    SetStdin(x, i, x.stdins[i].(slot := false))
  }

  predicate CanRead(x: Flow, i: nat) { i < |x.stdins| && x.stdins[i].open && x.stdins[i].queue != [] }

  function Read(x: Flow, i: nat): Flow
    requires CanRead(x, i)
  {
    var s := x.stdins[i];
    SetStdin(x, i, s.(queue := s.queue[1..], popped := s.popped + 1))
  }

  function CloseStdin(x: Flow, i: nat): Flow
    requires i < |x.stdins|
  {
    SetStdin(x, i, x.stdins[i].(open := false))
  }

  predicate HasRoom(x: Flow, l: nat) { l < |x.channels| && x.channels[l].open && |x.channels[l].queue| < LOOP_QUEUE }

  function Push(x: Flow, l: nat, m: Message): Flow
    requires HasRoom(x, l)
  {
    var c := x.channels[l];
    SetChannel(x, l, c.(queue := c.queue + [m], accepted := c.accepted + [m]))
  }

  function FlowStep(x: Flow, op: FlowOp): Flow {
    match op
    case NoFlow => x
    case NewStdin(pty) => x.(stdins := x.stdins + [Stdin(!pty, pty, true, [], [], 0, [])])
    case NewChannel => x.(channels := x.channels + [Channel([], None, true, false, [], [])])
    case TakeForward(i, host) =>
      if CanTake(x, i) then Take(x, i).(forwarders := x.forwarders + [Forwarder(i, host, Receiving)]) else x
    case TakePipe(i) => if CanTake(x, i) then Take(x, i).(pipes := x.pipes + [i]) else x
    case Write(i, data) =>
      if i < |x.stdins| && x.stdins[i].open && |x.stdins[i].queue| < STDIN_QUEUE then
        var s := x.stdins[i];
        SetStdin(x, i, s.(queue := s.queue + [data], writes := s.writes + [data]))
      else x
    case PtyReads(i) => if CanRead(x, i) && x.stdins[i].pty then Read(x, i) else x
    case PtyCloses(i) => if i < |x.stdins| && x.stdins[i].pty then CloseStdin(x, i) else x
    case PipeReads(p) => if p < |x.pipes| && CanRead(x, x.pipes[p]) then Read(x, x.pipes[p]) else x
    case PipeCloses(p) => if p < |x.pipes| && x.pipes[p] < |x.stdins| then CloseStdin(x, x.pipes[p]) else x
    case ForwarderReads(f) =>
      if f < |x.forwarders| && x.forwarders[f].pc.Receiving? && CanRead(x, x.forwarders[f].owner)
      then SetForwarder(Read(x, x.forwarders[f].owner), f, Holding(x.stdins[x.forwarders[f].owner].queue[0])) else x
    case HandOver(f, target, sid) =>
      if f < |x.forwarders| && x.forwarders[f].pc.Holding? && x.forwarders[f].owner < |x.stdins| then
        var i := x.forwarders[f].owner;
        var s := x.stdins[i];
        if target.None? || (target.value < |x.channels| && !x.channels[target.value].open) then
          SetForwarder(CloseStdin(x, i), f, Stopped)
        else if HasRoom(x, target.value) then
          var l := target.value;
          SetForwarder(SetStdin(Push(x, l, Input(i, sid, x.forwarders[f].pc.data)), i, s.(handed := s.handed + [l])),
              f, Receiving)
        else x
      else x
    case Enqueue(l, m) => if HasRoom(x, l) && !m.Input? then Push(x, l, m) else x
    case Dequeue(l) =>
      if l < |x.channels| && x.channels[l].queue != [] && x.channels[l].hand.None? && !x.channels[l].broken then
        var c := x.channels[l];
        SetChannel(x, l, c.(queue := c.queue[1..], hand := Some(c.queue[0])))
      else x
    case SocketTakes(l, ok) =>
      if l < |x.channels| && x.channels[l].hand.Some? then
        var c := x.channels[l];
        SetChannel(x, l, if ok then c.(hand := None, sent := c.sent + [c.hand.value])
            else c.(hand := None, broken := true))
      else x
    case CloseChannel(l) =>
      // the receiving end goes, and with it whatever is still queued
      if l < |x.channels| then SetChannel(x, l, x.channels[l].(open := false, queue := [], hand := None)) else x
  }

  // --- Linear ownership of the receiver ---

  /** Who has the receiver of a session object. */
  datatype Holder = Slot | Pty | ByForwarder(f: nat) | ByPipe(p: nat)

  predicate Holds(x: Flow, h: Holder, i: nat)
    requires i < |x.stdins|
  {
    match h
    case Slot => x.stdins[i].slot
    case Pty => x.stdins[i].pty
    case ByForwarder(f) => f < |x.forwarders| && x.forwarders[f].owner == i
    case ByPipe(p) => p < |x.pipes| && x.pipes[p] == i
  }

  /** Never two holders, and every forwarder and pipe holds something that exists. */
  ghost predicate Linear(x: Flow) {
    && (forall f :: 0 <= f < |x.forwarders| ==> x.forwarders[f].owner < |x.stdins|)
    && (forall p :: 0 <= p < |x.pipes| ==> x.pipes[p] < |x.stdins|)
    && (forall i, h, k :: 0 <= i < |x.stdins| && Holds(x, h, i) && Holds(x, k, i) ==> h == k)
  }

  ghost predicate SomeHolder(x: Flow, i: nat)
    requires i < |x.stdins|
  {
    exists h :: Holds(x, h, i)
  }

  /** Always some holder: a receiver is never left lying about. */
  ghost predicate Held(x: Flow) {
    forall i :: 0 <= i < |x.stdins| ==> SomeHolder(x, i)
  }

  predicate Takes(x: Flow, op: FlowOp, i: nat) {
    (op.TakeForward? || op.TakePipe?) && op.i == i && CanTake(x, i)
  }

  function NewHolder(x: Flow, op: FlowOp): Holder {
    if op.TakePipe? then ByPipe(|x.pipes|) else ByForwarder(|x.forwarders|)
  }

  /** Only a take moves a receiver, and it moves it out of the slot. */
  lemma HolderStep(x: Flow, op: FlowOp, h: Holder, i: nat)
    requires i < |x.stdins|
    ensures var y := FlowStep(x, op);
            i < |y.stdins| && (Holds(y, h, i) <==>
                if Takes(x, op, i) then h == NewHolder(x, op) || (h != Slot && Holds(x, h, i)) else Holds(x, h, i))
  {
  }

  lemma FreshHolder(x: Flow, op: FlowOp, h: Holder)
    requires Linear(x) && |FlowStep(x, op).stdins| > |x.stdins|
    ensures Holds(FlowStep(x, op), h, |x.stdins|) <==> h == if op.pty then Pty else Slot
  {
  }

  lemma OwnersExist(x: Flow, op: FlowOp)
    requires Linear(x)
    ensures var y := FlowStep(x, op);
            && (forall f :: 0 <= f < |y.forwarders| ==> y.forwarders[f].owner < |y.stdins|)
            && (forall p :: 0 <= p < |y.pipes| ==> y.pipes[p] < |y.stdins|)
  {
  }

  /** Each receiver has exactly one holder, after every step. */
  lemma LinearKept(x: Flow, op: FlowOp)
    requires Linear(x) && Held(x)
    ensures Linear(FlowStep(x, op)) && Held(FlowStep(x, op))
  {
    var y := FlowStep(x, op);
    OwnersExist(x, op);
    forall i, h, k | 0 <= i < |y.stdins| && Holds(y, h, i) && Holds(y, k, i) ensures h == k {
      if i < |x.stdins| {
        HolderStep(x, op, h, i);
        HolderStep(x, op, k, i);
        assert Takes(x, op, i) ==> Holds(x, Slot, i);
      } else {
        FreshHolder(x, op, h);
        FreshHolder(x, op, k);
      }
    }
    forall i | 0 <= i < |y.stdins| ensures SomeHolder(y, i) {
      if i < |x.stdins| {
        assert SomeHolder(x, i);
        var h :| Holds(x, h, i);
        HolderStep(x, op, h, i);
        HolderStep(x, op, NewHolder(x, op), i);
        assert Holds(y, h, i) || Holds(y, NewHolder(x, op), i);
      } else {
        FreshHolder(x, op, if op.pty then Pty else Slot);
      }
    }
  }
}
