/** Every write to a session's stdin reaches at most one control socket, at most once, in order. */
module StdinDelivery {
  import opened Common
  import opened Utf8
  import opened StdinFlow

  /** The data of the messages written to session object i. */
  function Inputs(messages: seq<Message>, i: nat): seq<Bytes> {
    if messages == [] then []
    else
      var last := messages[|messages| - 1];
      Inputs(messages[..|messages| - 1], i) + (if last.Input? && last.owner == i then [last.data] else [])
  }

  /** The writes that were handed to loop l: write number k went to loop handed[k]. */
  function Select(writes: seq<Bytes>, handed: seq<nat>, l: nat): seq<Bytes>
    requires |handed| <= |writes|
  {
    if handed == [] then []
    else
      var n := |handed| - 1;
      Select(writes, handed[..n], l) + (if handed[n] == l then [writes[n]] else [])
  }

  lemma InputsSnoc(messages: seq<Message>, m: Message, i: nat)
    ensures Inputs(messages + [m], i) == Inputs(messages, i) + (if m.Input? && m.owner == i then [m.data] else [])
  {
    assert (messages + [m])[..|messages|] == messages;
  }

  lemma {:induction false} InputsAppend(a: seq<Message>, b: seq<Message>, i: nat)
    ensures Inputs(a + b, i) == Inputs(a, i) + Inputs(b, i)
    decreases |b|
  {
    if b == [] {
      assert a + b == a;
    } else {
      assert (a + b)[..|a + b| - 1] == a + b[..|b| - 1];
      InputsAppend(a, b[..|b| - 1], i);
    }
  }

  lemma {:induction false} InputsNone(messages: seq<Message>, i: nat)
    requires forall k :: 0 <= k < |messages| && messages[k].Input? ==> messages[k].owner != i
    ensures Inputs(messages, i) == []
    decreases |messages|
  {
    if messages != [] {
      InputsNone(messages[..|messages| - 1], i);
    }
  }

  lemma {:induction false} SelectMoreWrites(writes: seq<Bytes>, data: Bytes, handed: seq<nat>, l: nat)
    requires |handed| <= |writes|
    ensures Select(writes + [data], handed, l) == Select(writes, handed, l)
    decreases |handed|
  {
    if handed != [] {
      SelectMoreWrites(writes, data, handed[..|handed| - 1], l);
    }
  }

  lemma SelectSnoc(writes: seq<Bytes>, handed: seq<nat>, k: nat, l: nat)
    requires |handed| < |writes|
    ensures Select(writes, handed + [k], l) == Select(writes, handed, l) + (if k == l then [writes[|handed|]] else [])
  {
    assert (handed + [k])[..|handed|] == handed;
  }

  lemma {:induction false} SelectNone(writes: seq<Bytes>, handed: seq<nat>, l: nat)
    requires |handed| <= |writes| && l !in handed
    ensures Select(writes, handed, l) == []
    decreases |handed|
  {
    if handed != [] {
      assert forall k :: k in handed[..|handed| - 1] ==> k in handed;
      SelectNone(writes, handed[..|handed| - 1], l);
    }
  }

  /** When every hand-over from number n on went to loop l, so did every write from n on. */
  lemma {:induction false} SelectTail(writes: seq<Bytes>, handed: seq<nat>, n: nat, l: nat)
    requires n <= |handed| <= |writes| && forall k :: n <= k < |handed| ==> handed[k] == l
    ensures Select(writes, handed, l) == Select(writes, handed[..n], l) + writes[n..|handed|]
    decreases |handed|
  {
    if n == |handed| {
      assert handed[..n] == handed;
    } else {
      var m := |handed| - 1;
      SelectTail(writes, handed[..m], n, l);
      assert handed[..m][..n] == handed[..n];
      assert writes[n..m] + [writes[m]] == writes[n..m + 1];
    }
  }

  // --- Counting reads and hand-overs ---

  ghost predicate StdinCounted(s: Stdin) {
    && |s.handed| <= s.popped <= |s.writes| && s.queue == s.writes[s.popped..]
    && (s.slot ==> s.popped == 0)
  }

  /** A forwarder holds the one write that was read but not handed over yet. */
  ghost predicate ForwarderCounted(s: Stdin, pc: ForwarderPc) {
    match pc
    case Receiving => |s.handed| == s.popped
    case Holding(data) => s.popped == |s.handed| + 1 && |s.handed| < |s.writes| && data == s.writes[|s.handed|]
    case Stopped => true
  }

  ghost predicate Counted(x: Flow)
    requires Linear(x)
  {
    && (forall i :: 0 <= i < |x.stdins| ==> StdinCounted(x.stdins[i]))
    && (forall f :: 0 <= f < |x.forwarders| ==> ForwarderCounted(x.stdins[x.forwarders[f].owner], x.forwarders[f].pc))
  }

  /** No other task reads what a forwarder reads from. */
  lemma SoleReader(x: Flow, f: nat)
    requires Linear(x) && f < |x.forwarders|
    ensures var i := x.forwarders[f].owner;
            && !x.stdins[i].slot && !x.stdins[i].pty
            && (forall p :: 0 <= p < |x.pipes| ==> x.pipes[p] != i)
            && (forall g :: 0 <= g < |x.forwarders| && x.forwarders[g].owner == i ==> g == f)
  {
    var i := x.forwarders[f].owner;
    assert Holds(x, ByForwarder(f), i);
    assert !Holds(x, Slot, i) && !Holds(x, Pty, i);
    forall p | 0 <= p < |x.pipes| ensures x.pipes[p] != i {
      assert !Holds(x, ByPipe(p), i);
    }
    forall g | 0 <= g < |x.forwarders| && x.forwarders[g].owner == i ensures g == f {
      assert Holds(x, ByForwarder(g), i);
    }
  }

  /** Nobody reads while the receiver sits in its slot. */
  lemma SlotUnread(x: Flow, i: nat)
    requires Linear(x) && i < |x.stdins| && x.stdins[i].slot
    ensures !x.stdins[i].pty
    ensures forall p :: 0 <= p < |x.pipes| ==> x.pipes[p] != i
    ensures forall f :: 0 <= f < |x.forwarders| ==> x.forwarders[f].owner != i
  {
    assert Holds(x, Slot, i);
    assert !Holds(x, Pty, i);
    forall p | 0 <= p < |x.pipes| ensures x.pipes[p] != i {
      assert !Holds(x, ByPipe(p), i);
    }
    forall f | 0 <= f < |x.forwarders| ensures x.forwarders[f].owner != i {
      assert !Holds(x, ByForwarder(f), i);
    }
  }

  lemma StdinCountedKept(x: Flow, op: FlowOp, i: nat)
    requires Linear(x) && Counted(x) && i < |FlowStep(x, op).stdins|
    ensures StdinCounted(FlowStep(x, op).stdins[i])
  {
    if i < |x.stdins| && x.stdins[i].slot {
      SlotUnread(x, i);
    }
    if op.HandOver? && op.f < |x.forwarders| {
      assert ForwarderCounted(x.stdins[x.forwarders[op.f].owner], x.forwarders[op.f].pc);
    }
  }

  /** Only a forwarder's own steps read from its stdin or hand over for it. */
  lemma OthersLeave(x: Flow, op: FlowOp, f: nat)
    requires Linear(x) && f < |x.forwarders| && !(op.ForwarderReads? && op.f == f) && !(op.HandOver? && op.f == f)
    ensures var y := FlowStep(x, op); var i := x.forwarders[f].owner;
            && f < |y.forwarders| && y.forwarders[f] == x.forwarders[f] && i < |y.stdins|
            && y.stdins[i].handed == x.stdins[i].handed && y.stdins[i].popped == x.stdins[i].popped
            && x.stdins[i].writes <= y.stdins[i].writes
  {
    SoleReader(x, f);
  }

  lemma ForwarderCountedKept(x: Flow, op: FlowOp, f: nat)
    requires Linear(x) && Counted(x) && f < |FlowStep(x, op).forwarders|
    requires Linear(FlowStep(x, op))
    ensures var y := FlowStep(x, op); ForwarderCounted(y.stdins[y.forwarders[f].owner], y.forwarders[f].pc)
  {
    if f < |x.forwarders| {
      var i := x.forwarders[f].owner;
      assert StdinCounted(x.stdins[i]) && ForwarderCounted(x.stdins[i], x.forwarders[f].pc);
      if !(op.ForwarderReads? && op.f == f) && !(op.HandOver? && op.f == f) {
        OthersLeave(x, op, f);
      }
    }
  }

  lemma CountedKept(x: Flow, op: FlowOp)
    requires Linear(x) && Held(x) && Counted(x)
    ensures Linear(FlowStep(x, op)) && Counted(FlowStep(x, op))
  {
    LinearKept(x, op);
    var y := FlowStep(x, op);
    forall i | 0 <= i < |y.stdins| ensures StdinCounted(y.stdins[i]) {
      StdinCountedKept(x, op, i);
    }
    forall f | 0 <= f < |y.forwarders| ensures ForwarderCounted(y.stdins[y.forwarders[f].owner], y.forwarders[f].pc) {
      ForwarderCountedKept(x, op, f);
    }
  }

  // --- What each loop accepted ---

  /** Every input accepted by a loop is tagged with an existing session object, every
      recorded hand-over names an existing loop, and the two records agree. */
  ghost predicate Logged(x: Flow)
    requires Linear(x) && Counted(x)
  {
    && (forall l, k ::
          (0 <= l < |x.channels| && 0 <= k < |x.channels[l].accepted| && x.channels[l].accepted[k].Input?) ==>
          x.channels[l].accepted[k].owner < |x.stdins|)
    && (forall i, k :: 0 <= i < |x.stdins| && 0 <= k < |x.stdins[i].handed| ==> x.stdins[i].handed[k] < |x.channels|)
    && (forall l, i :: 0 <= l < |x.channels| && 0 <= i < |x.stdins| ==> Agree(x.channels[l], x.stdins[i], l, i))
  }

  ghost predicate Agree(c: Channel, s: Stdin, l: nat, i: nat) {
    |s.handed| <= |s.writes| && Inputs(c.accepted, i) == Select(s.writes, s.handed, l)
  }

  lemma OwnersKept(x: Flow, op: FlowOp)
    requires Linear(x) && Counted(x) && Logged(x)
    ensures var y := FlowStep(x, op);
            forall l, k ::
              (0 <= l < |y.channels| && 0 <= k < |y.channels[l].accepted| && y.channels[l].accepted[k].Input?) ==>
              y.channels[l].accepted[k].owner < |y.stdins|
  {
  }

  lemma TargetsKept(x: Flow, op: FlowOp)
    requires Linear(x) && Counted(x) && Logged(x)
    ensures var y := FlowStep(x, op);
            forall i, k :: 0 <= i < |y.stdins| && 0 <= k < |y.stdins[i].handed| ==> y.stdins[i].handed[k] < |y.channels|
  {
  }

  /** A hand-over adds the same write to both records. */
  lemma AgreeHandedOver(c: Channel, s: Stdin, target: nat, owner: nat, sid: SessionId, data: Bytes, l: nat, i: nat)
    requires Agree(c, s, l, i)
    requires owner == i ==> |s.handed| < |s.writes| && data == s.writes[|s.handed|]
    ensures var c' := if l == target
            then c.(queue := c.queue + [Input(owner, sid, data)], accepted := c.accepted + [Input(owner, sid, data)])
            else c;
            var s' := if i == owner then s.(handed := s.handed + [target]) else s;
            Agree(c', s', l, i)
  {
    InputsSnoc(c.accepted, Input(owner, sid, data), i);
    if owner == i {
      SelectSnoc(s.writes, s.handed, target, l);
    }
  }

  /** Only writes, queue sends and hand-overs touch the records. */
  lemma RecordsUntouched(x: Flow, op: FlowOp, l: nat, i: nat)
    requires l < |x.channels| && i < |x.stdins| && !op.Write? && !op.Enqueue? && !op.HandOver?
    ensures var y := FlowStep(x, op);
         && l < |y.channels| && i < |y.stdins|
         && y.channels[l].accepted == x.channels[l].accepted
         && y.stdins[i].writes == x.stdins[i].writes && y.stdins[i].handed == x.stdins[i].handed
  {
  }

  lemma AgreeWritten(x: Flow, j: nat, data: Bytes, l: nat, i: nat)
    requires l < |x.channels| && i < |x.stdins| && Agree(x.channels[l], x.stdins[i], l, i)
    ensures var y := FlowStep(x, Write(j, data));
            l < |y.channels| && i < |y.stdins| && Agree(y.channels[l], y.stdins[i], l, i)
  {
    SelectMoreWrites(x.stdins[i].writes, data, x.stdins[i].handed, l);
  }

  lemma AgreeEnqueued(x: Flow, k: nat, m: Message, l: nat, i: nat)
    requires l < |x.channels| && i < |x.stdins| && Agree(x.channels[l], x.stdins[i], l, i)
    ensures var y := FlowStep(x, Enqueue(k, m));
            l < |y.channels| && i < |y.stdins| && Agree(y.channels[l], y.stdins[i], l, i)
  {
    InputsSnoc(x.channels[l].accepted, m, i);
  }

  lemma AgreeForwarded(x: Flow, f: nat, target: Option<nat>, sid: SessionId, l: nat, i: nat)
    requires Linear(x) && Counted(x)
    requires l < |x.channels| && i < |x.stdins| && Agree(x.channels[l], x.stdins[i], l, i)
    ensures var y := FlowStep(x, HandOver(f, target, sid));
            l < |y.channels| && i < |y.stdins| && Agree(y.channels[l], y.stdins[i], l, i)
  {
    if f < |x.forwarders| && x.forwarders[f].pc.Holding? && target.Some? {
      var owner, data := x.forwarders[f].owner, x.forwarders[f].pc.data;
      assert ForwarderCounted(x.stdins[owner], x.forwarders[f].pc);
      AgreeHandedOver(x.channels[l], x.stdins[i], target.value, owner, sid, data, l, i);
    }
  }

  /** The records of loop l and session i after one step, from those before. */
  lemma AgreeKept(x: Flow, op: FlowOp, l: nat, i: nat)
    requires Linear(x) && Counted(x)
    requires l < |x.channels| && i < |x.stdins| && Agree(x.channels[l], x.stdins[i], l, i)
    ensures var y := FlowStep(x, op); l < |y.channels| && i < |y.stdins| && Agree(y.channels[l], y.stdins[i], l, i)
  {
    if op.Write? {
      AgreeWritten(x, op.i, op.data, l, i);
    } else if op.Enqueue? {
      AgreeEnqueued(x, op.l, op.m, l, i);
    } else if op.HandOver? {
      AgreeForwarded(x, op.f, op.target, op.sid, l, i);
    } else {
      RecordsUntouched(x, op, l, i);
    }
  }

  lemma LoggedKept(x: Flow, op: FlowOp)
    requires Linear(x) && Held(x) && Counted(x) && Logged(x)
    requires Linear(FlowStep(x, op)) && Counted(FlowStep(x, op))
    ensures Logged(FlowStep(x, op))
  {
    var y := FlowStep(x, op);
    OwnersKept(x, op);
    TargetsKept(x, op);
    forall l, i | 0 <= l < |y.channels| && 0 <= i < |y.stdins| ensures Agree(y.channels[l], y.stdins[i], l, i) {
      if l < |x.channels| && i < |x.stdins| {
        assert Agree(x.channels[l], x.stdins[i], l, i);
        AgreeKept(x, op, l, i);
      } else {
        AgreeNew(x, op, l, i);
      }
    }
  }

  /** A new loop has accepted nothing, and from a new session nothing was handed over. */
  lemma AgreeNew(x: Flow, op: FlowOp, l: nat, i: nat)
    requires Linear(x) && Counted(x) && Logged(x)
    requires l < |FlowStep(x, op).channels| && i < |FlowStep(x, op).stdins| && (l >= |x.channels| || i >= |x.stdins|)
    ensures Agree(FlowStep(x, op).channels[l], FlowStep(x, op).stdins[i], l, i)
  {
    var y := FlowStep(x, op);
    if l < |x.channels| {
      assert y.channels == x.channels;
      InputsNone(y.channels[l].accepted, i);
    } else {
      assert y.stdins == x.stdins && y.channels[l].accepted == [];
      SelectNone(y.stdins[i].writes, y.stdins[i].handed, l);
    }
  }

  // --- From the queue to the socket ---

  function Hand(c: Channel): seq<Message> { if c.hand.Some? then [c.hand.value] else [] }

  /** While the loop serves its queue nothing that was accepted is lost; once a send has
      failed or the queue is gone, nothing more is sent. */
  ghost predicate Accounted(c: Channel) {
    if c.broken || !c.open then c.hand.None? && c.sent <= c.accepted && (!c.open ==> c.queue == [])
    else c.sent + Hand(c) + c.queue == c.accepted
  }

  ghost predicate AllAccounted(x: Flow) {
    forall l :: 0 <= l < |x.channels| ==> Accounted(x.channels[l])
  }

  lemma AccountedKept(x: Flow, op: FlowOp)
    requires AllAccounted(x)
    ensures AllAccounted(FlowStep(x, op))
  {
  }

  // --- Forwarders that broke ---

  /** A forwarder that stopped took the receiver with it; while it runs, and while the receiver
      is in its slot, the receiver is there. */
  ghost predicate StoppedShut(x: Flow)
    requires Linear(x)
  {
    && (forall f :: 0 <= f < |x.forwarders| ==>
          (x.forwarders[f].pc.Stopped? <==> !x.stdins[x.forwarders[f].owner].open))
    && (forall i :: 0 <= i < |x.stdins| && x.stdins[i].slot ==> x.stdins[i].open)
  }

  lemma StoppedShutKept(x: Flow, op: FlowOp)
    requires Linear(x) && Linear(FlowStep(x, op)) && StoppedShut(x)
    ensures StoppedShut(FlowStep(x, op))
  {
    var y := FlowStep(x, op);
    forall f | 0 <= f < |y.forwarders|
      ensures y.forwarders[f].pc.Stopped? <==> !y.stdins[y.forwarders[f].owner].open
    {
      if f < |x.forwarders| {
        SoleReader(x, f);
      }
    }
    forall i | 0 <= i < |y.stdins| && y.stdins[i].slot ensures y.stdins[i].open {
      if i < |x.stdins| && x.stdins[i].slot {
        SlotUnread(x, i);
      }
    }
  }

  /** And then neither changes any more: nothing is written, read or handed over. */
  lemma StoppedStays(x: Flow, op: FlowOp, f: nat)
    requires Linear(x) && StoppedShut(x) && f < |x.forwarders| && x.forwarders[f].pc.Stopped?
    ensures var y := FlowStep(x, op); var i := x.forwarders[f].owner;
            && f < |y.forwarders| && y.forwarders[f] == x.forwarders[f]
            && i < |y.stdins| && y.stdins[i] == x.stdins[i]
  {
    SoleReader(x, f);
  }

  predicate Halted(x: Flow, f: nat) { f < |x.forwarders| && x.forwarders[f].pc.Stopped? }

  /** A forwarder with a write in hand finds no loop to hand it to, or one whose queue is gone. */
  predicate Breaks(x: Flow, op: FlowOp, f: nat) {
    && op.HandOver? && op.f == f && f < |x.forwarders| && x.forwarders[f].pc.Holding?
    && (op.target.None? || (op.target.value < |x.channels| && !x.channels[op.target.value].open))
  }

  lemma HaltStep(x: Flow, op: FlowOp, f: nat)
    requires Linear(x)
    ensures Halted(FlowStep(x, op), f) <==> Halted(x, f) || Breaks(x, op, f)
  {
  }

  /** A run in which a forwarder breaks because its host is away: the write in its hand is
      lost, nobody can take over, and nothing can be written any more. */
  lemma BrokenForwarder(host: Name, sid: SessionId, data: Bytes, more: Bytes)
    ensures var x0 := FlowStep(FlowStep(Flow([], [], [], []), NewStdin(false)), TakeForward(0, host));
            var x1 := FlowStep(FlowStep(FlowStep(x0, Write(0, data)), ForwarderReads(0)), HandOver(0, None, sid));
            && x1.forwarders == [Forwarder(0, host, Stopped)]
            && x1.stdins == [Stdin(false, false, false, [], [data], 1, [])]
            && FlowStep(x1, TakeForward(0, host)) == x1 && FlowStep(x1, Write(0, more)) == x1
  {
    var x0 := FlowStep(FlowStep(Flow([], [], [], []), NewStdin(false)), TakeForward(0, host));
    assert x0.stdins == [Stdin(false, false, true, [], [], 0, [])] && x0.forwarders == [Forwarder(0, host, Receiving)];
    var x := FlowStep(x0, Write(0, data));
    assert [] + [data] == [data];
    assert x.stdins == [Stdin(false, false, true, [data], [data], 0, [])];
    var y := FlowStep(x, ForwarderReads(0));
    assert [data][1..] == [];
    assert y.stdins == [Stdin(false, false, true, [], [data], 1, [])]
        && y.forwarders == [Forwarder(0, host, Holding(data))];
  }

  // --- The invariant and what it means ---

  ghost predicate Delivery(x: Flow) {
    Linear(x) && Held(x) && Counted(x) && Logged(x) && AllAccounted(x) && StoppedShut(x)
  }

  lemma DeliveryKept(x: Flow, op: FlowOp)
    requires Delivery(x)
    ensures Delivery(FlowStep(x, op))
  {
    LinearKept(x, op);
    CountedKept(x, op);
    LoggedKept(x, op);
    AccountedKept(x, op);
    StoppedShutKept(x, op);
  }

  /** What loop l has put on its socket for session object i is a prefix of the writes
      handed to it, in write order. As write number k was handed to the one loop handed[k],
      each write reaches at most one socket, and at most once. */
  lemma AtMostOnceInOrder(x: Flow, l: nat, i: nat)
    requires Delivery(x) && l < |x.channels| && i < |x.stdins|
    ensures |x.stdins[i].handed| <= |x.stdins[i].writes|
    ensures Inputs(x.channels[l].sent, i) <= Select(x.stdins[i].writes, x.stdins[i].handed, l)
  {
    var c := x.channels[l];
    assert Agree(c, x.stdins[i], l, i) && Accounted(c);
    var rest := c.accepted[|c.sent|..];
    assert c.accepted == c.sent + rest by {
      assert !c.broken && c.open ==> c.sent + Hand(c) + c.queue == c.sent + (Hand(c) + c.queue);
    }
    InputsAppend(c.sent, rest, i);
  }

  function InHand(pc: ForwarderPc): seq<Bytes> { if pc.Holding? then [pc.data] else [] }

  /** While the writes from number n on all went to one loop, which still serves its queue,
      none of them is missing: sent, in hand, queued, held by the forwarder and still in stdin
      are what went to that loop before, and then all writes from n on. */
  lemma NothingMissing(x: Flow, l: nat, f: nat, n: nat)
    requires Delivery(x) && l < |x.channels| && f < |x.forwarders|
    requires x.channels[l].open && !x.channels[l].broken && !x.forwarders[f].pc.Stopped?
    requires var handed := x.stdins[x.forwarders[f].owner].handed;
             n <= |handed| && forall k :: n <= k < |handed| ==> handed[k] == l
    ensures var i := x.forwarders[f].owner; var c := x.channels[l]; var s := x.stdins[i];
            n <= |s.handed| <= |s.writes|
            && Inputs(c.sent, i) + Inputs(Hand(c), i) + Inputs(c.queue, i) + InHand(x.forwarders[f].pc) + s.queue
               == Select(s.writes, s.handed[..n], l) + s.writes[n..]
  {
    var i := x.forwarders[f].owner;
    var c, s, pc := x.channels[l], x.stdins[i], x.forwarders[f].pc;
    assert Agree(c, s, l, i) && Accounted(c) && StdinCounted(s) && ForwarderCounted(s, pc);
    InputsAppend(c.sent + Hand(c), c.queue, i);
    InputsAppend(c.sent, Hand(c), i);
    SelectTail(s.writes, s.handed, n, l);
    WritesSplit(s, pc);
    AllTogether(Inputs(c.sent, i) + Inputs(Hand(c), i) + Inputs(c.queue, i), Select(s.writes, s.handed[..n], l),
                InHand(pc), s.queue, s.writes, n, |s.handed|);
  }

  lemma WritesSplit(s: Stdin, pc: ForwarderPc)
    requires StdinCounted(s) && ForwarderCounted(s, pc) && !pc.Stopped?
    ensures InHand(pc) + s.queue == s.writes[|s.handed|..]
  {
  }

  lemma AllTogether(out: seq<Bytes>, before: seq<Bytes>, held: seq<Bytes>, queue: seq<Bytes>, writes: seq<Bytes>,
      n: nat, m: nat)
    requires n <= m <= |writes| && out == before + writes[n..m] && held + queue == writes[m..]
    ensures out + held + queue == before + writes[n..]
  {
    assert writes[n..m] + writes[m..] == writes[n..];
    assert out + held + queue == out + (held + queue);
  }

  // --- Over runs ---

  ghost predicate FlowRun(x: seq<Flow>, ops: seq<FlowOp>) {
    |x| == |ops| + 1 && forall k :: 0 <= k < |ops| ==> x[k + 1] == FlowStep(x[k], ops[k])
  }

  function HandedAt(x: Flow, i: nat): seq<nat> { if i < |x.stdins| then x.stdins[i].handed else [] }

  /** A step hands over at most one write of a session, and a new session has none yet. */
  lemma HandedStep(x: Flow, op: FlowOp, i: nat)
    requires i < |FlowStep(x, op).stdins|
    ensures var handed := FlowStep(x, op).stdins[i].handed;
            if i >= |x.stdins| then handed == []
            else || handed == x.stdins[i].handed
                 || (op.HandOver? && op.f < |x.forwarders| && x.forwarders[op.f].owner == i && op.target.Some?
                     && handed == x.stdins[i].handed + [op.target.value])
  {
  }

  /** Everything behind what was handed over before went to loop l. */
  ghost predicate RestTo(before: seq<nat>, handed: seq<nat>, l: nat) {
    before <= handed && forall j :: |before| <= j < |handed| ==> handed[j] == l
  }

  lemma ForwardersStay(x: Flow, op: FlowOp)
    ensures |x.forwarders| <= |FlowStep(x, op).forwarders|
    ensures var y := FlowStep(x, op);
            forall f :: 0 <= f < |x.forwarders| ==>
                y.forwarders[f].owner == x.forwarders[f].owner && y.forwarders[f].host == x.forwarders[f].host
  {
  }

  lemma {:induction false} ForwardersStayAll(x: seq<Flow>, ops: seq<FlowOp>, j: nat, k: nat)
    requires FlowRun(x, ops) && j <= k < |x|
    ensures |x[j].forwarders| <= |x[k].forwarders|
    ensures forall f :: 0 <= f < |x[j].forwarders| ==>
            x[k].forwarders[f].owner == x[j].forwarders[f].owner && x[k].forwarders[f].host == x[j].forwarders[f].host
    decreases k - j
  {
    if j < k {
      ForwardersStayAll(x, ops, j, k - 1);
      ForwardersStay(x[k - 1], ops[k - 1]);
    }
  }

  /** A step that hands over a write of session object i hands it to loop l. */
  predicate HandsOnlyTo(x: Flow, op: FlowOp, i: nat, l: nat) {
    op.HandOver? && op.f < |x.forwarders| && x.forwarders[op.f].owner == i && op.target.Some? ==> op.target.value == l
  }

  lemma HandedNext(x: Flow, op: FlowOp, y: Flow, i: nat, l: nat)
    requires y == FlowStep(x, op) && HandsOnlyTo(x, op, i, l)
    ensures HandedAt(y, i) == HandedAt(x, i) || HandedAt(y, i) == HandedAt(x, i) + [l]
  {
    StdinsGrow(x, op);
    if i < |y.stdins| {
      HandedStep(x, op, i);
    }
  }

  lemma StdinsGrow(x: Flow, op: FlowOp)
    ensures |x.stdins| <= |FlowStep(x, op).stdins|
  {
  }

  /** Lists that only grow, and only by l. */
  lemma {:induction false} GrowsBy(lists: seq<seq<nat>>, start: nat, k: nat, l: nat)
    requires start <= k < |lists|
    requires forall j :: start <= j < k ==> lists[j + 1] == lists[j] || lists[j + 1] == lists[j] + [l]
    ensures RestTo(lists[start], lists[k], l)
    decreases k - start
  {
    if start < k {
      GrowsBy(lists, start, k - 1, l);
    }
  }

  lemma HandedOnlyTo(x: seq<Flow>, ops: seq<FlowOp>, start: nat, k: nat, i: nat, l: nat)
    requires FlowRun(x, ops) && start <= k < |x|
    requires forall j :: start <= j < k ==> HandsOnlyTo(x[j], ops[j], i, l)
    ensures RestTo(HandedAt(x[start], i), HandedAt(x[k], i), l)
  {
    var lists := seq(|x|, j requires 0 <= j < |x| => HandedAt(x[j], i));
    forall j | start <= j < k ensures lists[j + 1] == lists[j] || lists[j + 1] == lists[j] + [l] {
      HandedNext(x[j], ops[j], x[j + 1], i, l);
    }
    GrowsBy(lists, start, k, l);
  }

  lemma {:induction false} StoppedForGood(x: seq<Flow>, ops: seq<FlowOp>, j: nat, k: nat, f: nat)
    requires FlowRun(x, ops) && j <= k < |x| && forall m :: j <= m < k ==> Delivery(x[m])
    requires Halted(x[j], f) && x[j].forwarders[f].owner < |x[j].stdins|
    ensures var i := x[j].forwarders[f].owner;
            && f < |x[k].forwarders| && x[k].forwarders[f] == x[j].forwarders[f]
            && i < |x[k].stdins| && x[k].stdins[i] == x[j].stdins[i]
    decreases k - j
  {
    if j < k {
      StoppedForGood(x, ops, j, k - 1, f);
      StoppedStays(x[k - 1], ops[k - 1], f);
    }
  }
}
