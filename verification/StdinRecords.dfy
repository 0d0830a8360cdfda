/** What a step adds to the records of the stdin flow, and what that makes of them over a run. */
module StdinRecords {
  import opened Common
  import opened Text
  import opened Utf8
  import opened StdinFlow
  import opened StdinDelivery

  /** A write to session object i, whose receiver exists and has fewer than 256 writes waiting. */
  predicate Accepts(x: Flow, op: FlowOp, i: nat) {
    op.Write? && op.i == i && i < |x.stdins| && x.stdins[i].open && |x.stdins[i].queue| < 256
  }

  /** The holder of the receiver of session object i takes the next write. */
  predicate Reads(x: Flow, op: FlowOp, i: nat) {
    && i < |x.stdins| && x.stdins[i].open && x.stdins[i].queue != []
    && (|| (op == PtyReads(i) && Holds(x, Pty, i))
        || (op.PipeReads? && Holds(x, ByPipe(op.p), i))
        || (op.ForwarderReads? && Holds(x, ByForwarder(op.f), i) && x.forwarders[op.f].pc.Receiving?))
  }

  /** The forwarder of session object i has a write to hand over. */
  predicate Offers(x: Flow, op: FlowOp, i: nat) {
    i < |x.stdins| && op.HandOver? && Holds(x, ByForwarder(op.f), i) && x.forwarders[op.f].pc.Holding?
  }

  predicate TakesMore(x: Flow, l: nat) { l < |x.channels| && x.channels[l].open && |x.channels[l].queue| < 64 }

  /** There is no loop to hand it to, or one whose queue is gone. */
  predicate Fails(x: Flow, op: FlowOp, i: nat) {
    && Offers(x, op, i)
    && (op.target.None? || (op.target.value < |x.channels| && !x.channels[op.target.value].open))
  }

  /** The holder of the receiver of session object i drops it. */
  predicate Drops(x: Flow, op: FlowOp, i: nat) {
    && i < |x.stdins|
    && (|| (op == PtyCloses(i) && Holds(x, Pty, i))
        || (op.PipeCloses? && Holds(x, ByPipe(op.p), i))
        || Fails(x, op, i))
  }

  lemma WritesStep(x: Flow, op: FlowOp, i: nat)
    requires i < |x.stdins|
    ensures i < |FlowStep(x, op).stdins|
    ensures FlowStep(x, op).stdins[i].writes == x.stdins[i].writes + (if Accepts(x, op, i) then [op.data] else [])
  {
  }

  /** Nobody but its holder reads from a session object, and the holder always can. */
  lemma ReadsStep(x: Flow, op: FlowOp, i: nat)
    requires i < |x.stdins|
    ensures i < |FlowStep(x, op).stdins|
    ensures FlowStep(x, op).stdins[i].popped == x.stdins[i].popped + (if Reads(x, op, i) then 1 else 0)
  {
  }

  lemma OpenStep(x: Flow, op: FlowOp, i: nat)
    requires i < |x.stdins|
    ensures i < |FlowStep(x, op).stdins|
    ensures FlowStep(x, op).stdins[i].open <==> x.stdins[i].open && !Drops(x, op, i)
  {
  }

  lemma HandedStep(x: Flow, op: FlowOp, i: nat)
    requires i < |x.stdins|
    ensures i < |FlowStep(x, op).stdins|
    ensures FlowStep(x, op).stdins[i].handed == x.stdins[i].handed +
              (if Offers(x, op, i) && op.target.Some? && TakesMore(x, op.target.value) then [op.target.value] else [])
  {
  }

  /** What a step puts into the queue of loop l. */
  function Arrives(x: Flow, op: FlowOp, l: nat): seq<Message> {
    if !TakesMore(x, l) then []
    else if op.HandOver? && op.target == Some(l)
            && op.f < |x.forwarders| && Offers(x, op, x.forwarders[op.f].owner) then
      [Input(x.forwarders[op.f].owner, op.sid, x.forwarders[op.f].pc.data)]
    else if op.Enqueue? && op.l == l && !op.m.Input? then [op.m]
    else []
  }

  lemma AcceptedStep(x: Flow, op: FlowOp, l: nat)
    requires l < |x.channels|
    ensures l < |FlowStep(x, op).channels|
    ensures FlowStep(x, op).channels[l].accepted == x.channels[l].accepted + Arrives(x, op, l)
  {
  }

  lemma SentStep(x: Flow, op: FlowOp, l: nat)
    requires l < |x.channels|
    ensures l < |FlowStep(x, op).channels|
    ensures FlowStep(x, op).channels[l].sent == x.channels[l].sent +
              (if op == SocketTakes(l, true) && x.channels[l].hand.Some? then [x.channels[l].hand.value] else [])
  {
  }

  lemma FreshRecords(x: Flow, op: FlowOp)
    ensures var y := FlowStep(x, op);
            && (forall i :: |x.stdins| <= i < |y.stdins| ==> y.stdins[i].writes == [] && y.stdins[i].open)
            && (forall l :: |x.channels| <= l < |y.channels| ==>
                  y.channels[l] == Channel([], None, true, false, [], []))
            && |x.stdins| <= |y.stdins| && |x.channels| <= |y.channels|
  {
  }

  // --- Over a run ---

  function WritesAt(x: Flow, i: nat): seq<Bytes> { if i < |x.stdins| then x.stdins[i].writes else [] }

  function WrittenBy(x: Flow, op: FlowOp, i: nat): seq<Bytes> { if Accepts(x, op, i) then [op.data] else [] }

  lemma WritesNext(x: Flow, op: FlowOp, i: nat)
    ensures WritesAt(FlowStep(x, op), i) == WritesAt(x, i) + WrittenBy(x, op, i)
  {
    if i < |x.stdins| {
      WritesStep(x, op, i);
    } else {
      FreshRecords(x, op);
    }
  }

  /** What was written to session object i, so far as it was accepted. */
  function Written(x: seq<Flow>, ops: seq<FlowOp>, i: nat): (r: seq<seq<Bytes>>)
    requires |ops| <= |x|
    ensures |r| == |ops| && forall j :: 0 <= j < |r| ==> r[j] == WrittenBy(x[j], ops[j], i)
  {
    seq(|ops|, j requires 0 <= j < |ops| => WrittenBy(x[j], ops[j], i))
  }

  lemma WritesAre(x: seq<Flow>, ops: seq<FlowOp>, k: nat, i: nat)
    requires FlowRun(x, ops) && x[0] == Flow([], [], [], []) && k < |x|
    ensures WritesAt(x[k], i) == Concat(Written(x, ops, i)[..k])
  {
    var record := seq(|x|, j requires 0 <= j < |x| => WritesAt(x[j], i));
    forall j | 0 <= j < |ops| ensures record[j + 1] == record[j] + WrittenBy(x[j], ops[j], i) {
      WritesNext(x[j], ops[j], i);
    }
    Accumulates(record, Written(x, ops, i), k);
  }

  function AcceptedAt(x: Flow, l: nat): seq<Message> { if l < |x.channels| then x.channels[l].accepted else [] }

  lemma AcceptedNext(x: Flow, op: FlowOp, l: nat)
    ensures AcceptedAt(FlowStep(x, op), l) == AcceptedAt(x, l) + Arrives(x, op, l)
  {
    if l < |x.channels| {
      AcceptedStep(x, op, l);
    } else {
      FreshRecords(x, op);
    }
  }

  /** What was put into the queue of loop l. */
  function Arrived(x: seq<Flow>, ops: seq<FlowOp>, l: nat): (r: seq<seq<Message>>)
    requires |ops| <= |x|
    ensures |r| == |ops| && forall j :: 0 <= j < |r| ==> r[j] == Arrives(x[j], ops[j], l)
  {
    seq(|ops|, j requires 0 <= j < |ops| => Arrives(x[j], ops[j], l))
  }

  lemma AcceptedAre(x: seq<Flow>, ops: seq<FlowOp>, k: nat, l: nat)
    requires FlowRun(x, ops) && x[0] == Flow([], [], [], []) && k < |x|
    ensures AcceptedAt(x[k], l) == Concat(Arrived(x, ops, l)[..k])
  {
    var record := seq(|x|, j requires 0 <= j < |x| => AcceptedAt(x[j], l));
    forall j | 0 <= j < |ops| ensures record[j + 1] == record[j] + Arrives(x[j], ops[j], l) {
      AcceptedNext(x[j], ops[j], l);
    }
    Accumulates(record, Arrived(x, ops, l), k);
  }
}
