/** Spawn requests and their answers: `ControlHub::spawn`, `handle_spawn_ok`, `handle_spawn_err`. */
module SpawnCalls {
  import opened Common

  datatype Error = NotConnected | ConnectionLost | Remote(text: string) | ChannelDropped | TimedOut
  datatype Result = Ok(shell: ShellId, sid: SessionId) | Err(error: Error)

  /** What a host answers, and what the call makes of it. */
  datatype HostAnswer = Spawned(shell: ShellId, sid: SessionId) | Failed(text: string)

  function ResultOf(a: HostAnswer): Result {
    match a
    case Spawned(shell, sid) => Ok(shell, sid)
    case Failed(text) => Err(Remote(text))
  }

  /** The one-shot channel on which a call waits. */
  datatype Response = Empty | Filled(result: Result) | SenderGone

  /** Where a call stands: it has looked up loop `target`, inserted its request, sent it. */
  datatype CallPc = HasSender(target: nat) | Inserted(target: nat) | SendFailed | Waiting | SawDrop | TimeUp
      | Returned(result: Result)

  datatype Call = Call(req: ReqId, pc: CallPc, response: Response)

  /** An answer from a host, as handled under the lock, and the call that was pending under its id. */
  datatype Answer = Answer(req: ReqId, result: Result, call: Option<nat>)

  datatype Spawns = Spawns(pending: map<ReqId, nat>, calls: seq<Call>, answers: seq<Answer>)

  datatype SpawnOp =
    | NoSpawn
    | Start(req: ReqId, target: Option<nat>)
    | Insert(c: nat)
    | Send(c: nat, ok: bool)
    | GiveUp(c: nat)
    | Deliver(c: nat)
    | TimerFires(c: nat)
    | Respond(req: ReqId, answer: HostAnswer)

  function SetCall(x: Spawns, c: nat, call: Call): Spawns
    requires c < |x.calls|
  {
    x.(calls := x.calls[c := call])
  }

  predicate CallAt(x: Spawns, c: nat) { c < |x.calls| }

  /** Whatever call has an entry under the id of call c, if it is another one, loses its sender
      when c replaces or removes the entry. */
  function Evict(x: Spawns, c: nat): Spawns
    requires c < |x.calls|
  {
    var req := x.calls[c].req;
    if req in x.pending && CallAt(x, x.pending[req]) && x.pending[req] != c
    then SetCall(x, x.pending[req], x.calls[x.pending[req]].(response := SenderGone)) else x
  }

  predicate GivesUp(pc: CallPc) { pc.SendFailed? || pc.SawDrop? || pc.TimeUp? }

  function SpawnStep(x: Spawns, op: SpawnOp): Spawns {
    match op
    case NoSpawn => x
    case Start(req, target) =>
      var pc := if target.Some? then HasSender(target.value) else Returned(Err(NotConnected));
      x.(calls := x.calls + [Call(req, pc, Empty)])
    case Insert(c) =>
      if CallAt(x, c) && x.calls[c].pc.HasSender? then
        SetCall(Evict(x, c), c, x.calls[c].(pc := Inserted(x.calls[c].pc.target)))
          .(pending := x.pending[x.calls[c].req := c])
      else x
    case Send(c, ok) =>
      if CallAt(x, c) && x.calls[c].pc.Inserted?
          then SetCall(x, c, x.calls[c].(pc := if ok then Waiting else SendFailed)) else x
    case GiveUp(c) =>
      // the entry is removed by its id alone, whoever put it there
      if CallAt(x, c) && GivesUp(x.calls[c].pc) then
        var error := if x.calls[c].pc.SendFailed? then ConnectionLost
                     else if x.calls[c].pc.SawDrop? then ChannelDropped
                     else TimedOut;
        SetCall(Evict(x, c), c, x.calls[c].(pc := Returned(Err(error)))).(pending := x.pending - {x.calls[c].req})
      else x
    case Deliver(c) =>
      if CallAt(x, c) && x.calls[c].pc.Waiting? && !x.calls[c].response.Empty? then
        SetCall(x, c, x.calls[c].(pc := if x.calls[c].response.Filled? then Returned(x.calls[c].response.result)
            else SawDrop))
      else x
    case TimerFires(c) =>
      // the timer is looked at only after the response
      if CallAt(x, c) && x.calls[c].pc.Waiting? && x.calls[c].response.Empty?
          then SetCall(x, c, x.calls[c].(pc := TimeUp)) else x
    case Respond(req, answer) =>
      var result := ResultOf(answer);
      if req in x.pending && CallAt(x, x.pending[req]) then
        var c := x.pending[req];
        SetCall(x, c, x.calls[c].(response := Filled(result)))
        .(pending := x.pending - {req}, answers := x.answers + [Answer(req, result, Some(c))])
      else x.(answers := x.answers + [Answer(req, result, None)])
  }

  /** Pending ids lead to calls that exist. */
  ghost predicate PendingExists(x: Spawns) {
    forall r :: r in x.pending ==> x.pending[r] < |x.calls|
  }

  /** No two calls share a request id. */
  ghost predicate DistinctIds(x: Spawns) {
    forall c, d :: 0 <= c < |x.calls| && 0 <= d < |x.calls| && x.calls[c].req == x.calls[d].req ==> c == d
  }

  /** Between its insertion and its return a call is pending exactly while it has no answer. */
  predicate Open(pc: CallPc) { pc.Inserted? || pc.SendFailed? || pc.Waiting? || pc.TimeUp? }

  /** Every pending id belongs to a call that is between insertion and return and unanswered. */
  ghost predicate PendingOpen(x: Spawns) {
    && (forall r :: r in x.pending ==>
          x.pending[r] < |x.calls| && x.calls[x.pending[r]].req == r
          && Open(x.calls[x.pending[r]].pc) && x.calls[x.pending[r]].response == Empty)
  }

  /** And every such call is pending under its id. */
  ghost predicate OpenPending(x: Spawns) {
    && (forall c :: 0 <= c < |x.calls| && Open(x.calls[c].pc) && x.calls[c].response == Empty ==>
          x.calls[c].req in x.pending && x.pending[x.calls[c].req] == c)
  }

  ghost predicate PendingExact(x: Spawns) { PendingOpen(x) && OpenPending(x) }

  /** What a call has seen so far is consistent: nothing arrives before the request is pending,
      a drop is seen only if the sender is gone, and a returned result is the one delivered. */
  ghost predicate CallSound(call: Call) {
    && (call.pc.SawDrop? ==> call.response == SenderGone)
    && (call.pc.HasSender? ==> call.response == Empty)
    && (call.response.Filled? ==> call.response.result.Ok? || call.response.result.error.Remote?)
    && (call.pc.Returned? ==>
          match call.pc.result
          case Ok(_, _) => call.response == Filled(call.pc.result)
          case Err(Remote(_)) => call.response == Filled(call.pc.result)
          case Err(NotConnected) => call.response == Empty
          case Err(ChannelDropped) => call.response == SenderGone
          case Err(_) => true)
  }

  /** Answer j, if it met a pending call, was for that call's id and is what the call holds;
      a call holds an answer only if one was recorded for it, and at most one was. */
  ghost predicate AnswersMatch(x: Spawns) {
    && (forall j :: 0 <= j < |x.answers| && x.answers[j].call.Some? ==>
          var c := x.answers[j].call.value;
          c < |x.calls| && x.calls[c].req == x.answers[j].req && x.calls[c].response == Filled(x.answers[j].result))
    && (forall c :: 0 <= c < |x.calls| && x.calls[c].response.Filled? ==> Answered(x, c))
    && (forall i, j :: 0 <= i < j < |x.answers| && x.answers[i].call.Some? ==> x.answers[i].call != x.answers[j].call)
  }

  ghost predicate Answered(x: Spawns, c: nat) {
    exists j :: 0 <= j < |x.answers| && x.answers[j].call == Some(c)
  }

  ghost predicate SpawnSound(x: Spawns) {
    && PendingExact(x) && AnswersMatch(x)
    && (forall c :: 0 <= c < |x.calls| ==> CallSound(x.calls[c]))
  }

  /** Another call with the id of call c inserts its request or gives up, while c is between
      its own insertion and its return and has no answer yet. */
  predicate Hit(x: Spawns, op: SpawnOp, c: nat) {
    && c < |x.calls| && Open(x.calls[c].pc) && x.calls[c].response == Empty
    && (op.Insert? || op.GiveUp?) && op.c < |x.calls| && op.c != c && x.calls[op.c].req == x.calls[c].req
    && (if op.Insert? then x.calls[op.c].pc.HasSender? else GivesUp(x.calls[op.c].pc))
  }

  /** Calls are never removed and keep their ids. */
  lemma IdsKept(x: Spawns, op: SpawnOp)
    ensures var y := SpawnStep(x, op);
            |x.calls| <= |y.calls| && forall c :: 0 <= c < |x.calls| ==> y.calls[c].req == x.calls[c].req
    ensures DistinctIds(SpawnStep(x, op)) ==> DistinctIds(x)
  {
    var y := SpawnStep(x, op);
    assert forall c :: 0 <= c < |x.calls| ==> y.calls[c].req == x.calls[c].req;
  }

  /** What a step makes of one entry. */
  lemma EntryStep(x: Spawns, op: SpawnOp, r: ReqId)
    requires SpawnSound(x) && r in SpawnStep(x, op).pending
    ensures (r in x.pending && SpawnStep(x, op).pending[r] == x.pending[r] && !Hit(x, op, x.pending[r]))
         || (op.Insert? && SpawnStep(x, op).pending[r] == op.c && op.c < |x.calls| && x.calls[op.c].pc.HasSender?
              && x.calls[op.c].req == r)
  {
  }

  lemma EntryOpen(x: Spawns, op: SpawnOp, r: ReqId)
    requires SpawnSound(x) && r in SpawnStep(x, op).pending
    ensures var y := SpawnStep(x, op); var c := y.pending[r];
            c < |y.calls| && y.calls[c].req == r && Open(y.calls[c].pc) && y.calls[c].response == Empty
  {
    EntryStep(x, op, r);
    if op.Insert? && op.c < |x.calls| {
      assert CallSound(x.calls[op.c]);
    }
  }

  lemma PendingOpenKept(x: Spawns, op: SpawnOp)
    requires SpawnSound(x)
    ensures PendingOpen(SpawnStep(x, op))
  {
    forall r | r in SpawnStep(x, op).pending
      ensures var y := SpawnStep(x, op); var c := y.pending[r];
              c < |y.calls| && y.calls[c].req == r && Open(y.calls[c].pc) && y.calls[c].response == Empty
    {
      EntryOpen(x, op, r);
    }
  }

  lemma OpenPendingKept(x: Spawns, op: SpawnOp)
    requires SpawnSound(x)
    ensures OpenPending(SpawnStep(x, op))
  {
    var y := SpawnStep(x, op);
    forall c | 0 <= c < |y.calls| && Open(y.calls[c].pc) && y.calls[c].response == Empty
      ensures y.calls[c].req in y.pending && y.pending[y.calls[c].req] == c
    {
      if c < |x.calls| {
        assert y.calls[c].req == x.calls[c].req;
        assert CallSound(x.calls[c]);
      }
    }
  }

  lemma CallsKept(x: Spawns, op: SpawnOp, c: nat)
    requires SpawnSound(x) && c < |SpawnStep(x, op).calls|
    ensures CallSound(SpawnStep(x, op).calls[c])
  {
    if c < |x.calls| {
      assert CallSound(x.calls[c]);
    }
  }

  /** An answer, once held, is never replaced. */
  lemma AnswerStays(x: Spawns, op: SpawnOp, c: nat)
    requires SpawnSound(x) && c < |x.calls| && x.calls[c].response.Filled?
    ensures SpawnStep(x, op).calls[c].response == x.calls[c].response
  {
  }

  lemma AnsweredKept(x: Spawns, op: SpawnOp, c: nat)
    requires SpawnSound(x)
    requires c < |SpawnStep(x, op).calls| && SpawnStep(x, op).calls[c].response.Filled?
    ensures Answered(SpawnStep(x, op), c)
  {
    var y := SpawnStep(x, op);
    if c < |x.calls| && x.calls[c].response.Filled? {
      assert Answered(x, c);
      var j :| 0 <= j < |x.answers| && x.answers[j].call == Some(c);
      assert y.answers[j].call == Some(c);
    } else {
      assert y.answers[|x.answers|].call == Some(c);
    }
  }

  /** A call that has its answer is not pending, so no later answer meets it. */
  lemma AnsweredOnce(x: Spawns, op: SpawnOp, i: nat, j: nat)
    requires SpawnSound(x)
    requires i < j < |SpawnStep(x, op).answers| && SpawnStep(x, op).answers[i].call.Some?
    ensures SpawnStep(x, op).answers[i].call != SpawnStep(x, op).answers[j].call
  {
    assert x.answers <= SpawnStep(x, op).answers;
  }

  lemma AnswersKept(x: Spawns, op: SpawnOp)
    requires SpawnSound(x)
    ensures AnswersMatch(SpawnStep(x, op))
  {
    IdsKept(x, op);
    var y := SpawnStep(x, op);
    assert x.answers <= y.answers;
    forall j | 0 <= j < |y.answers| && y.answers[j].call.Some?
      ensures var c := y.answers[j].call.value;
              c < |y.calls| && y.calls[c].req == y.answers[j].req && y.calls[c].response == Filled(y.answers[j].result)
    {
      if j < |x.answers| {
        AnswerStays(x, op, x.answers[j].call.value);
      }
    }
    forall c | 0 <= c < |y.calls| && y.calls[c].response.Filled? ensures Answered(y, c) {
      AnsweredKept(x, op, c);
    }
    forall i, j | 0 <= i < j < |y.answers| && y.answers[i].call.Some? ensures y.answers[i].call != y.answers[j].call {
      AnsweredOnce(x, op, i, j);
    }
  }

  /** Kept by every step, whatever ids the calls have. */
  lemma SpawnStepKeeps(x: Spawns, op: SpawnOp)
    requires SpawnSound(x)
    ensures SpawnSound(SpawnStep(x, op))
  {
    PendingOpenKept(x, op);
    OpenPendingKept(x, op);
    AnswersKept(x, op);
    forall c | 0 <= c < |SpawnStep(x, op).calls| ensures CallSound(SpawnStep(x, op).calls[c]) {
      CallsKept(x, op, c);
    }
  }

  // --- When a call loses its channel ---

  predicate Lost(x: Spawns, c: nat) { c < |x.calls| && x.calls[c].response == SenderGone }

  /** A step takes a call's sender away exactly if it hits the call; and what is gone stays gone. */
  lemma LostStep(x: Spawns, op: SpawnOp, c: nat)
    requires SpawnSound(x)
    ensures Lost(SpawnStep(x, op), c) <==> Lost(x, c) || Hit(x, op, c)
  {
    if c < |x.calls| {
      assert CallSound(x.calls[c]);
    }
  }

  /** Distinct ids are enough, but far from necessary. */
  lemma DistinctNeverHit(x: Spawns, op: SpawnOp, c: nat)
    requires DistinctIds(x)
    ensures !Hit(x, op, c)
  {
  }

  /** A new id is not pending yet, so an insertion under it replaces nothing. */
  lemma InsertReplacesNothing(x: Spawns, c: nat)
    requires SpawnSound(x) && c < |x.calls| && x.calls[c].pc.HasSender?
    ensures (forall d :: 0 <= d < |x.calls| ==> !Hit(x, Insert(c), d)) <==> x.calls[c].req !in x.pending
  {
    var req := x.calls[c].req;
    if req in x.pending {
      assert CallSound(x.calls[c]);
      assert Hit(x, Insert(c), x.pending[req]);
    }
  }

  /** A returned call stays returned, with the same result. */
  lemma ResultFinal(x: Spawns, op: SpawnOp, c: nat)
    requires c < |x.calls| && x.calls[c].pc.Returned?
    ensures SpawnStep(x, op).calls[c].pc == x.calls[c].pc
  {
  }

  // --- What a call returns ---

  /** How a call gets from one point between two awaits to the next. */
  predicate Moves(call: Call, op: SpawnOp, c: nat, pc: CallPc) {
    match call.pc
    case HasSender(l) => op == Insert(c) && pc == Inserted(l)
    case Inserted(_) => (op == Send(c, true) && pc == Waiting) || (op == Send(c, false) && pc == SendFailed)
    case Waiting =>
      || (op == Deliver(c) && call.response.Filled? && pc == Returned(call.response.result))
      || (op == Deliver(c) && call.response.SenderGone? && pc == SawDrop)
      || (op == TimerFires(c) && call.response.Empty? && pc == TimeUp)
    case SendFailed => op == GiveUp(c) && pc == Returned(Err(ConnectionLost))
    case SawDrop => op == GiveUp(c) && pc == Returned(Err(ChannelDropped))
    case TimeUp => op == GiveUp(c) && pc == Returned(Err(TimedOut))
    case Returned(_) => false
  }

  lemma CallMoves(x: Spawns, op: SpawnOp, c: nat, pc: CallPc)
    requires c < |x.calls| && pc != x.calls[c].pc
    ensures SpawnStep(x, op).calls[c].pc == pc <==> Moves(x.calls[c], op, c, pc)
  {
  }

  lemma FreshCall(x: Spawns, op: SpawnOp)
    ensures |SpawnStep(x, op).calls| == |x.calls| + (if op.Start? then 1 else 0)
    ensures op.Start? ==>
              var pc := if op.target.Some? then HasSender(op.target.value) else Returned(Err(NotConnected));
              SpawnStep(x, op).calls[|x.calls|] == Call(op.req, pc, Empty)
  {
  }

  /** An answer reaches the call that is pending under its id, and no other. */
  lemma AnswerReaches(x: Spawns, op: SpawnOp, c: nat, r: Result)
    requires SpawnSound(x) && c < |x.calls| && x.calls[c].response != Filled(r)
    ensures SpawnStep(x, op).calls[c].response == Filled(r)
       <==> op.Respond? && op.req in x.pending && x.pending[op.req] == c && r == ResultOf(op.answer)
  {
  }

  /** Every reply is recorded, with the call it met, if there was one. */
  lemma RepliesRecorded(x: Spawns, op: SpawnOp)
    requires PendingExists(x)
    ensures SpawnStep(x, op).answers == x.answers +
              (if op.Respond? then
                 [Answer(op.req, ResultOf(op.answer), if op.req in x.pending then Some(x.pending[op.req]) else None)]
               else [])
  {
  }

  /** A waiting call that has its answer returns exactly that, when it is delivered; neither
      the timer nor anybody else can make it return something else. */
  lemma AnswerReturned(x: Spawns, op: SpawnOp, c: nat)
    requires SpawnSound(x) && c < |x.calls| && x.calls[c].pc.Waiting? && x.calls[c].response.Filled?
    ensures SpawnStep(x, op).calls[c].pc == if op == Deliver(c) then Returned(x.calls[c].response.result) else Waiting
    ensures SpawnStep(x, op).calls[c].response == x.calls[c].response
  {
  }

  /** A call under a new id that asks its host waits as the one pending call of that id. */
  lemma AskSteps(x: Spawns, req: ReqId, l: nat)
    requires req !in x.pending
    ensures var c := |x.calls|;
            SpawnStep(SpawnStep(SpawnStep(x, Start(req, Some(l))), Insert(c)), Send(c, true))
            == x.(calls := x.calls + [Call(req, Waiting, Empty)], pending := x.pending[req := c])
  {
    var c := |x.calls|;
    var y := SpawnStep(x, Start(req, Some(l)));
    assert y.calls[c := Call(req, Inserted(l), Empty)] == x.calls + [Call(req, Inserted(l), Empty)];
    var z := SpawnStep(y, Insert(c));
    assert z.calls == x.calls + [Call(req, Inserted(l), Empty)];
    assert z.calls[c := Call(req, Waiting, Empty)] == x.calls + [Call(req, Waiting, Empty)];
  }

  /** And returns the answer that reaches it then. */
  lemma TellSteps(x: Spawns, y: Spawns, req: ReqId, answer: HostAnswer)
    requires req !in x.pending
    requires y.calls == x.calls + [Call(req, Waiting, Empty)] && y.pending == x.pending[req := |x.calls|]
    ensures var c := |x.calls|; var z := SpawnStep(SpawnStep(y, Respond(req, answer)), Deliver(c));
            && z.calls == x.calls + [Call(req, Returned(ResultOf(answer)), Filled(ResultOf(answer)))]
            && z.pending == x.pending
  {
    var c, r := |x.calls|, ResultOf(answer);
    var u := SpawnStep(y, Respond(req, answer));
    assert u.calls == x.calls + [Call(req, Waiting, Filled(r))];
    assert u.pending == x.pending;
    assert u.calls[c := Call(req, Returned(r), Filled(r))] == x.calls + [Call(req, Returned(r), Filled(r))];
  }

  /** A successful call returns the payload of exactly one answer, which carried the call's
      own id and was handled while the call was pending. */
  lemma OkIsCorrelated(x: Spawns, c: nat) returns (j: nat)
    requires SpawnSound(x) && c < |x.calls| && x.calls[c].pc.Returned? && x.calls[c].pc.result.Ok?
    ensures j < |x.answers| && x.answers[j] == Answer(x.calls[c].req, x.calls[c].pc.result, Some(c))
    ensures forall k :: 0 <= k < |x.answers| && x.answers[k].call == Some(c) ==> k == j
  {
    assert CallSound(x.calls[c]) && Answered(x, c);
    j :| 0 <= j < |x.answers| && x.answers[j].call == Some(c);
  }

  /** Only calls that have not returned, and have not seen their channel dropped, are pending. */
  lemma PendingHasNotReturned(x: Spawns, r: ReqId)
    requires SpawnSound(x) && r in x.pending
    ensures var call := x.calls[x.pending[r]]; call.req == r && !call.pc.Returned? && !call.pc.SawDrop?
  {
  }

  /** With a repeated id the first call can lose its answer to the second, and as it gives up
      it takes the second one's entry away in turn. */
  lemma RepeatedIdDrops(req: ReqId, l: nat)
    ensures var x1 := SpawnStep(SpawnStep(Spawns(map[], [], []), Start(req, Some(l))), Insert(0));
            var x2 := SpawnStep(SpawnStep(SpawnStep(x1, Send(0, true)), Start(req, Some(l))), Insert(1));
            var x3 := SpawnStep(SpawnStep(x2, Deliver(0)), GiveUp(0));
            x3.calls[0].pc == Returned(Err(ChannelDropped)) && x3.calls[1].response == SenderGone
  {
    var x1 := SpawnStep(SpawnStep(Spawns(map[], [], []), Start(req, Some(l))), Insert(0));
    assert x1.calls == [Call(req, Inserted(l), Empty)] && x1.pending == map[req := 0];
    var x2 := SpawnStep(SpawnStep(SpawnStep(x1, Send(0, true)), Start(req, Some(l))), Insert(1));
    assert x2.calls == [Call(req, Waiting, SenderGone), Call(req, Inserted(l), Empty)] && x2.pending == map[req := 1];
  }

  /** A call that timed out and was answered before it could give up. */
  lemma AnsweredLate(req: ReqId, l: nat, answer: HostAnswer)
    ensures var x := SpawnStep(SpawnStep(SpawnStep(Spawns(map[], [], []), Start(req, Some(l))), Insert(0)),
            Send(0, true));
            SpawnStep(SpawnStep(x, TimerFires(0)), Respond(req, answer))
            == Spawns(map[], [Call(req, TimeUp, Filled(ResultOf(answer)))], [Answer(req, ResultOf(answer), Some(0))])
  {
    var x := SpawnStep(SpawnStep(SpawnStep(Spawns(map[], [], []), Start(req, Some(l))), Insert(0)), Send(0, true));
    assert x.calls == [Call(req, Waiting, Empty)] && x.pending == map[req := 0];
    assert SpawnStep(x, TimerFires(0)).calls == [Call(req, TimeUp, Empty)];
  }

  /** It is no longer pending, and yet, giving up after a second call has inserted the same
      id, it removes the second one's entry. */
  lemma LateWithdrawalDrops(req: ReqId, l: nat, answer: HostAnswer)
    ensures var x0 := SpawnStep(SpawnStep(SpawnStep(Spawns(map[], [], []), Start(req, Some(l))), Insert(0)),
            Send(0, true));
            var x1 := SpawnStep(SpawnStep(x0, TimerFires(0)), Respond(req, answer));
            var x2 := SpawnStep(SpawnStep(SpawnStep(x1, Start(req, Some(l))), Insert(1)), GiveUp(0));
            && x2.calls[0].pc == Returned(Err(TimedOut))
            && x2.calls[1] == Call(req, Inserted(l), SenderGone) && x2.pending == map[]
  {
    AnsweredLate(req, l, answer);
    GivesUpLate(Spawns(map[], [Call(req, TimeUp, Filled(ResultOf(answer)))],
        [Answer(req, ResultOf(answer), Some(0))]), l);
  }

  lemma GivesUpLate(x: Spawns, l: nat)
    requires x.pending == map[] && |x.calls| == 1 && x.calls[0].pc.TimeUp?
    ensures var req := x.calls[0].req;
            var y := SpawnStep(SpawnStep(SpawnStep(x, Start(req, Some(l))), Insert(1)), GiveUp(0));
            && |y.calls| == 2 && y.calls[0].pc == Returned(Err(TimedOut))
            && y.calls[1] == Call(req, Inserted(l), SenderGone) && y.pending == map[]
  {
    var req := x.calls[0].req;
    var y := SpawnStep(SpawnStep(x, Start(req, Some(l))), Insert(1));
    assert y.calls == [x.calls[0], Call(req, Inserted(l), Empty)] && y.pending == map[req := 1];
  }
}
