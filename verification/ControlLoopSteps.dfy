/** The handlers of a control loop against the protocol: handling a message on the shared
    objects is the loop's own steps of the protocol, taken in a row. */
module ControlLoopSteps {
  import opened Common
  import T = Sessions
  import F = StdinFlow
  import C = SpawnCalls
  import M = SessionManager
  import L = ControlLoop
  import opened ControlPlane

  // --- The protocol's state behind such a view ---

  function SeatOf(t: T.Table, x: F.Flow, i: nat): M.Seat
    requires i < |t.objects| == |x.stdins|
  {
    M.Seat(t.objects[i].managed, x.stdins[i].slot)
  }

  ghost predicate Seated(t: T.Table, x: F.Flow, seats: L.Seats, max: nat) {
    && t.max == max && T.Named(t) && |t.objects| == |x.stdins|
    && t.ids.Keys == seats.Keys
    && forall id :: id in seats ==> SeatOf(t, x, t.ids[id]) == seats[id]
  }

  ghost predicate Shows(s: State, v: L.Shared) {
    && s.hosts.hub == v.hub && s.hosts.registry.Keys == v.services
    && s.spawns.pending == v.pending && C.PendingExists(s.spawns)
    && Seated(s.table, s.flow, v.seats, v.max)
  }

  lemma SameSize(t: T.Table, x: F.Flow, seats: L.Seats, max: nat)
    requires Seated(t, x, seats, max)
    ensures |t.ids| == |seats|
  {
    assert |t.ids| == |t.ids.Keys| && |seats| == |seats.Keys|;
  }

  lemma RegisterSeats(t: T.Table, x: F.Flow, seats: L.Seats, max: nat, sid: SessionId)
    requires Seated(t, x, seats, max)
    ensures Seated(T.TableStep(t, T.Register(sid)),
            F.FlowStep(x, if T.CanRegister(t, sid) then F.NewStdin(false) else F.NoFlow),
                   L.Registered(seats, max, sid), max)
  {
    SameSize(t, x, seats, max);
    if T.CanRegister(t, sid) {
      assert T.TableStep(t, T.Register(sid)).objects == t.objects + [T.Session(sid, true, true)];
      assert F.FlowStep(x, F.NewStdin(false)).stdins == x.stdins + [F.Stdin(true, false, true, [], [], 0, [])];
    }
  }

  lemma TakeSeats(t: T.Table, x: F.Flow, seats: L.Seats, max: nat, sid: SessionId, host: Name)
    requires Seated(t, x, seats, max)
    ensures Seated(t, F.FlowStep(x, if sid in t.ids then F.TakeForward(t.ids[sid], host) else F.NoFlow),
            L.Taken(seats, sid), max)
  {
    if sid in t.ids {
      TakeEmpties(x, t.ids[sid], host);
    }
  }

  lemma TakeEmpties(x: F.Flow, i: nat, host: Name)
    ensures var y := F.FlowStep(x, F.TakeForward(i, host));
            |y.stdins| == |x.stdins| && forall j :: 0 <= j < |x.stdins| ==>
                y.stdins[j].slot == (x.stdins[j].slot && i != j)
  {
  }

  /** What `register_session` and `take_stdin_rx` leave of the table and the stdin side. */
  function RegisterFlow(t: T.Table, x: F.Flow, sid: SessionId): F.Flow {
    F.FlowStep(x, if T.CanRegister(t, sid) then F.NewStdin(false) else F.NoFlow)
  }

  function TakeFlow(t: T.Table, x: F.Flow, sid: SessionId, host: Name): F.Flow {
    F.FlowStep(x, if sid in t.ids then F.TakeForward(t.ids[sid], host) else F.NoFlow)
  }

  /** The state after `sid` was adopted by loop l, which goes on to `task`. */
  function AdoptedState(s: State, l: nat, sid: SessionId, task: H.Task): State
    requires l < |s.hosts.loops|
  {
    var t := T.TableStep(s.table, T.Register(sid));
    State(H.Goto(s.hosts, l, H.Up(task)), t,
        TakeFlow(t, RegisterFlow(s.table, s.flow, sid), sid, s.hosts.loops[l].name), s.spawns)
  }

  lemma AdoptedSeats(s: State, v: L.Shared, l: nat, sid: SessionId, task: H.Task)
    requires Shows(s, v) && l < |s.hosts.loops|
    ensures Shows(AdoptedState(s, l, sid, task), v.(seats := L.Adopted(v.seats, v.max, sid)))
  {
    RegisterSeats(s.table, s.flow, v.seats, v.max, sid);
    TakeSeats(T.TableStep(s.table, T.Register(sid)), RegisterFlow(s.table, s.flow, sid),
        L.Registered(v.seats, v.max, sid), v.max, sid, s.hosts.loops[l].name);
  }

  // --- The steps of a loop, one after another ---

  function Iterate<S>(f: S -> S, s: S, n: nat): S {
    if n == 0 then s else f(Iterate(f, s, n - 1))
  }

  lemma {:induction false} IterateMore<S>(f: S -> S, s: S, m: nat, n: nat)
    ensures Iterate(f, s, m + n) == Iterate(f, Iterate(f, s, m), n)
  {
    if n > 0 {
      IterateMore(f, s, m, n - 1);
    }
  }

  function Own(l: nat): State -> State { s => Step(s, Advance(l)) }

  /** n steps of loop l in a row. */
  function Steps(s: State, l: nat, n: nat): State { Iterate(Own(l), s, n) }

  ghost predicate IsOwn(f: State -> State, l: nat) {
    forall s {:trigger Step(s, Advance(l))} :: f(s) == Step(s, Advance(l))
  }

  lemma GotoTwice(h: H.Hosts, l: nat, pc: H.LoopPc, qc: H.LoopPc)
    requires l < |h.loops|
    ensures H.Goto(H.Goto(h, l, pc), l, qc) == H.Goto(h, l, qc)
  {
    assert H.Goto(H.Goto(h, l, pc), l, qc).loops == H.Goto(h, l, qc).loops;
  }

  lemma RegisterStep(s: State, l: nat, reply: H.Reply)
    requires Up(s, l, H.OkRegister(reply))
    ensures Step(s, Advance(l)) == State(H.Goto(s.hosts, l, H.Up(H.OkTake(reply))),
            T.TableStep(s.table, T.Register(reply.sid)),
                                         RegisterFlow(s.table, s.flow, reply.sid), s.spawns)
  {
  }

  lemma TakeStep(s: State, l: nat, reply: H.Reply)
    requires Up(s, l, H.OkTake(reply))
    ensures Step(s, Advance(l)) == State(H.Goto(s.hosts, l, H.Up(H.OkReply(reply))), s.table,
                                         TakeFlow(s.table, s.flow, reply.sid, s.hosts.loops[l].name), s.spawns)
  {
  }

  lemma ReplyStep(s: State, l: nat, reply: H.Reply)
    requires Up(s, l, H.OkReply(reply))
    ensures Step(s, Advance(l)) == State(H.Goto(s.hosts, l, H.Up(H.Idle)), s.table, s.flow,
                                         C.SpawnStep(s.spawns, C.Respond(reply.req, C.Spawned(reply.shell, reply.sid))))
  {
  }

  /** Registered and taken. */
  lemma AdoptSteps(s: State, l: nat, reply: H.Reply)
    requires Up(s, l, H.OkRegister(reply))
    ensures Step(Step(s, Advance(l)), Advance(l)) == AdoptedState(s, l, reply.sid, H.OkReply(reply))
  {
    RegisterStep(s, l, reply);
    TakeStep(Step(s, Advance(l)), l, reply);
    GotoTwice(s.hosts, l, H.Up(H.OkTake(reply)), H.Up(H.OkReply(reply)));
  }

  lemma ThreeSteps(s: State, l: nat)
    ensures Steps(s, l, 1) == Step(s, Advance(l))
    ensures Steps(s, l, 3) == Step(Step(Step(s, Advance(l)), Advance(l)), Advance(l))
  {
    var f := Own(l);
    assert Iterate(f, s, 1) == f(s);
    assert Iterate(f, s, 2) == f(f(s));
    assert Iterate(f, s, 3) == f(f(f(s)));
  }

  lemma ReceiveStep(s: State, l: nat, msg: HostMessage)
    requires Up(s, l, H.Idle)
    ensures Step(s, Receive(l, msg)) == s.(hosts := H.Goto(s.hosts, l, H.Up(Task(msg))))
  {
  }

  function AnsweredState(s: State, l: nat, req: ReqId, answer: C.HostAnswer): State
    requires l < |s.hosts.loops|
  {
    State(H.Goto(s.hosts, l, H.Up(H.Idle)), s.table, s.flow, C.SpawnStep(s.spawns, C.Respond(req, answer)))
  }

  /** The answer reaches the call that is pending under its id, if there is one, and the entry goes. */
  lemma AnsweredShows(s: State, v: L.Shared, l: nat, req: ReqId, answer: C.HostAnswer)
    requires Shows(s, v) && l < |s.hosts.loops|
    ensures Shows(AnsweredState(s, l, req, answer), v.(pending := v.pending - {req}))
    ensures req in v.pending ==> Holds(AnsweredState(s, l, req, answer), v.pending[req], C.ResultOf(answer))
  {
  }

  /** Call c holds this result. */
  predicate Holds(s: State, c: nat, result: C.Result) {
    c < |s.spawns.calls| && s.spawns.calls[c].response == C.Filled(result)
  }

  lemma SpawnOkSteps(s: State, l: nat, reply: H.Reply)
    requires Up(s, l, H.OkRegister(reply))
    ensures Steps(s, l, 3) == AnsweredState(AdoptedState(s, l, reply.sid, H.OkReply(reply)), l, reply.req,
            C.Spawned(reply.shell, reply.sid))
  {
    AdoptSteps(s, l, reply);
    ThreeSteps(s, l);
    ReplyStep(AdoptedState(s, l, reply.sid, H.OkReply(reply)), l, reply);
  }

  lemma SpawnOkShows(s: State, v: L.Shared, l: nat, reply: H.Reply)
    requires Shows(s, v) && Up(s, l, H.OkRegister(reply))
    ensures Shows(Steps(s, l, 3), v.(seats := L.Adopted(v.seats, v.max, reply.sid), pending := v.pending - {reply.req}))
    ensures reply.req in v.pending ==> Holds(Steps(s, l, 3), v.pending[reply.req], C.Ok(reply.shell, reply.sid))
    ensures Up(Steps(s, l, 3), l, H.Idle)
  {
    var adopted := AdoptedState(s, l, reply.sid, H.OkReply(reply));
    SpawnOkSteps(s, l, reply);
    AdoptedSeats(s, v, l, reply.sid, H.OkReply(reply));
    AnsweredShows(adopted, v.(seats := L.Adopted(v.seats, v.max, reply.sid)), l, reply.req,
        C.Spawned(reply.shell, reply.sid));
  }

  // --- Recovery ---

  lemma RecoverStep(s: State, l: nat, rest: seq<SessionId>)
    requires Up(s, l, H.Recover(rest))
    ensures Step(s, Advance(l)) == s.(hosts := H.Goto(s.hosts, l, H.Up(
              if rest == [] then H.Idle
              else if rest[0] in s.table.ids then H.Recover(rest[1..])
              else H.RecoverRegister(rest[0], rest[1..]))))
  {
  }

  lemma RecoverAdopts(s: State, l: nat, sid: SessionId, rest: seq<SessionId>)
    requires Up(s, l, H.RecoverRegister(sid, rest))
    ensures Step(Step(s, Advance(l)), Advance(l)) == AdoptedState(s, l, sid, H.Recover(rest))
  {
    var t := Step(s, Advance(l));
    assert t == State(H.Goto(s.hosts, l, H.Up(H.RecoverTake(sid, rest))), T.TableStep(s.table, T.Register(sid)),
                      RegisterFlow(s.table, s.flow, sid), s.spawns);
    GotoTwice(s.hosts, l, H.Up(H.RecoverTake(sid, rest)), H.Up(H.Recover(rest)));
  }

  /** One listed shell: skipped in one step, or adopted in three. */
  lemma RecoverOne(f: State -> State, s: State, l: nat, rest: seq<SessionId>) returns (n: nat)
    requires IsOwn(f, l) && Up(s, l, H.Recover(rest)) && rest != []
    ensures Iterate(f, s, n) == if rest[0] in s.table.ids
            then s.(hosts := H.Goto(s.hosts, l, H.Up(H.Recover(rest[1..]))))
                                else AdoptedState(s, l, rest[0], H.Recover(rest[1..]))
  {
    RecoverStep(s, l, rest);
    FirstSteps(f, s);
    assert f(s) == Step(s, Advance(l));
    if rest[0] in s.table.ids {
      n := 1;
    } else {
      n := 3;
      var pc := H.Up(H.RecoverRegister(rest[0], rest[1..]));
      var t := s.(hosts := H.Goto(s.hosts, l, pc));
      RecoverAdopts(t, l, rest[0], rest[1..]);
      assert f(f(t)) == Step(Step(t, Advance(l)), Advance(l));
      GotoTwice(s.hosts, l, pc, H.Up(H.Recover(rest[1..])));
    }
  }

  lemma FirstSteps<S>(f: S -> S, s: S)
    ensures Iterate(f, s, 1) == f(s) && Iterate(f, s, 3) == f(f(f(s)))
  {
    assert Iterate(f, s, 2) == f(f(s));
  }

  lemma {:induction false} AllAdoptedFirst(seats: L.Seats, max: nat, sids: seq<SessionId>)
    requires sids != []
    ensures L.AllAdopted(seats, max, sids) == L.AllAdopted(L.Recovered(seats, max, sids[0]), max, sids[1..])
    decreases |sids|
  {
    var n := |sids| - 1;
    var front, tail := sids[..n], sids[1..];
    if n == 0 {
      assert front == [] && tail == [];
      assert L.AllAdopted(seats, max, front) == seats;
    } else {
      AllAdoptedFirst(seats, max, front);
      assert front[1..] == tail[..n - 1] && tail[n - 1] == sids[n];
      assert L.AllAdopted(seats, max, sids) == L.Recovered(L.AllAdopted(seats, max, front), max, sids[n]);
    }
  }

  lemma RecoverNone(f: State -> State, s: State, v: L.Shared, l: nat) returns (n: nat, t: State)
    requires IsOwn(f, l) && Shows(s, v) && Up(s, l, H.Recover([]))
    ensures t == Iterate(f, s, n) && Up(t, l, H.Idle) && Shows(t, v.(seats := L.AllAdopted(v.seats, v.max, [])))
  {
    RecoverStep(s, l, []);
    FirstSteps(f, s);
    n, t := 1, Step(s, Advance(l));
    assert L.AllAdopted(v.seats, v.max, []) == v.seats;
  }

  lemma RecoverFirst(f: State -> State, s: State, v: L.Shared, l: nat, rest: seq<SessionId>)
      returns (n: nat, t: State, u: L.Shared)
    requires IsOwn(f, l) && Shows(s, v) && Up(s, l, H.Recover(rest)) && rest != []
    ensures t == Iterate(f, s, n) && Shows(t, u) && Up(t, l, H.Recover(rest[1..]))
    ensures u == v.(seats := u.seats) && L.AllAdopted(u.seats, u.max, rest[1..]) == L.AllAdopted(v.seats, v.max, rest)
  {
    n := RecoverOne(f, s, l, rest);
    t, u := Iterate(f, s, n), v.(seats := L.Recovered(v.seats, v.max, rest[0]));
    AdoptedSeats(s, v, l, rest[0], H.Recover(rest[1..]));
    AllAdoptedFirst(v.seats, v.max, rest);
  }

  lemma {:induction false} RecoverShows(f: State -> State, s: State, v: L.Shared, l: nat, rest: seq<SessionId>)
      returns (n: nat, t: State)
    requires IsOwn(f, l) && Shows(s, v) && Up(s, l, H.Recover(rest))
    ensures t == Iterate(f, s, n) && Up(t, l, H.Idle) && Shows(t, v.(seats := L.AllAdopted(v.seats, v.max, rest)))
    decreases |rest|
  {
    if rest == [] {
      n, t := RecoverNone(f, s, v, l);
    } else {
      var m, mid, u := RecoverFirst(f, s, v, l, rest);
      var k, end := RecoverShows(f, mid, u, l, rest[1..]);
      IterateMore(f, s, m, k);
      n, t := m + k, end;
    }
  }

  // --- Every message ---

  lemma SimpleSteps(s: State, v: L.Shared, l: nat, msg: HostMessage)
    requires Shows(s, v) && Up(s, l, H.Up(Task(msg)).task) && (msg.Heartbeat? || msg.SpawnErr? || msg.ShellDied?)
    ensures var t := Step(s, Advance(l)); Up(t, l, H.Idle) && Shows(t, L.AfterMessage(v, s.hosts.loops[l].name, msg))
    ensures msg.SpawnErr? && msg.req in v.pending ==>
            Holds(Step(s, Advance(l)), v.pending[msg.req], C.Err(C.Remote(msg.error)))
  {
    if msg.SpawnErr? {
      AnsweredShows(s, v, l, msg.req, C.Failed(msg.error));
      assert Step(s, Advance(l)) == AnsweredState(s, l, msg.req, C.Failed(msg.error));
    }
  }

  /** With no other task in between, the loop's own steps take the protocol from what the
      shared objects held before a message to what the handler of `ControlLoop` leaves. */
  lemma HandlerRefines(s: State, v: L.Shared, l: nat, msg: HostMessage) returns (n: nat, t: State)
    requires Shows(s, v) && Up(s, l, H.Idle)
    ensures t == Steps(Step(s, Receive(l, msg)), l, n)
    ensures Up(t, l, H.Idle) && Shows(t, L.AfterMessage(v, s.hosts.loops[l].name, msg))
    ensures msg.SpawnOk? && msg.reply.req in v.pending ==>
            Holds(t, v.pending[msg.reply.req], C.Ok(msg.reply.shell, msg.reply.sid))
    ensures msg.SpawnErr? && msg.req in v.pending ==> Holds(t, v.pending[msg.req], C.Err(C.Remote(msg.error)))
  {
    var r := Step(s, Receive(l, msg));
    ReceiveStep(s, l, msg);
    ThreeSteps(r, l);
    if msg.SpawnOk? {
      SpawnOkShows(r, v, l, msg.reply);
      n := 3;
    } else if msg.ShellsList? {
      var k, end := RecoverShows(Own(l), r, v, l, msg.sids);
      n := k;
    } else {
      SimpleSteps(r, v, l, msg);
      n := 1;
    }
    t := Steps(r, l, n);
  }

  /** Joining the hub and the registry, as the constructor of `ControlLoop` does it. */
  lemma OpeningRefines(s: State, v: L.Shared, l: nat)
    requires Shows(s, v) && H.At(s.hosts, l, H.Connected)
    ensures var name := s.hosts.loops[l].name; var t := Step(Step(s, Advance(l)), Advance(l));
            Up(t, l, H.Idle) && Shows(t, L.AfterOpening(v, name, l))
  {
    var t := Step(s, Advance(l));
    assert t == s.(hosts := H.Goto(s.hosts.(hub := s.hosts.hub[s.hosts.loops[l].name := l]), l, H.InHub));
  }

  /** Leaving both, as `Close` does it. */
  lemma ClosingRefines(s: State, v: L.Shared, l: nat)
    requires Shows(s, v) && H.At(s.hosts, l, H.Closing)
    ensures var name := s.hosts.loops[l].name; var t := Step(Step(s, Advance(l)), Advance(l));
            H.At(t.hosts, l, H.Finished) && Shows(t, L.AfterClosing(v, name))
  {
    var name := s.hosts.loops[l].name;
    var t := Step(s, Advance(l));
    assert t == s.(hosts := H.Goto(s.hosts.(hub := s.hosts.hub - {name}), l, H.HubLeft));
    var u := Step(t, Advance(l));
    assert u.hosts.registry == s.hosts.registry - {name};
    assert u.flow == F.FlowStep(s.flow, F.CloseChannel(l));
    assert u.flow.stdins == s.flow.stdins;
  }
}
