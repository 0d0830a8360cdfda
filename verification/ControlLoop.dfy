/** The body of a control loop: what one message from a host does to the shared objects
    when no other task runs in between. */
module ControlLoop {
  import opened Common
  import R = Registry
  import Hub = ControlHub
  import M = SessionManager
  import opened ControlPlane

  type Seats = map<SessionId, M.Seat>

  function Registered(seats: Seats, max: nat, sid: SessionId): Seats {
    if |seats| < max && sid !in seats then seats[sid := M.Seat(true, true)] else seats
  }

  function Taken(seats: Seats, sid: SessionId): Seats {
    if sid in seats then seats[sid := seats[sid].(stdinRx := false)] else seats
  }

  function Adopted(seats: Seats, max: nat, sid: SessionId): Seats { Taken(Registered(seats, max, sid), sid) }

  /** Recovery leaves a session alone that is in the table. */
  function Recovered(seats: Seats, max: nat, sid: SessionId): Seats {
    if sid in seats then seats else Adopted(seats, max, sid)
  }

  /** Recovery takes the listed sessions one by one. */
  function AllAdopted(seats: Seats, max: nat, sids: seq<SessionId>): Seats {
    if sids == [] then seats
    else
      Recovered(AllAdopted(seats, max, sids[..|sids| - 1]), max, sids[|sids| - 1])
  }

  /** What the shared objects hold: connected hosts, announced services, pending spawn
      requests, and the session table under its limit. */
  datatype Shared = Shared(hub: map<Name, nat>, services: set<Name>, pending: map<ReqId, nat>, seats: Seats, max: nat)

  /** What handling a message does to them. */
  function AfterMessage(v: Shared, name: Name, msg: HostMessage): Shared {
    match msg
    case Heartbeat => v.(services := v.services + {name})
    case SpawnOk(reply) => v.(seats := Adopted(v.seats, v.max, reply.sid), pending := v.pending - {reply.req})
    case SpawnErr(req, _) => v.(pending := v.pending - {req})
    case ShellDied(sid) => v.(seats := v.seats - {sid})
    case ShellsList(sids) => v.(seats := AllAdopted(v.seats, v.max, sids))
  }

  function AfterOpening(v: Shared, name: Name, index: nat): Shared {
    v.(hub := v.hub[name := index], services := v.services + {name})
  }

  function AfterClosing(v: Shared, name: Name): Shared {
    v.(hub := v.hub - {name}, services := v.services - {name})
  }

  class ControlLoop {
    const name: Name
    const index: nat
    const hub: Hub.ControlHub
    const registry: R.ServiceRegistry
    const sessions: M.SessionManager
    var shellsRequested: bool

    ghost function View(): Shared
      reads this, hub, registry, sessions, sessions.sessions.Values
    {
      Shared(hub.Hub(), registry.services.Keys, hub.pendingSpawns, sessions.Seats(), sessions.maxSessions)
    }

    ghost predicate Valid()
      reads this, registry, sessions, sessions.sessions.Values
    {
      registry.Valid() && sessions.Valid()
    }

    /** Into the hub, then into the registry. */
    constructor (name: Name, index: nat, hub: Hub.ControlHub, registry: R.ServiceRegistry,
        sessions: M.SessionManager, at: Time)
      requires registry.Valid() && sessions.Valid()
      modifies hub`connections, registry
      ensures Valid() && this.name == name && this.index == index && !shellsRequested
      ensures this.hub == hub && this.registry == registry && this.sessions == sessions
      ensures hub.connections == old(hub.connections)[name := Hub.Connection(index, "")]
      ensures registry.services == old(registry.services)[name := R.Service(at, R.Connected)]
      ensures sessions.Seats() == old(sessions.Seats())
      ensures View() == AfterOpening(old(Shared(hub.Hub(), registry.services.Keys, hub.pendingSpawns,
              sessions.Seats(), sessions.maxSessions)), name, index)
    {
      this.name, this.index, this.hub, this.registry, this.sessions := name, index, hub, registry, sessions;
      shellsRequested := false;
      new;
      hub.Register(name, "", index);
      registry.Register(name, at);
    }

    /** The first heartbeat, and no other, asks the host for its shells. */
    method Heartbeat(meta: string, at: Time) returns (listShells: bool)
      requires Valid()
      modifies this, hub`connections, registry
      ensures Valid() && hub.Hub() == old(hub.Hub()) && sessions.Seats() == old(sessions.Seats())
      ensures registry.services == old(registry.services)[name := R.Service(at, R.Connected)]
      ensures listShells == !old(shellsRequested) && shellsRequested
      ensures View() == AfterMessage(old(View()), name, HostMessage.Heartbeat)
    {
      hub.Heartbeat(name, meta);
      registry.Register(name, at);
      listShells := !shellsRequested;
      shellsRequested := true;
    }

    /** `register_session`, whose error is ignored, and `take_stdin_rx`; `forwarding` says
        that a stdin forwarder is spawned. */
    method Adopt(sid: SessionId) returns (forwarding: bool)
      requires Valid()
      modifies sessions, sessions.sessions.Values
      ensures Valid() && fresh(sessions.sessions.Values - old(sessions.sessions.Values))
      ensures sessions.Seats() == Adopted(old(sessions.Seats()), sessions.maxSessions, sid)
      ensures forwarding ==
              (var s := Registered(old(sessions.Seats()), sessions.maxSessions, sid); sid in s && s[sid].stdinRx)
      ensures sid in sessions.sessions || |sessions.sessions| == sessions.maxSessions
    {
      ghost var before := sessions.Seats();
      sessions.SeatsSize();
      var r := sessions.RegisterSession(sid);
      assert sessions.Seats() == Registered(before, sessions.maxSessions, sid);
      forwarding := sessions.TakeStdinRx(sid);
    }

    /** `handle_spawn_ok` and `handle_spawn_err` leave the sessions alone. */
    method Answer(req: ReqId) returns (call: Option<nat>)
      requires Valid()
      modifies hub`pendingSpawns
      ensures Valid() && sessions.sessions == old(sessions.sessions) && sessions.Seats() == old(sessions.Seats())
      ensures hub.Hub() == old(hub.Hub())
      ensures call == if req in old(hub.pendingSpawns) then Some(old(hub.pendingSpawns)[req]) else None
      ensures hub.pendingSpawns == old(hub.pendingSpawns) - {req}
    {
      call := hub.HandleAnswer(req);
    }

    /** Registered, its receiver taken, and only then is the caller told. */
    method SpawnOk(reply: H.Reply) returns (answered: Option<nat>, forwarding: bool)
      requires Valid()
      modifies hub`pendingSpawns, sessions, sessions.sessions.Values
      ensures Valid() && sessions.Seats() == Adopted(old(sessions.Seats()), sessions.maxSessions, reply.sid)
      ensures reply.sid in sessions.sessions || |sessions.sessions| == sessions.maxSessions
      ensures answered == if reply.req in old(hub.pendingSpawns) then Some(old(hub.pendingSpawns)[reply.req]) else None
      ensures hub.pendingSpawns == old(hub.pendingSpawns) - {reply.req} && hub.Hub() == old(hub.Hub())
      ensures View() == AfterMessage(old(View()), name, HostMessage.SpawnOk(reply))
    {
      forwarding := Adopt(reply.sid);
      answered := Answer(reply.req);
    }

    method SpawnErr(req: ReqId, error: string) returns (answered: Option<nat>)
      requires Valid()
      modifies hub`pendingSpawns
      ensures Valid() && sessions.Seats() == old(sessions.Seats())
      ensures answered == if req in old(hub.pendingSpawns) then Some(old(hub.pendingSpawns)[req]) else None
      ensures hub.pendingSpawns == old(hub.pendingSpawns) - {req} && hub.Hub() == old(hub.Hub())
      ensures View() == AfterMessage(old(View()), name, HostMessage.SpawnErr(req, error))
    {
      answered := Answer(req);
    }

    method ShellDied(sid: SessionId)
      requires Valid()
      modifies sessions
      ensures Valid() && sessions.Seats() == old(sessions.Seats()) - {sid}
      ensures View() == AfterMessage(old(View()), name, HostMessage.ShellDied(sid))
    {
      var r := sessions.UnregisterSession(sid);
    }

    method ShellsList(sids: seq<SessionId>)
      requires Valid()
      modifies sessions, sessions.sessions.Values
      ensures Valid() && sessions.Seats() == AllAdopted(old(sessions.Seats()), sessions.maxSessions, sids)
      ensures View() == AfterMessage(old(View()), name, HostMessage.ShellsList(sids))
    {
      for i := 0 to |sids|
        invariant Valid() && sessions.Seats() == AllAdopted(old(sessions.Seats()), sessions.maxSessions, sids[..i])
        invariant fresh(sessions.sessions.Values - old(sessions.sessions.Values))
      {
        assert sids[..i + 1][..i] == sids[..i];
        if sids[i] !in sessions.sessions {
          var forwarding := Adopt(sids[i]);
        }
      }
      assert sids[..|sids|] == sids;
    }

    /** After the loop: out of the hub, then out of the registry, whoever holds the name. */
    method Close()
      requires Valid()
      modifies hub`connections, registry
      ensures Valid() && hub.Hub() == old(hub.Hub()) - {name} && registry.services == old(registry.services) - {name}
      ensures sessions.Seats() == old(sessions.Seats())
      ensures View() == AfterClosing(old(View()), name)
    {
      hub.Unregister(name);
      var found := registry.Unregister(name);
    }
  }
}
