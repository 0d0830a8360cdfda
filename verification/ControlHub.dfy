/** The hub object: its lock sections as methods, tied to the steps of the protocol. */
module ControlHub {
  import opened Common
  import C = SpawnCalls

  /** A connected host; `loop` stands for the sending end of that loop's queue. */
  datatype Connection = Connection(loop: nat, meta: string)

  class ControlHub {
    var connections: map<Name, Connection>
    var pendingSpawns: map<ReqId, nat>

    /** The hub as the protocol sees it. */
    ghost function Hub(): map<Name, nat>
      reads this
    {
      map n | n in connections :: connections[n].loop
    }

    constructor ()
      ensures connections == map[] && pendingSpawns == map[]
    {
      connections, pendingSpawns := map[], map[];
    }

    /** Last writer wins. */
    method Register(name: Name, meta: string, loop: nat)
      modifies this`connections
      ensures connections == old(connections)[name := Connection(loop, meta)]
      ensures Hub() == old(Hub())[name := loop]
    {
      connections := connections[name := Connection(loop, meta)];
    }

    /** Removes the name, whoever registered it. */
    method Unregister(name: Name)
      modifies this`connections
      ensures connections == old(connections) - {name}
      ensures Hub() == old(Hub()) - {name}
    {
      connections := connections - {name};
    }

    /** A heartbeat changes who is connected in no way, and never adds a host. */
    method Heartbeat(name: Name, meta: string)
      modifies this`connections
      ensures Hub() == old(Hub())
      ensures name in old(connections) ==>
              connections == old(connections)[name := old(connections)[name].(meta := meta)]
      ensures name !in old(connections) ==> connections == old(connections)
    {
      if name in connections {
        connections := connections[name := connections[name].(meta := meta)];
      }
    }

    /** The first lock section of `spawn` and of `send_to`: clone the sender. */
    method Sender(host: Name) returns (loop: Option<nat>)
      ensures loop == if host in Hub() then Some(Hub()[host]) else None
    {
      loop := if host in connections then Some(connections[host].loop) else None;
    }

    /** The second lock section of `spawn`; the call whose entry is replaced loses its sender. */
    method InsertPending(req: ReqId, call: nat) returns (replaced: Option<nat>)
      modifies this`pendingSpawns
      ensures pendingSpawns == old(pendingSpawns)[req := call]
      ensures replaced == if req in old(pendingSpawns) then Some(old(pendingSpawns)[req]) else None
      ensures forall x: C.Spawns ::
              x.pending == old(pendingSpawns) && call < |x.calls| && x.calls[call].pc.HasSender?
                  && x.calls[call].req == req ==>
                var y := C.SpawnStep(x, C.Insert(call));
                && y.pending == pendingSpawns
                && (replaced.Some? && replaced.value != call && replaced.value < |x.calls| ==>
                     C.Lost(y, replaced.value))
    {
      replaced := if req in pendingSpawns then Some(pendingSpawns[req]) else None;
      pendingSpawns := pendingSpawns[req := call];
    }

    /** Lost connection, dropped channel, or timeout. The entry under the id goes, whichever
        call put it there, and that call loses its sender. */
    method Withdraw(req: ReqId) returns (dropped: Option<nat>)
      modifies this`pendingSpawns
      ensures pendingSpawns == old(pendingSpawns) - {req}
      ensures dropped == if req in old(pendingSpawns) then Some(old(pendingSpawns)[req]) else None
      ensures forall x: C.Spawns, call: nat ::
              x.pending == old(pendingSpawns) && call < |x.calls| && C.GivesUp(x.calls[call].pc)
                  && x.calls[call].req == req ==>
                var y := C.SpawnStep(x, C.GiveUp(call));
                && y.pending == pendingSpawns
                && (dropped.Some? && dropped.value != call && dropped.value < |x.calls| ==> C.Lost(y, dropped.value))
    {
      dropped := if req in pendingSpawns then Some(pendingSpawns[req]) else None;
      pendingSpawns := pendingSpawns - {req};
    }

    /** `handle_spawn_ok` and `handle_spawn_err`: which call gets the answer. */
    method HandleAnswer(req: ReqId) returns (call: Option<nat>)
      modifies this`pendingSpawns
      ensures call == if req in old(pendingSpawns) then Some(old(pendingSpawns)[req]) else None
      ensures pendingSpawns == old(pendingSpawns) - {req}
    {
      if req in pendingSpawns {
        call := Some(pendingSpawns[req]);
        pendingSpawns := pendingSpawns - {req};
      } else {
        call := None;
      }
    }
  }
}
