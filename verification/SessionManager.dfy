/** The session manager object: the same lock sections as methods over session objects. */
module SessionManager {
  import opened Common
  import T = Sessions

  datatype Result<+T> = Ok(value: T) | Full | Duplicate | StartFailed | NotFound

  /** What can be told of a session object from its own fields. */
  datatype Seat = Seat(managed: bool, stdinRx: bool)

  /** `stdinRx`: the receiver is still in its slot. `running`: the child has not exited. */
  class Session {
    const id: SessionId
    const managed: bool
    var stdinRx: bool
    var running: bool

    constructor (id: SessionId, managed: bool)
      ensures this.id == id && this.managed == managed && stdinRx && !running
    {
      this.id, this.managed, stdinRx, running := id, managed, true, false;
    }

    /** Takes the receiver for the PTY writer, then opens the PTY, which may fail. */
    method Start(opens: bool) returns (ok: bool)
      modifies this
      ensures !stdinRx && ok == (old(stdinRx) && opens)
      ensures running == if ok then true else old(running)
    {
      if !stdinRx {
        return false;
      }
      stdinRx := false;
      if !opens {
        return false;
      }
      running := true;
      return true;
    }

    predicate IsAlive()
      reads this
    {
      managed || running
    }
  }

  class SessionManager {
    var sessions: map<SessionId, Session>
    const maxSessions: nat

    /** Within the limit, every object under its own id, and local sessions started:
        their receiver is gone from the slot. */
    ghost predicate Valid()
      reads this, sessions.Values
    {
      && |sessions| <= maxSessions
      && forall id :: id in sessions ==> sessions[id].id == id && (sessions[id].managed || !sessions[id].stdinRx)
    }

    /** The table of the protocol and this object hold the same ids under the same limit. */
    ghost predicate Shows(t: T.Table)
      reads this
    {
      t.max == maxSessions && t.ids.Keys == sessions.Keys
    }

    /** Every session in the table, by its id. */
    ghost function Seats(): map<SessionId, Seat>
      reads this, sessions.Values
    {
      map id | id in sessions :: Seat(sessions[id].managed, sessions[id].stdinRx)
    }

    lemma SeatsSize()
      ensures Seats().Keys == sessions.Keys && |Seats()| == |sessions|
    {
      assert Seats().Keys == sessions.Keys && |Seats()| == |Seats().Keys| && |sessions| == |sessions.Keys|;
    }

    constructor (maxSessions: nat)
      ensures Valid() && sessions == map[] && this.maxSessions == maxSessions
    {
      this.maxSessions := maxSessions;
      sessions := map[];
    }

    method CreateSession(id: SessionId, opens: bool) returns (r: Result<Session>)
      requires Valid()
      modifies this
      ensures Valid()
      ensures r.Ok? <==> |old(sessions)| < maxSessions && opens
      ensures r.Ok? ==>
                && fresh(r.value) && !r.value.managed && r.value.IsAlive()
                && sessions == old(sessions)[id := r.value]
      ensures !r.Ok? ==> sessions == old(sessions)
      ensures forall t: T.Table :: old(Shows(t)) && opens ==> Shows(T.TableStep(t, T.Create(id)))
    {
      SameSize(sessions);
      if |sessions| >= maxSessions {
        return Full;
      }
      var session := new Session(id, false);
      var ok := session.Start(opens);
      if !ok {
        return StartFailed;
      }
      assert sessions[id := session].Keys == sessions.Keys + {id};
      sessions := sessions[id := session];
      return Ok(session);
    }

    method RegisterSession(id: SessionId) returns (r: Result<Session>)
      requires Valid()
      modifies this
      ensures Valid()
      ensures r.Full? <==> |old(sessions)| >= maxSessions
      ensures r.Duplicate? <==> |old(sessions)| < maxSessions && id in old(sessions)
      ensures r.Ok? <==> |old(sessions)| < maxSessions && id !in old(sessions)
      ensures r.Ok? ==> fresh(r.value) && r.value.managed && r.value.stdinRx && sessions == old(sessions)[id := r.value]
      ensures !r.Ok? ==> sessions == old(sessions)
      ensures id in sessions || |sessions| == maxSessions
      ensures Seats() == if r.Ok? then old(Seats())[id := Seat(true, true)] else old(Seats())
    {
      if |sessions| >= maxSessions {
        return Full;
      }
      var session := new Session(id, true);
      if id in sessions {
        return Duplicate;
      }
      assert sessions[id := session].Keys == sessions.Keys + {id};
      sessions := sessions[id := session];
      return Ok(session);
    }

    method UnregisterSession(id: SessionId) returns (r: Result<Session>)
      requires Valid()
      modifies this
      ensures Valid() && sessions == old(sessions) - {id}
      ensures Seats() == old(Seats()) - {id}
      ensures r == if id in old(sessions) then Ok(old(sessions)[id]) else NotFound
    {
      r := if id in sessions then Ok(sessions[id]) else NotFound;
      RemoveShrinks(sessions, {id});
      sessions := sessions - {id};
    }

    /** The receiver goes to the caller at most once, and never for a local session. */
    method TakeStdinRx(id: SessionId) returns (got: bool)
      requires Valid()
      modifies if id in sessions then {sessions[id]} else {}
      ensures Valid()
      ensures got == (id in sessions && old(id in sessions && sessions[id].stdinRx))
      ensures got ==> sessions[id].managed
      ensures Seats() == if id in sessions then old(Seats())[id := Seat(sessions[id].managed, false)] else old(Seats())
      ensures id in sessions ==> !sessions[id].stdinRx && sessions[id].running == old(sessions[id].running)
    {
      if id !in sessions {
        return false;
      }
      got := sessions[id].stdinRx;
      sessions[id].stdinRx := false;
    }

    /** Any session if there is one; the lock is released before a new one is made. */
    method DefaultSession(id: SessionId, opens: bool) returns (r: Result<Session>)
      requires Valid()
      modifies this
      ensures Valid()
      ensures old(sessions) != map[] ==> r.Ok? && r.value in old(sessions).Values && sessions == old(sessions)
      ensures old(sessions) == map[] ==> (r.Ok? <==> maxSessions > 0 && opens)
      ensures old(sessions) == map[] && r.Ok? ==> sessions == map[id := r.value]
    {
      if sessions.Keys != {} {
        var any :| any in sessions;
        return Ok(sessions[any]);
      }
      r := CreateSession(id, opens);
    }

    /** First phase of `cleanup_dead`, under the read lock. */
    method CollectDead() returns (dead: set<SessionId>)
      requires Valid()
      ensures forall id :: id in dead <==> id in sessions && !sessions[id].IsAlive()
    {
      dead := {};
      var left := sessions.Keys;
      while left != {}
        invariant left <= sessions.Keys
        invariant forall id :: id in dead <==> id in sessions && id !in left && !sessions[id].IsAlive()
        decreases |left|
      {
        var id :| id in left;
        if !sessions[id].IsAlive() {
          dead := dead + {id};
        }
        left := left - {id};
      }
    }

    /** Second phase, under the write lock: the ids go, whatever they name by now. */
    method RemoveDead(dead: set<SessionId>) returns (count: nat)
      requires Valid()
      modifies this
      ensures Valid() && sessions == old(sessions) - dead && count == |dead|
      ensures forall t: T.Table, k: nat :: old(Shows(t)) && k < |t.sweeps| && t.sweeps[k].Keys == dead ==>
              Shows(T.TableStep(t, T.RemoveDead(k)))
    {
      count := |dead|;
      RemoveShrinks(sessions, dead);
      sessions := Without(sessions, dead);
    }
  }

  /** Remove the ids one by one. */
  method Without(table: map<SessionId, Session>, ids: set<SessionId>) returns (rest: map<SessionId, Session>)
    ensures rest == table - ids
  {
    rest := table;
    var left := ids;
    while left != {}
      invariant left <= ids && rest == table - (ids - left)
      decreases |left|
    {
      var id :| id in left;
      RemoveOneMore(table, ids - left, id);
      assert ids - (left - {id}) == (ids - left) + {id};
      rest := rest - {id};
      left := left - {id};
    }
    assert ids - left == ids;
  }

  lemma RemoveOneMore(m: map<SessionId, Session>, gone: set<SessionId>, id: SessionId)
    ensures m - gone - {id} == m - (gone + {id})
  {
  }

  lemma SameSize(m: map<SessionId, Session>)
    ensures forall t: T.Table :: t.ids.Keys == m.Keys ==> |t.ids| == |m|
  {
    forall t: T.Table | t.ids.Keys == m.Keys ensures |t.ids| == |m| {
      assert |t.ids| == |t.ids.Keys| && |m| == |m.Keys|;
    }
  }
}
