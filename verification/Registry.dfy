/** The service registry: last sightings, and who counts as disconnected. */
module Registry {
  import opened Common

  const EXPIRE_AFTER: Time := 30000

  datatype Status = Connected | Disconnected
  datatype Service = Service(lastSeen: Time, status: Status)

  /** A service marked disconnected has been silent for too long; no other may be. */
  ghost predicate Consistent(services: map<Name, Service>, now: Time) {
    forall n :: n in services ==>
      services[n].lastSeen <= now && (services[n].status == Disconnected ==> services[n].lastSeen + EXPIRE_AFTER < now)
  }

  function Expire(s: Service, now: Time): Service {
    if s.lastSeen + EXPIRE_AFTER < now then s.(status := Disconnected) else s
  }

  class ServiceRegistry {
    var services: map<Name, Service>
    /** The latest reading of the monotonic clock that has reached the map. */
    ghost var now: Time

    ghost predicate Valid()
      reads this
    {
      Consistent(services, now)
    }

    constructor ()
      ensures Valid() && services == map[] && now == 0
    {
      services, now := map[], 0;
    }

    /** The clock was read before the lock was awaited, so others may have been seen later. */
    method Register(name: Name, at: Time)
      requires Valid()
      modifies this
      ensures Valid() && now == (if at < old(now) then old(now) else at)
      ensures services == old(services)[name := Service(at, Connected)]
    {
      services, now := services[name := Service(at, Connected)], if at < now then now else at;
    }

    method Unregister(name: Name) returns (found: bool)
      requires Valid()
      modifies this`services
      ensures Valid() && found == (name in old(services)) && services == old(services) - {name}
    {
      found := name in services;
      services := services - {name};
    }

    method Heartbeat(name: Name, at: Time) returns (found: bool)
      requires Valid() && at >= now
      modifies this
      ensures Valid() && now == at && found == (name in old(services))
      ensures services == if found then old(services)[name := Service(at, Connected)] else old(services)
    {
      found := name in services;
      if found {
        services := services[name := Service(at, Connected)];
      }
      now := at;
    }

    /** Listing first expires: afterwards a service counts as connected exactly if it was
        seen within the last thirty seconds. */
    method List(at: Time) returns (all: map<Name, Service>)
      requires Valid() && at >= now
      modifies this
      ensures Valid() && now == at && all == services && services.Keys == old(services).Keys
      ensures forall n :: n in services ==>
                services[n].lastSeen == old(services)[n].lastSeen
                && (services[n].status == Connected <==> at <= services[n].lastSeen + 30000)
    {
      var left := services.Keys;
      while left != {}
        invariant left <= services.Keys && services.Keys == old(services).Keys
        invariant forall n :: n in services ==>
                services[n] == if n in left then old(services)[n] else Expire(old(services)[n], at)
        decreases |left|
      {
        var n :| n in left;
        services := services[n := Expire(services[n], at)];
        left := left - {n};
      }
      now := at;
      all := services;
    }
  }
}
