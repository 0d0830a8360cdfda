/** The attach loop of the MQTT transport: once a second it lists the sessions and starts
    an output forwarder for each one that has none. */
module MqttAttach {
  import opened Common

  /** What one poll sees: the listed ids, and which session object `get_session` then finds
      under an id, if the session is still there. */
  datatype Poll = Poll(ids: seq<SessionId>, handles: map<SessionId, nat>)

  datatype Started = Started(id: SessionId, handle: nat)

  /** The session was found at some poll and has been listed at every poll since. */
  ghost predicate Served(polls: seq<Poll>, k: nat, id: SessionId)
    requires k < |polls|
  {
    exists j :: 0 <= j <= k && id in polls[j].handles && ListedThrough(polls, j, k, id)
  }

  ghost predicate ListedThrough(polls: seq<Poll>, j: nat, k: nat, id: SessionId)
    requires k < |polls|
  {
    forall m :: j <= m <= k ==> id in polls[m].ids
  }

  /** A forwarder is due at poll k: the session is there and was not served so far. */
  ghost predicate Due(polls: seq<Poll>, k: nat, id: SessionId)
    requires k < |polls|
  {
    id in polls[k].ids && id in polls[k].handles && !(k > 0 && Served(polls, k - 1, id))
  }

  ghost predicate NoRepeats(started: seq<Started>) {
    forall i, j :: 0 <= i < j < |started| ==> started[i].id != started[j].id
  }

  /** The outer loop; `log[k]` are the forwarders started at poll k. */
  method AttachLoop(polls: seq<Poll>) returns (attached: set<SessionId>, log: seq<seq<Started>>)
    ensures |log| == |polls|
    ensures polls != [] ==> forall id :: id in attached <==> Served(polls, |polls| - 1, id)
    ensures forall k, e :: 0 <= k < |log| ==>
            (e in log[k] <==> Due(polls, k, e.id) && e.handle == polls[k].handles[e.id])
    ensures forall k :: 0 <= k < |log| ==> NoRepeats(log[k])
  {
    attached, log := {}, [];
    for k := 0 to |polls|
      invariant |log| == k && (k == 0 ==> attached == {})
      invariant k > 0 ==> forall id :: id in attached <==> Served(polls, k - 1, id)
      invariant forall j, e :: 0 <= j < k ==>
              (e in log[j] <==> Due(polls, j, e.id) && e.handle == polls[j].handles[e.id])
      invariant forall j :: 0 <= j < k ==> NoRepeats(log[j])
    {
      forall id {
        ServedStep(polls, k, id);
      }
      var next, started := AttachOnce(attached, polls[k]);
      attached, log := next, log + [started];
    }
  }

  /** One poll: start what is missing, then forget what is no longer listed. */
  method AttachOnce(before: set<SessionId>, poll: Poll) returns (attached: set<SessionId>, started: seq<Started>)
    ensures forall id :: id in attached <==> id in poll.ids && (id in before || id in poll.handles)
    ensures forall e :: e in started <==>
              e.id in poll.ids && e.id !in before && e.id in poll.handles && e.handle == poll.handles[e.id]
    ensures NoRepeats(started)
  {
    attached, started := before, [];
    for i := 0 to |poll.ids|
      invariant forall id :: id in attached <==> id in before || (id in poll.ids[..i] && id in poll.handles)
      invariant forall e :: e in started <==>
                  e.id in poll.ids[..i] && e.id !in before && e.id in poll.handles && e.handle == poll.handles[e.id]
      invariant NoRepeats(started)
    {
      var id := poll.ids[i];
      assert poll.ids[..i + 1] == poll.ids[..i] + [id];
      if id in attached || id !in poll.handles {
        continue;
      }
      assert forall j :: 0 <= j < |started| ==> started[j] in started;
      attached, started := attached + {id}, started + [Started(id, poll.handles[id])];
    }
    assert poll.ids[..|poll.ids|] == poll.ids;
    attached := set id | id in attached && id in poll.ids;
  }

  /** Served now means listed now, and found now or served before. */
  lemma ServedStep(polls: seq<Poll>, k: nat, id: SessionId)
    requires k < |polls|
    ensures Served(polls, k, id) <==>
            id in polls[k].ids && (id in polls[k].handles || (k > 0 && Served(polls, k - 1, id)))
  {
    if id in polls[k].ids && id in polls[k].handles {
      assert ListedThrough(polls, k, k, id);
    }
    if k > 0 && Served(polls, k - 1, id) && id in polls[k].ids {
      var j :| 0 <= j <= k - 1 && id in polls[j].handles && ListedThrough(polls, j, k - 1, id);
      assert ListedThrough(polls, j, k, id);
    }
    if Served(polls, k, id) && id !in polls[k].handles {
      var j :| 0 <= j <= k && id in polls[j].handles && ListedThrough(polls, j, k, id);
      assert j < k && ListedThrough(polls, j, k - 1, id);
    }
  }

  /** Forwarders for the same id never start twice unless the id went missing in between. */
  lemma NeverTwice(polls: seq<Poll>, j: nat, k: nat, id: SessionId)
    requires j < k < |polls| && Due(polls, j, id) && Due(polls, k, id)
    ensures exists m :: j < m < k && id !in polls[m].ids
  {
    assert !Served(polls, k - 1, id);
    assert !ListedThrough(polls, j, k - 1, id);
  }

  /** A session that is there at a poll has had a forwarder started for its id by then,
      at a poll since which the id was always listed. */
  lemma {:induction false} AlwaysServed(polls: seq<Poll>, k: nat, id: SessionId) returns (j: nat)
    requires k < |polls| && Served(polls, k, id)
    ensures j <= k && Due(polls, j, id) && ListedThrough(polls, j, k, id)
  {
    ServedStep(polls, k, id);
    if k > 0 && Served(polls, k - 1, id) {
      j := AlwaysServed(polls, k - 1, id);
    } else {
      j := k;
    }
  }

  /** That poll is the only one at which a forwarder fell due while the id stayed listed. */
  lemma OneStart(polls: seq<Poll>, i: nat, j: nat, k: nat, id: SessionId)
    requires k < |polls| && i <= k && j <= k
    requires Due(polls, i, id) && ListedThrough(polls, i, k, id) && Due(polls, j, id) && ListedThrough(polls, j, k, id)
    ensures i == j
  {
    if i < j {
      NeverTwice(polls, i, j, id);
    } else if j < i {
      NeverTwice(polls, j, i, id);
    }
  }

  /** This session object has a forwarder, started at a poll since which its id was always listed. */
  ghost predicate HasForwarder(polls: seq<Poll>, k: nat, id: SessionId, handle: nat)
    requires k < |polls|
  {
    exists j :: 0 <= j <= k && Due(polls, j, id) && polls[j].handles[id] == handle && ListedThrough(polls, j, k, id)
  }

  /** The session object found under an id has a forwarder of its own if and only if it is the
      object that was found there when the one forwarder of the id was started. */
  lemma ServedExactly(polls: seq<Poll>, k: nat, id: SessionId) returns (j: nat)
    requires k < |polls| && id in polls[k].ids && id in polls[k].handles
    ensures j <= k && Due(polls, j, id) && ListedThrough(polls, j, k, id)
    ensures forall i :: 0 <= i <= k && Due(polls, i, id) && ListedThrough(polls, i, k, id) ==> i == j
    ensures HasForwarder(polls, k, id, polls[k].handles[id]) <==> polls[j].handles[id] == polls[k].handles[id]
  {
    ServedStep(polls, k, id);
    j := AlwaysServed(polls, k, id);
    forall i | 0 <= i <= k && Due(polls, i, id) && ListedThrough(polls, i, k, id) ensures i == j {
      OneStart(polls, i, j, k, id);
    }
  }

  /** When, between two polls, a session ends and its id is used again, the new object gets
      no forwarder. */
  lemma ReplacedSessionIsMissed(id: SessionId)
    ensures var polls := [Poll([id], map[id := 0]), Poll([id], map[id := 1])];
            Due(polls, 0, id) && !Due(polls, 1, id) && Served(polls, 1, id) && !HasForwarder(polls, 1, id, 1)
  {
    var polls := [Poll([id], map[id := 0]), Poll([id], map[id := 1])];
    assert ListedThrough(polls, 0, 0, id) && ListedThrough(polls, 0, 1, id);
    assert Served(polls, 0, id);
    assert Due(polls, 0, id) && !Due(polls, 1, id);
  }
}
