/** The session table: what its lock sections do. */
module Sessions {
  import opened Common

  /** A session object; objects are numbered in the order of their creation, and an id
      may name several of them over time. */
  datatype Session = Session(id: SessionId, managed: bool, alive: bool)

  /** `sweeps` records the first phase of every cleanup: which ids were dead, and the objects they named. */
  datatype Table = Table(max: nat, ids: map<SessionId, nat>, objects: seq<Session>, sweeps: seq<map<SessionId, nat>>)

  datatype TableOp =
    | NoTable
    | Register(id: SessionId)
    | Create(id: SessionId)
    | Unregister(id: SessionId)
    | ChildExits(i: nat)
    | Collect(dead: set<SessionId>)
    | RemoveDead(k: nat)

  predicate Full(t: Table) { |t.ids| >= t.max }

  /** `register_session` checks the limit first, then the id. */
  predicate CanRegister(t: Table, id: SessionId) { !Full(t) && id !in t.ids }

  function Add(t: Table, s: Session): Table {
    t.(ids := t.ids[s.id := |t.objects|], objects := t.objects + [s])
  }

  /** Managed sessions never count as dead. */
  predicate Dead(t: Table, i: nat) { i < |t.objects| && !t.objects[i].managed && !t.objects[i].alive }

  function TableStep(t: Table, op: TableOp): Table {
    match op
    case NoTable => t
    case Register(id) => if CanRegister(t, id) then Add(t, Session(id, true, true)) else t
    case Create(id) => if Full(t) then t else Add(t, Session(id, false, true))
    case Unregister(id) => t.(ids := t.ids - {id})
    case ChildExits(i) =>
      if i < |t.objects| && !t.objects[i].managed then t.(objects := t.objects[i := t.objects[i].(alive := false)])
          else t
    case Collect(dead) =>
      if forall id :: id in dead ==> id in t.ids && Dead(t, t.ids[id])
      then t.(sweeps := t.sweeps + [map id | id in dead :: t.ids[id]]) else t
    case RemoveDead(k) => if k < |t.sweeps| then t.(ids := t.ids - t.sweeps[k].Keys) else t
  }

  /** The table names each object by its own id. */
  ghost predicate Named(t: Table) {
    forall id :: id in t.ids ==> t.ids[id] < |t.objects| && t.objects[t.ids[id]].id == id
  }

  /** What a sweep found dead is dead for good. */
  ghost predicate SweptDead(t: Table) {
    forall k :: 0 <= k < |t.sweeps| ==> forall id :: id in t.sweeps[k] ==> Dead(t, t.sweeps[k][id])
  }

  ghost predicate TableSafe(t: Table) { |t.ids| <= t.max && Named(t) && SweptDead(t) }

  lemma InsertSize(m: map<SessionId, nat>, id: SessionId, i: nat)
    ensures |m[id := i]| <= |m| + 1
  {
    assert m[id := i].Keys == m.Keys + {id};
  }

  lemma LimitKept(t: Table, op: TableOp)
    requires |t.ids| <= t.max
    ensures |TableStep(t, op).ids| <= TableStep(t, op).max
  {
    if op.Register? || op.Create? {
      InsertSize(t.ids, op.id, |t.objects|);
    } else if op.Unregister? {
      RemoveShrinks(t.ids, {op.id});
    } else if op.RemoveDead? && op.k < |t.sweeps| {
      RemoveShrinks(t.ids, t.sweeps[op.k].Keys);
    }
  }

  lemma NamesKept(t: Table, op: TableOp)
    requires Named(t)
    ensures Named(TableStep(t, op))
  {
  }

  lemma DeadStaysDead(t: Table, op: TableOp, i: nat)
    requires Dead(t, i)
    ensures Dead(TableStep(t, op), i)
  {
  }

  lemma SweepsKept(t: Table, op: TableOp)
    requires SweptDead(t)
    ensures SweptDead(TableStep(t, op))
  {
    var u := TableStep(t, op);
    forall k, id | 0 <= k < |u.sweeps| && id in u.sweeps[k] ensures Dead(u, u.sweeps[k][id]) {
      if k < |t.sweeps| {
        DeadStaysDead(t, op, t.sweeps[k][id]);
      }
    }
  }

  lemma TableStepKeeps(t: Table, op: TableOp)
    requires TableSafe(t)
    ensures TableSafe(TableStep(t, op))
  {
    LimitKept(t, op);
    NamesKept(t, op);
    SweepsKept(t, op);
  }

  /** The second phase removes only unmanaged dead sessions if no id was reused in between. */
  lemma SweepRemovesDead(t: Table, k: nat, id: SessionId)
    requires TableSafe(t) && k < |t.sweeps| && id in t.ids && id !in TableStep(t, RemoveDead(k)).ids
    requires t.ids[id] == t.sweeps[k][id]
    ensures Dead(t, t.ids[id])
  {
  }

  /** A step that puts a new object under this id. */
  predicate Adds(t: Table, op: TableOp, id: SessionId) {
    (op == Register(id) && CanRegister(t, id)) || (op == Create(id) && !Full(t))
  }

  /** A step that takes this id out, whatever it names. */
  predicate Removes(t: Table, op: TableOp, id: SessionId) {
    op == Unregister(id) || (op.RemoveDead? && op.k < |t.sweeps| && id in t.sweeps[op.k])
  }

  /** What an id names after a step: the new object, what it named before, or nothing. */
  lemma NameStep(t: Table, op: TableOp, u: Table, id: SessionId)
    requires u == TableStep(t, op)
    ensures id in u.ids <==> Adds(t, op, id) || (id in t.ids && !Removes(t, op, id))
    ensures id in u.ids ==> u.ids[id] == if Adds(t, op, id) then |t.objects| else t.ids[id]
  {
  }

  /** A new object is what it was added as; of the others only a local one changes, by its child's exit. */
  lemma ObjectStep(t: Table, op: TableOp, id: SessionId, i: nat)
    ensures var u := TableStep(t, op);
            && (Adds(t, op, id) ==>
                  |t.objects| < |u.objects| && u.objects[|t.objects|] == Session(id, op.Register?, true))
            && (i < |t.objects| ==>
                  && i < |u.objects|
                  && u.objects[i] == t.objects[i].(alive := t.objects[i].alive
                                                     && !(op == ChildExits(i) && !t.objects[i].managed)))
  {
  }

  /** The first phase of a cleanup notes exactly the ids it was to find, and what they name. */
  lemma SweepStep(t: Table, op: TableOp)
    requires Named(t)
    ensures var u := TableStep(t, op);
            var found := op.Collect? && forall id :: id in op.dead ==> id in t.ids && Dead(t, t.ids[id]);
            && |u.sweeps| == |t.sweeps| + (if found then 1 else 0)
            && (found ==> u.sweeps[|t.sweeps|].Keys == op.dead
                          && forall id :: id in op.dead ==> u.sweeps[|t.sweeps|][id] == t.ids[id])
  {
  }

  lemma RecordsGrow(t: Table, op: TableOp, u: Table)
    requires u == TableStep(t, op)
    ensures t.sweeps <= u.sweeps && |t.objects| <= |u.objects|
  {
  }

  /** Without that the sweep can remove a live managed session: a dead local session is
      found, unregistered, and its id registered again before the second phase. */
  lemma SweepHitsReusedId(id: SessionId)
    ensures var t0 := TableStep(Table(1, map[], [], []), Create(id));
            var t1 := TableStep(TableStep(t0, ChildExits(0)), Collect({id}));
            var t2 := TableStep(TableStep(t1, Unregister(id)), Register(id));
            id in t2.ids && t2.objects[t2.ids[id]] == Session(id, true, true) && id !in TableStep(t2, RemoveDead(0)).ids
  {
    var t0 := TableStep(Table(1, map[], [], []), Create(id));
    assert t0.ids == map[id := 0] && t0.objects == [Session(id, false, true)];
    var t1 := TableStep(t0, ChildExits(0));
    assert t1.ids == t0.ids && Dead(t1, 0);
    var t2 := TableStep(t1, Collect({id}));
    assert t2.ids == t0.ids && id in t2.sweeps[0];
    var t3 := TableStep(t2, Unregister(id));
    assert t3.ids == map[] && t3.sweeps == t2.sweeps;
  }
}
