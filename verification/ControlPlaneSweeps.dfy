/** `cleanup_dead` runs in two phases with the lock released in between. When what it
    removes is what it found dead, over all runs of the control plane. */
module ControlPlaneSweeps {
  import opened Common
  import opened Sessions
  import P = ControlPlane
  import S = ControlPlaneSafety

  /** The session table through a run. */
  ghost predicate TableRun(tables: seq<Table>, ops: seq<TableOp>) {
    |tables| == |ops| + 1 && forall k :: 0 <= k < |ops| ==> tables[k + 1] == TableStep(tables[k], ops[k])
  }

  /** Between steps `start` and `end` nobody put a new object under this id. */
  ghost predicate NotReused(tables: seq<Table>, ops: seq<TableOp>, start: nat, end: nat, id: SessionId)
    requires end <= |ops| < |tables|
  {
    forall j :: start <= j < end ==> !Adds(tables[j], ops[j], id)
  }

  lemma {:induction false} RunGrows(tables: seq<Table>, ops: seq<TableOp>, j: nat, k: nat)
    requires TableRun(tables, ops) && j <= k < |tables|
    ensures tables[j].sweeps <= tables[k].sweeps && |tables[j].objects| <= |tables[k].objects|
    decreases k - j
  {
    if j < k {
      RunGrows(tables, ops, j, k - 1);
      RecordsGrow(tables[k - 1], ops[k - 1], tables[k]);
    }
  }

  /** What an id that named object i first can name in the end, if whatever names it anew is
      numbered by how many objects there were. */
  lemma {:induction false} LastNamed(names: seq<Option<nat>>, adds: seq<bool>, sizes: seq<nat>, start: nat, end: nat,
      i: nat)
    requires start <= end <= |adds| < |names| == |sizes| && names[start] == Some(i) && names[end].Some?
    requires forall j :: start <= j < end ==>
               if adds[j] then names[j + 1] == Some(sizes[j]) else names[j + 1].Some? ==> names[j + 1] == names[j]
    ensures if forall j :: start <= j < end ==> !adds[j] then names[end] == Some(i)
            else exists j :: start <= j < end && names[end] == Some(sizes[j])
    decreases end - start
  {
    if start < end {
      if adds[end - 1] {
        assert names[end] == Some(sizes[end - 1]);
      } else {
        LastNamed(names, adds, sizes, start, end - 1, i);
      }
    }
  }

  /** What an id that named object i at step `start` can name at step `end`. */
  lemma NameSince(tables: seq<Table>, ops: seq<TableOp>, start: nat, end: nat, id: SessionId, i: nat)
    requires TableRun(tables, ops) && start <= end < |tables|
    requires id in tables[start].ids && tables[start].ids[id] == i
    requires id in tables[end].ids
    ensures NotReused(tables, ops, start, end, id) ==> tables[end].ids[id] == i
    ensures !NotReused(tables, ops, start, end, id) ==> tables[end].ids[id] >= |tables[start].objects|
  {
    var names := seq(|tables|, k requires 0 <= k < |tables| => NameAt(tables[k], id));
    var adds := seq(|ops|, k requires 0 <= k < |ops| => Adds(tables[k], ops[k], id));
    var sizes := seq(|tables|, k requires 0 <= k < |tables| => |tables[k].objects|);
    forall j | start <= j < end
      ensures if adds[j] then names[j + 1] == Some(sizes[j]) else names[j + 1].Some? ==> names[j + 1] == names[j]
    {
      NameStep(tables[j], ops[j], tables[j + 1], id);
    }
    LastNamed(names, adds, sizes, start, end, i);
    forall j | start <= j < end ensures sizes[j] >= |tables[start].objects| {
      RunGrows(tables, ops, start, j);
    }
    if forall j :: start <= j < end ==> !adds[j] {
      forall j | start <= j < end ensures !Adds(tables[j], ops[j], id) {
        assert !adds[j];
      }
    } else {
      var j :| start <= j < end && adds[j];
      assert Adds(tables[j], ops[j], id);
    }
  }

  function NameAt(t: Table, id: SessionId): Option<nat> { if id in t.ids then Some(t.ids[id]) else None }

  lemma CollectNames(t: Table, op: TableOp, id: SessionId)
    requires var u := TableStep(t, op); |u.sweeps| == |t.sweeps| + 1 && id in u.sweeps[|t.sweeps|]
    ensures var u := TableStep(t, op);
            u.objects == t.objects && id in u.ids && u.ids[id] == u.sweeps[|t.sweeps|][id]
  {
  }

  /** A cleanup that collected at step c and removes at step r takes away, for each id it
      found that is still in the table, the dead unmanaged object it found, if the id was not
      used again in between; if it was, it takes away an object made after it looked. */
  lemma SweepTakes(tables: seq<Table>, ops: seq<TableOp>, c: nat, r: nat, k: nat, id: SessionId)
    requires TableRun(tables, ops) && c < r < |ops| && TableSafe(tables[r]) && TableSafe(tables[c + 1])
    requires k == |tables[c].sweeps| && |tables[c + 1].sweeps| == k + 1 && ops[r] == RemoveDead(k)
    requires id in tables[c + 1].sweeps[k] && id in tables[r].ids
    ensures id !in tables[r + 1].ids
    ensures var found := tables[c + 1].sweeps[k][id];
            && (NotReused(tables, ops, c + 1, r, id) ==> tables[r].ids[id] == found && Dead(tables[r], found))
            && (!NotReused(tables, ops, c + 1, r, id) ==> tables[r].ids[id] >= |tables[c].objects| > found)
  {
    CollectNames(tables[c], ops[c], id);
    RunGrows(tables, ops, c + 1, r);
    NameSince(tables, ops, c + 1, r, id, tables[c + 1].sweeps[k][id]);
  }

  function Tables(states: seq<P.State>): (r: seq<Table>)
    ensures |r| == |states| && forall k :: 0 <= k < |r| ==> r[k] == states[k].table
  {
    seq(|states|, k requires 0 <= k < |states| => states[k].table)
  }

  function TableOps(states: seq<P.State>, actions: seq<P.Action>): (r: seq<TableOp>)
    requires |actions| <= |states|
    ensures |r| == |actions| && forall k :: 0 <= k < |r| ==> r[k] == P.EffectOf(states[k], actions[k]).table
  {
    seq(|actions|, k requires 0 <= k < |actions| => P.EffectOf(states[k], actions[k]).table)
  }

  lemma RunTables(states: seq<P.State>, actions: seq<P.Action>)
    requires P.Run(states, actions)
    ensures TableRun(Tables(states), TableOps(states, actions))
  {
    var tables, ops := Tables(states), TableOps(states, actions);
    forall k | 0 <= k < |ops| ensures tables[k + 1] == TableStep(tables[k], ops[k]) {
      assert states[k + 1] == P.Step(states[k], actions[k]);
    }
  }

  /** The same in every run of the control plane, whatever else goes on between the phases. */
  lemma CleanupTakesTheDead(states: seq<P.State>, actions: seq<P.Action>, c: nat, r: nat, k: nat, id: SessionId)
    requires P.Run(states, actions) && c < r < |actions|
    requires k == |states[c].table.sweeps| && |states[c + 1].table.sweeps| == k + 1 && actions[r] == P.SweepRemoves(k)
    requires id in states[c + 1].table.sweeps[k] && id in states[r].table.ids
    ensures id !in states[r + 1].table.ids
    ensures var t := states[r].table; var found := states[c + 1].table.sweeps[k][id];
            var untouched := NotReused(Tables(states), TableOps(states, actions), c + 1, r, id);
            && (untouched <==> t.ids[id] == found)
            && (untouched ==> Dead(t, t.ids[id]))
            && (!untouched ==> t.ids[id] >= |states[c].table.objects|)
  {
    S.RunSafe(states, actions, r);
    S.RunSafe(states, actions, c + 1);
    RunTables(states, actions);
    SweepTakes(Tables(states), TableOps(states, actions), c, r, k, id);
  }
}
