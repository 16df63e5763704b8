/**
 The prioritized waiting list as a plain value: the multiset of tasks it holds,
 and for every task id the index knows the exec time of the copy it points to.
 The heap in TaskHeap.dfy is proved to implement exactly these operations.
 */
module TaskLists {
  import opened Tasks

  datatype TaskList = TaskList(live: multiset<Task>, indexed: map<string, int>)

  const EMPTY := TaskList(multiset{}, map[])

  /** Every index entry points to a task that is in the list. */
  ghost predicate Sound(l: TaskList) {
    forall id :: id in l.indexed ==> Task(id, l.indexed[id]) in l.live
  }

  /** Every task in the list can be found by its id. */
  ghost predicate Covered(l: TaskList) {
    forall t :: t in l.live ==> t.id in l.indexed
  }

  /** No two copies in the list share an id. */
  ghost predicate DistinctIds(l: TaskList) {
    && (forall t :: t in l.live ==> l.live[t] == 1)
    && (forall t, u :: t in l.live && u in l.live && t.id == u.id ==> t == u)
  }

  ghost predicate Holds(l: TaskList, id: string) {
    exists t :: t in l.live && t.id == id
  }

  ghost predicate IsEarliest(l: TaskList, t: Task) {
    t in l.live && forall u :: u in l.live ==> t.execTime <= u.execTime
  }

  function Added(l: TaskList, t: Task): TaskList {
    TaskList(l.live + multiset{t}, l.indexed[t.id := t.execTime])
  }

  function Deleted(l: TaskList, id: string): TaskList {
    if id in l.indexed
    then TaskList(l.live - multiset{Task(id, l.indexed[id])}, l.indexed - {id})
    else l
  }

  function Taken(l: TaskList, t: Task): TaskList {
    TaskList(l.live - multiset{t}, l.indexed - {t.id})
  }

  /** The copies that deleting id drops: the one the index points to, if there is one. */
  function Dropped(l: TaskList, id: string): multiset<Task> {
    if id in l.indexed then multiset{Task(id, l.indexed[id])} else multiset{}
  }

  lemma DeletedLive(l: TaskList, id: string)
    requires Sound(l)
    ensures l.live == Deleted(l, id).live + Dropped(l, id)
  {
  }

  function AddedAll(l: TaskList, ts: seq<Task>): TaskList {
    if ts == [] then l else Added(AddedAll(l, ts[..|ts| - 1]), ts[|ts| - 1])
  }

  lemma AddedKeeps(l: TaskList, t: Task)
    requires Sound(l)
    ensures Sound(Added(l, t))
    ensures Covered(l) ==> Covered(Added(l, t))
    ensures DistinctIds(l) && !Holds(l, t.id) ==> DistinctIds(Added(l, t))
  {
    if Covered(l) {
      forall u | u in Added(l, t).live
        ensures u.id in Added(l, t).indexed
      {
        assert u in l.live || u == t;
      }
    }
    if DistinctIds(l) && !Holds(l, t.id) {
      forall u, v | u in Added(l, t).live && v in Added(l, t).live && u.id == v.id
        ensures u == v && Added(l, t).live[u] == 1
      {
        assert u in l.live || u == t;
        assert v in l.live || v == t;
        assert t !in l.live;
      }
    }
  }

  /**
   Removing a copy, by Take or by a cancel, keeps the index sound whenever the copy removed is
   the one its id points to or the id is dropped with it. The list stays findable exactly when no
   other copy of that id is left behind: with a duplicate, Take orphans the copy that stays.
   */
  lemma TakenKeeps(l: TaskList, t: Task)
    requires Sound(l) && t in l.live
    ensures Sound(Taken(l, t)) && l.live == Taken(l, t).live + multiset{t}
  {
  }

  lemma TakenStaysCovered(l: TaskList, t: Task)
    requires Sound(l) && t in l.live && Covered(l)
    ensures Covered(Taken(l, t)) <==> !Holds(Taken(l, t), t.id)
  {
    var l' := Taken(l, t);
    if !Holds(l', t.id) {
      forall u | u in l'.live
        ensures u.id in l'.indexed
      {
        assert u in l.live;
      }
    }
  }

  lemma TakenStaysDistinct(l: TaskList, t: Task)
    requires DistinctIds(l) && t in l.live
    ensures DistinctIds(Taken(l, t)) && !Holds(Taken(l, t), t.id)
  {
    var l' := Taken(l, t);
    forall u | u in l'.live
      ensures u in l.live && u.id != t.id && l'.live[u] == 1
    {
      assert u in l.live;
      assert l'.live[t] == 0;
    }
  }

  lemma DeletedKeeps(l: TaskList, id: string)
    requires Sound(l)
    ensures Sound(Deleted(l, id))
    ensures DistinctIds(l) ==> DistinctIds(Deleted(l, id))
    ensures DistinctIds(l) && Covered(l) ==> Covered(Deleted(l, id)) && !Holds(Deleted(l, id), id)
  {
    if id in l.indexed {
      var t := Task(id, l.indexed[id]);
      assert Deleted(l, id) == Taken(l, t);
      if DistinctIds(l) {
        TakenStaysDistinct(l, t);
        if Covered(l) {
          TakenStaysCovered(l, t);
        }
      }
    }
  }

  lemma {:induction false} AddedAllLive(l: TaskList, ts: seq<Task>)
    ensures AddedAll(l, ts).live == l.live + multiset(ts)
    ensures Sound(l) ==> Sound(AddedAll(l, ts))
  {
    if ts != [] {
      var front := ts[..|ts| - 1];
      AddedAllLive(l, front);
      assert ts == front + [ts[|ts| - 1]];
      if Sound(l) {
        AddedKeeps(AddedAll(l, front), ts[|ts| - 1]);
      }
    }
  }

  // ---------- Any sequence of operations ----------

  datatype Operation = Adding(task: Task) | Taking | Deleting(id: string)

  ghost predicate Does(l: TaskList, l': TaskList, op: Operation) {
    match op
    case Adding(task) => l' == Added(l, task)
    case Taking => if l.live == multiset{} then l' == l else exists t :: IsEarliest(l, t) && l' == Taken(l, t)
    case Deleting(id) => l' == Deleted(l, id)
  }

  ghost predicate IsHistory(tr: seq<TaskList>, ops: seq<Operation>) {
    && |tr| == |ops| + 1 && tr[0] == EMPTY
    && forall i :: 0 <= i < |ops| ==> Does(tr[i], tr[i + 1], ops[i])
  }

  lemma DoesKeepsSound(l: TaskList, l': TaskList, op: Operation)
    requires Sound(l) && Does(l, l', op)
    ensures Sound(l')
  {
    match op
    case Adding(task) => AddedKeeps(l, task);
    case Taking =>
      if t :| IsEarliest(l, t) && l' == Taken(l, t) {
        TakenKeeps(l, t);
      }
    case Deleting(id) => DeletedKeeps(l, id);
  }

  lemma DoesKeepsExact(l: TaskList, l': TaskList, op: Operation)
    requires Sound(l) && DistinctIds(l) && Covered(l) && Does(l, l', op)
    requires op.Adding? ==> !Holds(l, op.task.id)
    ensures DistinctIds(l') && Covered(l')
  {
    hide Sound, DistinctIds, Covered, Holds;
    match op
    case Adding(task) => AddedKeeps(l, task);
    case Taking =>
      if t :| IsEarliest(l, t) && l' == Taken(l, t) {
        TakenStaysDistinct(l, t);
        TakenStaysCovered(l, t);
      }
    case Deleting(id) => DeletedKeeps(l, id);
  }

  /** After any operations, duplicate ids included, every index entry leads to a live task of that id. */
  lemma {:induction false} IndexNeverDangles(tr: seq<TaskList>, ops: seq<Operation>, i: nat)
    requires IsHistory(tr, ops) && i < |tr|
    ensures Sound(tr[i])
  {
    if i > 0 {
      IndexNeverDangles(tr, ops, i - 1);
      DoesKeepsSound(tr[i - 1], tr[i], ops[i - 1]);
    }
  }

  /**
   As long as no id is added while a task of that id is in the list, the index covers exactly the live
   tasks, and deleting an id removes exactly the task of that id.
   */
  lemma {:induction false} IndexIsExact(tr: seq<TaskList>, ops: seq<Operation>, i: nat)
    requires IsHistory(tr, ops) && i < |tr|
    requires forall k :: 0 <= k < i && ops[k].Adding? ==> !Holds(tr[k], ops[k].task.id)
    ensures DistinctIds(tr[i]) && Covered(tr[i])
    ensures forall id :: id in tr[i].indexed <==> Holds(tr[i], id)
    ensures forall id, t :: t in Deleted(tr[i], id).live <==> t in tr[i].live && t.id != id
  {
    if i > 0 {
      IndexNeverDangles(tr, ops, i - 1);
      IndexIsExact(tr, ops, i - 1);
      DoesKeepsExact(tr[i - 1], tr[i], ops[i - 1]);
    }
    IndexNeverDangles(tr, ops, i);
    ExactDeletion(tr[i]);
  }

  lemma ExactDeletion(l: TaskList)
    requires Sound(l) && DistinctIds(l) && Covered(l)
    ensures forall id :: id in l.indexed <==> Holds(l, id)
    ensures forall id, t :: t in Deleted(l, id).live <==> t in l.live && t.id != id
  {
    forall id
      ensures id in l.indexed <==> Holds(l, id)
      ensures forall t :: t in Deleted(l, id).live <==> t in l.live && t.id != id
    {
      DeletedKeeps(l, id);
      if id in l.indexed {
        assert Task(id, l.indexed[id]) in l.live;
        assert !Holds(Deleted(l, id), id);
      }
    }
  }
}
