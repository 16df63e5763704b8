/**
 The preloading service as it runs when nothing interferes: one create, and one round of the
 preloading loop with a single worker. Protocol.dfy says what is left of this when creates, claims,
 workers and crashes interleave; UninterruptedCreate connects the two.
 */
module Preloader {
  import opened Tasks
  import opened Time
  import opened Database
  import opened Repository
  import TaskManager
  import Protocol

  /** The rows of the collections in order: each row once, collection by collection, by exec time. */
  ghost predicate RowsInOrder(db: Db, order: seq<nat>, tasks: seq<Task>) {
    && (forall t :: t in tasks <==> t.id in db.tasks && db.tasks[t.id] in order && db.tasks[t.id] in db.collections
                                    && t.execTime == db.collections[db.tasks[t.id]].execTime)
    && (forall i, j :: 0 <= i < j < |tasks| ==> tasks[i].id != tasks[j].id && tasks[i].execTime <= tasks[j].execTime)
  }

  /** The rows of the next collection come after those of the earlier ones. */
  lemma NextLoad(db: Db, ids: set<nat>, order: seq<nat>, k: nat, tasks: seq<Task>, load: seq<Task>)
    requires IsOrdered(db, ids, order) && k < |order| && forall c :: c in ids ==> c in db.collections
    requires RowsInOrder(db, order[..k], tasks) && IsRead(db, order[k], load)
    ensures RowsInOrder(db, order[..k + 1], tasks + load)
  {
    assert order[k] in order;
    assert order[..k + 1] == order[..k] + [order[k]];
    forall t | t in tasks
      ensures db.tasks[t.id] != order[k] && t.execTime <= db.collections[order[k]].execTime
    {
      var i :| 0 <= i < k && order[..k][i] == db.tasks[t.id];
      assert order[i] in order;
    }
    LoadsJoin(tasks, load, db.collections[order[k]].execTime);
    forall t
      ensures t in tasks + load <==> t in tasks || t in load
    {
    }
  }

  lemma LoadsJoin(tasks: seq<Task>, load: seq<Task>, execTime: int)
    requires forall i, j :: 0 <= i < j < |tasks| ==>
               tasks[i].id != tasks[j].id && tasks[i].execTime <= tasks[j].execTime
    requires forall i, j :: 0 <= i < j < |load| ==> load[i].id != load[j].id
    requires forall t, u :: t in tasks && u in load ==> t.id != u.id
    requires forall t :: t in tasks ==> t.execTime <= execTime
    requires forall u :: u in load ==> u.execTime == execTime
    ensures forall i, j :: 0 <= i < j < |tasks + load| ==>
              (tasks + load)[i].id != (tasks + load)[j].id && (tasks + load)[i].execTime <= (tasks + load)[j].execTime
  {
    var both := tasks + load;
    forall i, j | 0 <= i < j < |both|
      ensures both[i].id != both[j].id && both[i].execTime <= both[j].execTime
    {
      if j < |tasks| {
        assert both[i] == tasks[i] && both[j] == tasks[j];
      } else if i < |tasks| {
        assert both[i] in tasks && both[j] in load;
      } else {
        assert both[i] in load && both[j] in load;
      }
    }
  }

  datatype RoundEnd = Asleep | Preloaded | Fatal

  /** A stored row of one of the collections, with the exec time of its collection. */
  ghost predicate IsRowOf(db: Db, ids: set<nat>, t: Task) {
    && t.id in db.tasks && db.tasks[t.id] in ids && db.tasks[t.id] in db.collections
    && t.execTime == db.collections[db.tasks[t.id]].execTime
  }

  lemma {:induction false} AsManyAsIds(ids: set<nat>, order: seq<nat>)
    requires forall x :: x in order <==> x in ids
    requires forall i, j :: 0 <= i < j < |order| ==> order[i] != order[j]
    ensures |order| == |ids|
  {
    if order == [] {
      assert ids == {};
    } else {
      assert order[0] in ids;
      forall x
        ensures x in order[1..] <==> x in ids - {order[0]}
      {
      }
      AsManyAsIds(ids - {order[0]}, order[1..]);
    }
  }

  /** A claim keeps the exec times, so the order of what it hands out is right after it too. */
  lemma ClaimKeepsOrder(db: Db, db': Db, toNext: int, me: nat, ids: set<nat>, order: seq<nat>)
    requires TakenOver(db, db', toNext, me, ids) && IsOrdered(db, ids, order)
    ensures IsOrdered(db', ids, order) && (forall c :: c in ids ==> c in db'.collections) && |order| == |ids|
  {
    AsManyAsIds(ids, order);
  }

  /** What the workers read after the claim are rows that were there before it. */
  lemma ReadAreRows(db: Db, db': Db, toNext: int, me: nat, ids: set<nat>, order: seq<nat>, k: nat, tasks: seq<Task>)
    requires TakenOver(db, db', toNext, me, ids) && IsOrdered(db, ids, order)
    requires k <= |order| && RowsInOrder(db', order[..k], tasks)
    ensures forall t :: t in tasks ==> IsRowOf(db, ids, t)
    ensures k == |order| ==> forall t :: IsRowOf(db, ids, t) ==> t in tasks
    ensures forall i, j :: 0 <= i < j < |tasks| ==> tasks[i].id != tasks[j].id && tasks[i].execTime <= tasks[j].execTime
  {
    forall t | t in tasks
      ensures IsRowOf(db, ids, t)
    {
      assert db.tasks[t.id] in order[..k];
      assert db.tasks[t.id] in order;
    }
    if k == |order| {
      assert order[..k] == order;
    }
  }

  class PreloadingService {
    const repository: MysqlRepository
    const timePreload: int
    const coefTimePreloadOfNewTask: int
    var preloadedTask: seq<Task>   // what was sent on the channel

    /** Instances have ids of their own, so none of them is the empty one that stands for nobody. */
    ghost predicate Consistent()
      reads this, repository
    {
      repository.Consistent() && repository.appInstanceId != 0
    }

    constructor (repository: MysqlRepository, timePreload: int, coefTimePreloadOfNewTask: int)
      requires repository.Consistent() && repository.appInstanceId != 0
      ensures Consistent() && preloadedTask == [] && this.repository == repository
      ensures this.timePreload == timePreload && this.coefTimePreloadOfNewTask == coefTimePreloadOfNewTask
    {
      this.repository := repository;
      this.timePreload := timePreload;
      this.coefTimePreloadOfNewTask := coefTimePreloadOfNewTask;
      this.preloadedTask := [];
    }

    /**
     AddNewTask, with the clamp of the task manager: the task is sent to the channel if and only if its
     row went into a collection that belongs to this instance, and with the exec time of that collection.
     That is the case exactly for exec times less than the scaled preload time ahead.
     */
    method AddNewTask(task: Task, started: int, clamped: int) returns (err: TaskManager.Outcome, saved: Task)
      requires Consistent()
      modifies this`preloadedTask, repository`db
      ensures Consistent()
      ensures err.Ok? <==> task.id !in old(repository.db.tasks) && FitsColumn(saved.execTime)
      ensures saved.id == task.id && saved.execTime >= task.execTime && saved.execTime >= Unix(clamped)
      ensures saved.execTime == task.execTime || saved.execTime == Unix(clamped)
      ensures !err.Ok? ==> preloadedTask == old(preloadedTask) && repository.db.tasks == old(repository.db.tasks)
      ensures err.Ok? ==>
                && task.id in repository.db.tasks
                && repository.db.tasks == old(repository.db.tasks)[task.id := repository.db.tasks[task.id]]
                && var c := repository.db.collections[repository.db.tasks[task.id]];
                   && c.execTime == saved.execTime
                   && preloadedTask == old(preloadedTask)
                                       + (if c.takenBy == repository.appInstanceId then [saved] else [])
                   && (-MAX_SECONDS <= task.execTime - Unix(started) <= MAX_SECONDS ==>
                         (c.takenBy == repository.appInstanceId <==>
                           Instant(task.execTime) < Instant(Unix(started)) + timePreload * coefTimePreloadOfNewTask))
    {
      UntilIsExactWhen(task.execTime, started);
      var relativeTimeToExec := Until(task.execTime, started);
      var isTaken := timePreload * coefTimePreloadOfNewTask > relativeTimeToExec;

      saved := task;
      var now := Unix(clamped);
      if saved.execTime < now {
        saved := saved.(execTime := now);
      }
      err := repository.Create(saved, isTaken);
      if err != TaskManager.Ok {
        return;
      }
      if isTaken {
        preloadedTask := preloadedTask + [saved];
      }
    }

    /**
     getBunchOfTask: a worker that reads all collections and sends their tasks, or gives up with a fatal event
     at its first failed read, which is read number failAt.
     */
    method GetBunchOfTask(result: Collections, failAt: nat, ghost ids: set<nat>)
      returns (fatal: bool, ghost pushed: seq<Task>)
      requires Consistent() && result.r == repository
      requires IsOrdered(repository.db, ids, result.collections)
      requires forall c :: c in ids ==> c in repository.db.collections
      modifies this`preloadedTask, result
      ensures preloadedTask == old(preloadedTask) + pushed && (fatal <==> failAt < |old(result.collections)|)
      ensures var order := old(result.collections);
              if fatal
              then RowsInOrder(repository.db, order[..failAt], pushed) && result.collections == order[failAt + 1..]
              else RowsInOrder(repository.db, order, pushed) && result.collections == []
    {
      ghost var order := result.collections;
      pushed := [];
      var k: nat := 0;
      while true
        invariant k <= |order| && k <= failAt && result.collections == order[k..]
        invariant preloadedTask == old(preloadedTask) + pushed
        invariant RowsInOrder(repository.db, order[..k], pushed)
        decreases |result.collections|
      {
        var next := result.Next(k == failAt);
        if next.NoCollections? {
          assert order[..k] == order;
          return false, pushed;
        } else if next.GettingFailed? {
          return true, pushed;
        }
        var tasks := next.tasks;
        ghost var before := preloadedTask;
        for i := 0 to |tasks|
          invariant preloadedTask == before + tasks[..i] && result.collections == order[k..][1..]
        {
          preloadedTask := preloadedTask + [tasks[i]];
        }
        NextLoad(repository.db, ids, order, k, pushed, tasks);
        pushed := pushed + tasks;
        k := k + 1;
      }
    }

    /**
     One round of Run with a single worker. It sends exactly the rows of the collections that are due within
     the preload time and were not mine, each of them once, in the order of their exec times, and makes these
     collections mine; with a failed read it sends some of these rows; with a failed claim it changes nothing.
     */
    method Round(now: int, claimFails: bool, failAt: nat)
      returns (end: RoundEnd, ghost pushed: seq<Task>, ghost ids: set<nat>)
      requires Consistent()
      modifies this`preloadedTask, repository`db
      ensures Consistent() && preloadedTask == old(preloadedTask) + pushed
      ensures claimFails ==> end.Fatal? && pushed == [] && repository.db == old(repository.db)
      ensures !claimFails ==>
                var db := old(repository.db);
                && TakenOver(db, repository.db, Unix(now + timePreload), repository.appInstanceId, ids)
                && (end.Asleep? <==> ids == {}) && (end.Fatal? ==> failAt < |ids|)
                && (forall t :: t in pushed ==> IsRowOf(db, ids, t))
                && (!end.Fatal? ==> forall t :: IsRowOf(db, ids, t) ==> t in pushed)
      ensures forall i, j :: 0 <= i < j < |pushed| ==>
                pushed[i].id != pushed[j].id && pushed[i].execTime <= pushed[j].execTime
    {
      hide TakenOver, IsOrdered, RowsInOrder, Claimable, Claim, IsRead, Valid;
      pushed, ids := [], {};
      if claimFails {
        return Fatal, pushed, ids;
      }
      ghost var db, toNext, me := repository.db, Unix(now + timePreload), repository.appInstanceId;
      var result := repository.FindBySecToExecTime(timePreload, now);
      if result == null {
        return Asleep, pushed, ids;
      }
      ghost var order := result.collections;
      ids := set c | c in order;
      ClaimKeepsOrder(db, repository.db, toNext, me, ids, order);
      var fatal;
      fatal, pushed := GetBunchOfTask(result, failAt, ids);
      assert order[..|order|] == order;
      ReadAreRows(db, repository.db, toNext, me, ids, order, if fatal then failAt else |order|, pushed);
      end := if fatal then Fatal else Preloaded;
    }
  }

  /**
   The steps of a create that nothing interrupts make up create_task. So the packing results about serial
   creates are results about the steps of the protocol.
   */
  lemma UninterruptedCreate(c: Protocol.Config, s0: Protocol.State, s1: Protocol.State, s2: Protocol.State,
                            s3: Protocol.State, k: nat, found: Option<nat>)
    requires Valid(s0.db) && Protocol.DoSelect(c, s0, s1, k, found)
    requires if found.Some? then s2 == s1 else Protocol.DoInsertCollection(s1, s2, k)
    requires Protocol.DoLand(s2, s3, k) && s0.creators[k].id !in s0.db.tasks
    ensures var cr := s0.creators[k];
            CreateTask(s0.db, s3.db, cr.id, cr.execTime, cr.isTaken, s0.me, c.max)
  {
    var cr := s0.creators[k];
    if found.Some? {
      assert Selectable(s0.db, found.value, cr.execTime, cr.isTaken, s0.me, c.max);
    }
  }
}
