/**
 The repository object of one instance, working on the tables with no other client between its
 statements: create_task, deletions with their occasional cleanup, the claim, and the reading of
 claimed collections one by one. What happens between statements is the subject of Protocol.dfy.
 */
module Repository {
  import opened Tasks
  import opened Time
  import opened Database
  import TaskManager

  function Wrap32(x: int): int {
    (x + 0x8000_0000) % 0x1_0000_0000 - 0x8000_0000
  }

  /** The counter of deletions after one more of them, and whether that one has to clean up. */
  function Counted(count: int, frequency: int): (int, bool) {
    var next := Wrap32(count + 1);
    if frequency > 0 && next % frequency == 0 then (0, true) else (next, false)
  }

  /** Whether the n-th deletion of a process cleans up, and the counter it leaves. */
  function AfterDeletions(n: nat, frequency: int): (int, bool) {
    if n == 0 then (0, false) else Counted(AfterDeletions(n - 1, frequency).0, frequency)
  }

  /** Exactly every frequency-th deletion cleans up, and the counter never wraps around. */
  lemma {:induction false} EveryNthCleans(n: nat, frequency: int)
    requires 0 < frequency < 0x8000_0000
    ensures AfterDeletions(n, frequency).0 == n % frequency
    ensures AfterDeletions(n, frequency).1 <==> n > 0 && n % frequency == 0
  {
    hide Counted;
    if n > 0 {
      EveryNthCleans(n - 1, frequency);
      NextRemainder(n - 1, frequency);
      CountsUp((n - 1) % frequency, frequency);
    }
  }

  lemma CountsUp(count: int, frequency: int)
    requires 0 <= count < frequency < 0x8000_0000
    ensures Counted(count, frequency) == if count + 1 == frequency then (0, true) else (count + 1, false)
  {
    RemainderIs(count + 1, if count + 1 == frequency then 1 else 0, if count + 1 == frequency then 0 else count + 1,
                frequency);
  }

  lemma NextRemainder(n: nat, m: int)
    requires m > 0
    ensures (n + 1) % m == if n % m + 1 == m then 0 else n % m + 1
  {
    var q := n / m;
    assert n == q * m + n % m;
    if n % m + 1 == m {
      assert n + 1 == (q + 1) * m;
      RemainderIs(n + 1, q + 1, 0, m);
    } else {
      RemainderIs(n + 1, q, n % m + 1, m);
    }
  }

  lemma RemainderIs(a: int, q: int, r: int, m: int)
    requires m > 0 && 0 <= r < m && a == q * m + r
    ensures a % m == r
  {
    assert (q + 1) * m == q * m + m;
    QuotientIs(a, q, m);
    assert a == a / m * m + a % m;
  }

  lemma {:induction false} EarliestExists(db: Db, ids: set<nat>)
    requires ids != {} && forall c :: c in ids ==> c in db.collections
    ensures exists c :: c in ids && forall d :: d in ids ==> db.collections[c].execTime <= db.collections[d].execTime
    decreases |ids|
  {
    var c :| c in ids;
    if ids - {c} != {} {
      EarliestExists(db, ids - {c});
      var d :| d in ids - {c}
               && forall x :: x in ids - {c} ==> db.collections[d].execTime <= db.collections[x].execTime;
      if db.collections[c].execTime < db.collections[d].execTime {
        assert forall x :: x in ids ==> db.collections[c].execTime <= db.collections[x].execTime;
      } else {
        assert forall x :: x in ids ==> db.collections[d].execTime <= db.collections[x].execTime;
      }
    } else {
      assert ids == {c};
    }
  }

  ghost predicate NoneEarlier(db: Db, before: set<nat>, after: set<nat>) {
    forall c, d :: c in before && d in after && c in db.collections && d in db.collections ==>
      db.collections[c].execTime <= db.collections[d].execTime
  }

  lemma NextInOrder(db: Db, before: set<nat>, after: set<nat>, order: seq<nat>, id: nat)
    requires IsOrdered(db, before, order) && NoneEarlier(db, before, after) && before !! after && id in after
    requires forall c :: c in after ==> c in db.collections
    requires forall d :: d in after ==> db.collections[id].execTime <= db.collections[d].execTime
    ensures IsOrdered(db, before + {id}, order + [id]) && NoneEarlier(db, before + {id}, after - {id})
  {
    var order' := order + [id];
    forall x
      ensures x in order' <==> x in order || x == id
    {
    }
    forall i, j | 0 <= i < j < |order'|
      ensures order'[i] != order'[j]
      ensures order'[i] in db.collections && order'[j] in db.collections ==>
                db.collections[order'[i]].execTime <= db.collections[order'[j]].execTime
    {
      assert order'[i] == order[i] && order[i] in before;
    }
  }

  lemma ClaimedIds(db: Db, ids: set<nat>, order: seq<nat>, me: nat)
    requires IsOrdered(db, ids, order)
    ensures (set c | c in order) == ids && (order == [] <==> ids == {})
    ensures ids == {} ==> Claim(db, ids, me) == db
  {
    if order != [] {
      assert order[0] in ids;
    }
  }

  lemma CleanedIsValid(db: Db, now: int)
    requires Valid(db)
    ensures Valid(WithoutCollections(db, Cleanable(db, now)))
    ensures Cleanable(db, now) == {} ==> WithoutCollections(db, Cleanable(db, now)) == db
  {
    forall id | id in db.tasks
      ensures db.tasks[id] !in Cleanable(db, now)
    {
      assert id in Rows(db, db.tasks[id]);
    }
  }

  lemma CleanableMeans(db: Db, now: int)
    ensures forall c :: c in Cleanable(db, now) <==>
              && c in db.collections && db.collections[c].execTime + 5 < Unix(now)
              && forall id :: id in db.tasks ==> db.tasks[id] != c
  {
    forall c | c in db.collections
      ensures Rows(db, c) == {} <==> forall id :: id in db.tasks ==> db.tasks[id] != c
    {
      assert forall id :: id in db.tasks && db.tasks[id] == c ==> id in Rows(db, c);
    }
  }

  class MysqlRepository {
    const appInstanceId: nat
    const maxCountTasksInCollection: int
    const cleaningFrequency: int
    var db: Db
    var cleanRequestCount: int

    /** Collection 0 does not exist, so that it can stand for none. */
    ghost predicate Consistent()
      reads this`db
    {
      Valid(db) && 1 <= db.nextId && 0 !in db.collections
    }

    constructor (appInstanceId: nat, maxCountTasksInCollection: int, cleaningFrequency: int, db: Db)
      requires Valid(db) && 1 <= db.nextId && 0 !in db.collections
      ensures Consistent() && this.db == db && cleanRequestCount == 0
      ensures this.appInstanceId == appInstanceId && this.cleaningFrequency == cleaningFrequency
      ensures this.maxCountTasksInCollection == maxCountTasksInCollection
    {
      this.appInstanceId := appInstanceId;
      this.maxCountTasksInCollection := maxCountTasksInCollection;
      this.cleaningFrequency := cleaningFrequency;
      this.db := db;
      this.cleanRequestCount := 0;
    }

    /**
     create_task. An exec time that does not fit the column is refused at once. A uuid that is already stored is
     refused by the last statement, after the first two have taken effect: the refused create can leave a
     new empty collection behind.
     */
    method Create(task: Task, isTaken: bool) returns (err: TaskManager.Outcome)
      requires Consistent()
      modifies this`db
      ensures Consistent()
      ensures err == if !FitsColumn(task.execTime) then TaskManager.OtherError
                     else if task.id in old(db).tasks then TaskManager.TaskExist else TaskManager.Ok
      ensures err.OtherError? ==> db == old(db)
      ensures err.Ok? ==>
                CreateTask(old(db), db, task.id, task.execTime, isTaken, appInstanceId, maxCountTasksInCollection)
      ensures err.Ok? ==>
                && task.id in db.tasks && db.tasks == old(db).tasks[task.id := db.tasks[task.id]]
                && (forall c :: c in old(db).collections ==>
                      c in db.collections && db.collections[c] == old(db).collections[c])
                && var c := db.tasks[task.id];
                   && db.collections[c].execTime == task.execTime
                   && (appInstanceId != 0 ==> (db.collections[c].takenBy == appInstanceId <==> isTaken))
                   && (if c in old(db).collections
                       then db.collections == old(db).collections && |Rows(old(db), c)| < maxCountTasksInCollection
                       else db.collections.Keys == old(db).collections.Keys + {c}
                            && forall d :: d in old(db).collections && old(db).collections[d].execTime == task.execTime
                                           && (old(db).collections[d].takenBy == appInstanceId <==> isTaken) ==>
                                 maxCountTasksInCollection <= |Rows(old(db), d)|)
      ensures err.TaskExist? ==>
                RefuseTask(old(db), db, task.execTime, isTaken, appInstanceId, maxCountTasksInCollection)
    {
      if !FitsColumn(task.execTime) {
        return TaskManager.OtherError;
      }
      var collectionId := 0;
      if c :| c in db.collections
              && Selectable(db, c, task.execTime, isTaken, appInstanceId, maxCountTasksInCollection) {
        collectionId := c;
      }
      if collectionId == 0 {
        collectionId := db.nextId;
        db := WithCollection(db, task.execTime, if isTaken then appInstanceId else 0);
      }
      if task.id in db.tasks {
        return TaskManager.TaskExist;
      }
      db := WithTask(db, task.id, collectionId);
      err := TaskManager.Ok;
    }

    /** DELETE ... IN, and a cleanup after every cleaningFrequency-th deletion. */
    method Delete(ids: seq<string>, now: int) returns (affected: nat)
      requires Consistent()
      modifies this`db, this`cleanRequestCount
      ensures Consistent()
      ensures affected == |old(db).tasks.Keys * (set id | id in ids)|
      ensures forall id :: id in db.tasks <==> id in old(db).tasks && id !in ids
      ensures forall id :: id in db.tasks ==> db.tasks[id] == old(db).tasks[id]
      ensures ids == [] ==> db == old(db) && cleanRequestCount == old(cleanRequestCount)
      ensures ids != [] ==>
                var (count, cleans) := Counted(old(cleanRequestCount), cleaningFrequency);
                var left := WithoutTasks(old(db), set id | id in ids);
                && cleanRequestCount == count
                && db == if cleans then WithoutCollections(left, Cleanable(left, now)) else left
    {
      if |ids| == 0 {
        return 0;
      }
      var doomed := set id | id in ids;
      affected := |db.tasks.Keys * doomed|;
      db := WithoutTasks(db, doomed);

      cleanRequestCount := Wrap32(cleanRequestCount + 1);
      if cleaningFrequency > 0 && cleanRequestCount % cleaningFrequency == 0 {
        DeleteEmptyCollections(now);
        cleanRequestCount := 0;
      }
    }

    method DeleteEmptyCollections(now: int)
      requires Consistent()
      modifies this`db
      ensures Consistent()
      ensures db == WithoutCollections(old(db), Cleanable(old(db), now))
      ensures db.tasks == old(db).tasks
      ensures forall c :: c in old(db).collections ==>
                (c !in db.collections <==>
                  old(db).collections[c].execTime + 5 < Unix(now) && forall id :: id in db.tasks ==> db.tasks[id] != c)
      ensures forall c :: c in db.collections ==>
                c in old(db).collections && db.collections[c] == old(db).collections[c]
    {
      var rows := Cleanable(db, now);
      var ids: seq<nat> := [];
      ghost var all := rows;
      while rows != {}
        invariant db == old(db) && forall id :: id in all <==> id in rows || id in ids
        decreases |rows|
      {
        var id :| id in rows;
        ids := ids + [id];
        rows := rows - {id};
      }
      assert (set id | id in ids) == all;
      CleanedIsValid(db, now);
      CleanableMeans(db, now);
      if |ids| > 0 {
        db := WithoutCollections(db, set id | id in ids);
      } else {
        assert all == {};
      }
    }

    /** The rows of the locking query: the ORDER BY clause, and the loop that collects the ids. */
    method OrderByExecTime(all: set<nat>) returns (collectionIds: seq<nat>)
      requires forall c :: c in all ==> c in db.collections
      ensures IsOrdered(db, all, collectionIds)
    {
      var rows := all;
      collectionIds := [];
      while rows != {}
        invariant rows <= all && IsOrdered(db, all - rows, collectionIds)
        invariant NoneEarlier(db, all - rows, rows)
        decreases |rows|
      {
        EarliestExists(db, rows);
        var id :| id in rows && forall d :: d in rows ==> db.collections[id].execTime <= db.collections[d].execTime;
        NextInOrder(db, all - rows, rows, collectionIds, id);
        assert all - (rows - {id}) == all - rows + {id};
        collectionIds := collectionIds + [id];
        rows := rows - {id};
      }
      assert all - rows == all;
    }

    /** The claim: it marks as mine, and hands out by exec time, exactly the collections that are due soon. */
    method FindBySecToExecTime(preloadingTimeRange: int, now: int) returns (collection: Collections?)
      requires Consistent()
      modifies this`db
      ensures Consistent()
      ensures var ids := if collection == null then {} else set c | c in collection.collections;
              && TakenOver(old(db), db, Unix(now + preloadingTimeRange), appInstanceId, ids)
              && (collection != null ==>
                    && fresh(collection) && collection.r == this && ids != {}
                    && IsOrdered(old(db), ids, collection.collections))
    {
      var toNextExecTime := Unix(now + preloadingTimeRange);
      ClaimTakesOver(db, toNextExecTime, appInstanceId);
      var rows := Claimable(db, toNextExecTime, appInstanceId);
      var collectionIds := OrderByExecTime(rows);
      ClaimedIds(db, rows, collectionIds, appInstanceId);
      if |collectionIds| == 0 {
        return null;
      }
      db := Claim(db, (set c | c in collectionIds), appInstanceId);
      collection := new Collections(collectionIds, this);
    }

    /** getTasksByCollection: the rows of one collection. */
    method GetTasksByCollection(collectionId: nat) returns (tasks: seq<Task>)
      requires Consistent()
      ensures IsRead(db, collectionId, tasks)
    {
      tasks := [];
      if collectionId !in db.collections {
        return;
      }
      var execTime := db.collections[collectionId].execTime;
      var rows := Rows(db, collectionId);
      ghost var all := rows;
      while rows != {}
        invariant rows <= all
        invariant forall t :: t in tasks <==> t.id in all - rows && t.execTime == execTime
        invariant forall i, j :: 0 <= i < j < |tasks| ==> tasks[i].id != tasks[j].id
        decreases |rows|
      {
        var id :| id in rows;
        assert forall t :: t in tasks ==> t.id != id;
        tasks := tasks + [Task(id, execTime)];
        rows := rows - {id};
      }
    }
  }

  datatype NextResult = Found(tasks: seq<Task>) | NoCollections | GettingFailed

  /** The claimed collections, handed out to the preloading workers one by one. */
  class Collections {
    var collections: seq<nat>
    const r: MysqlRepository

    constructor (collections: seq<nat>, r: MysqlRepository)
      ensures this.collections == collections && this.r == r
    {
      this.collections := collections;
      this.r := r;
    }

    method TakeCollectionId() returns (id: nat, isEnd: bool)
      modifies this
      ensures isEnd <==> old(collections) == []
      ensures old(collections) == (if isEnd then [] else [id]) + collections
    {
      if |collections| == 0 {
        return 0, true;
      }
      id := collections[0];
      collections := collections[1..];
      isEnd := false;
    }

    /** A failed read uses its collection up all the same. */
    method Next(fails: bool) returns (next: NextResult)
      requires r.Consistent()
      modifies this
      ensures next.NoCollections? <==> old(collections) == []
      ensures next.GettingFailed? <==> old(collections) != [] && fails
      ensures collections == if old(collections) == [] then [] else old(collections)[1..]
      ensures next.Found? ==> IsRead(r.db, old(collections)[0], next.tasks)
    {
      var id, isEnd := TakeCollectionId();
      if isEnd {
        return NoCollections;
      }
      if fails {
        return GettingFailed;
      }
      var tasks := r.GetTasksByCollection(id);
      next := Found(tasks);
    }
  }
}
