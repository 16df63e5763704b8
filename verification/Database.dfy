/** The two tables, and what each SQL statement of the repository reads and writes. */
module Database {
  import opened Tasks
  import opened Time

  /** A row of table collection. Instances are numbered; 0 stands for the empty taken_by_instance. */
  datatype Collection = Collection(execTime: int, takenBy: nat)

  /** Table task maps uuids to collection ids; nextId is the AUTO_INCREMENT counter. */
  datatype Db = Db(collections: map<nat, Collection>, tasks: map<string, nat>, nextId: nat)

  const EMPTY := Db(map[], map[], 1)

  /** Every task row refers to a collection row, and no id is ahead of the counter. */
  ghost predicate Valid(db: Db) {
    && (forall c :: c in db.collections ==> c < db.nextId)
    && (forall id :: id in db.tasks ==> db.tasks[id] in db.collections)
  }

  function Rows(db: Db, c: nat): set<string> {
    set id | id in db.tasks && db.tasks[id] == c
  }

  /** The WHERE and HAVING clauses of the first statement of create_task. */
  predicate Selectable(db: Db, c: nat, execTime: int, isTaken: bool, me: nat, max: int) {
    && c in db.collections
    && db.collections[c].execTime == execTime
    && (db.collections[c].takenBy == me <==> isTaken)
    && |Rows(db, c)| < max
  }

  ghost predicate NoneSelectable(db: Db, execTime: int, isTaken: bool, me: nat, max: int) {
    forall c :: c in db.collections ==> !Selectable(db, c, execTime, isTaken, me, max)
  }

  function WithCollection(db: Db, execTime: int, takenBy: nat): Db {
    db.(collections := db.collections[db.nextId := Collection(execTime, takenBy)], nextId := db.nextId + 1)
  }

  function WithTask(db: Db, id: string, c: nat): Db {
    db.(tasks := db.tasks[id := c])
  }

  function WithoutTasks(db: Db, ids: set<string>): Db {
    db.(tasks := db.tasks - ids)
  }

  /** The collections that FindBySecToExecTime locks. */
  function Claimable(db: Db, toNext: int, me: nat): set<nat> {
    set c | c in db.collections && db.collections[c].execTime <= toNext && db.collections[c].takenBy != me
  }

  function Claim(db: Db, ids: set<nat>, me: nat): Db {
    db.(collections := map c | c in db.collections ::
      if c in ids then db.collections[c].(takenBy := me) else db.collections[c])
  }

  /**
   What a claim is for: every collection that is due by the bound is mine, those handed out are the ones that were
   not mine before, and everything else is as it was.
   */
  ghost predicate TakenOver(db: Db, db': Db, toNext: int, me: nat, handedOut: set<nat>) {
    && db'.tasks == db.tasks && db'.nextId == db.nextId && db'.collections.Keys == db.collections.Keys
    && (forall c :: c in db.collections ==>
          var before, after := db.collections[c], db'.collections[c];
          && after.execTime == before.execTime
          && after.takenBy == if before.execTime <= toNext then me else before.takenBy)
    && (forall c :: c in handedOut <==>
          c in db.collections && db.collections[c].execTime <= toNext && db.collections[c].takenBy != me)
  }

  lemma ClaimTakesOver(db: Db, toNext: int, me: nat)
    ensures TakenOver(db, Claim(db, Claimable(db, toNext, me), me), toNext, me, Claimable(db, toNext, me))
  {
  }

  /** The ids of locked collections, as the query returns them: each once, by exec time. */
  ghost predicate IsOrdered(db: Db, ids: set<nat>, order: seq<nat>) {
    && (forall x :: x in order <==> x in ids)
    && (forall i, j :: 0 <= i < j < |order| ==> order[i] != order[j])
    && (forall i, j :: 0 <= i < j < |order| && order[i] in db.collections && order[j] in db.collections ==>
          db.collections[order[i]].execTime <= db.collections[order[j]].execTime)
  }

  /** The rows of collection c joined with its exec time: each once, in any order. */
  ghost predicate IsRead(db: Db, c: nat, tasks: seq<Task>) {
    && (forall t :: t in tasks ==> t.id in db.tasks && db.tasks[t.id] == c && c in db.collections
                                   && t.execTime == db.collections[c].execTime)
    && (forall id :: id in db.tasks && db.tasks[id] == c && c in db.collections ==>
          Task(id, db.collections[c].execTime) in tasks)
    && (forall i, j :: 0 <= i < j < |tasks| ==> tasks[i].id != tasks[j].id)
  }

  /** The collections that deleteEmptyCollections finds. */
  function Cleanable(db: Db, now: int): set<nat> {
    set c | c in db.collections && db.collections[c].execTime < Unix(now) - 5 && Rows(db, c) == {}
  }

  function WithoutCollections(db: Db, ids: set<nat>): Db {
    db.(collections := db.collections - ids)
  }

  /** create_task without interference: it packs into a collection that is not full, or opens one. */
  ghost predicate CreateTask(db: Db, db': Db, id: string, execTime: int, isTaken: bool, me: nat, max: int) {
    && id !in db.tasks
    && ((exists c :: Selectable(db, c, execTime, isTaken, me, max) && db' == WithTask(db, id, c))
        || (NoneSelectable(db, execTime, isTaken, me, max)
            && db' == WithTask(WithCollection(db, execTime, if isTaken then me else 0), id, db.nextId)))
  }

  /** create_task when its last statement fails: it may have opened a collection, which stays empty. */
  ghost predicate RefuseTask(db: Db, db': Db, execTime: int, isTaken: bool, me: nat, max: int) {
    db' == if NoneSelectable(db, execTime, isTaken, me, max)
           then WithCollection(db, execTime, if isTaken then me else 0) else db
  }

  lemma RowsAfterTask(db: Db, id: string, c: nat, d: nat)
    requires id !in db.tasks
    ensures Rows(WithTask(db, id, c), d) == if d == c then Rows(db, d) + {id} else Rows(db, d)
  {
  }

  lemma RowsShrink(db: Db, ids: set<string>, c: nat)
    ensures |Rows(WithoutTasks(db, ids), c)| <= |Rows(db, c)|
  {
    assert Rows(WithoutTasks(db, ids), c) <= Rows(db, c);
    SubsetSize(Rows(WithoutTasks(db, ids), c), Rows(db, c));
  }

  lemma SubsetSize<T>(a: set<T>, b: set<T>)
    requires a <= b
    ensures |a| <= |b|
  {
    assert b == a + (b - a);
  }

  // ---------- Packing ----------

  datatype Change =
    | Create(id: string, execTime: int, isTaken: bool, me: nat)
    | Refused(execTime: int, isTaken: bool, me: nat)
    | Delete(ids: set<string>)
    | TakeOver(toNext: int, me: nat)
    | Clean(now: int)

  /** Changes of the tables in which no create interleaves with anything. */
  ghost predicate SerialStep(max: int, db: Db, db': Db, e: Change) {
    match e
    case Create(id, execTime, isTaken, me) => CreateTask(db, db', id, execTime, isTaken, me, max)
    case Refused(execTime, isTaken, me) => RefuseTask(db, db', execTime, isTaken, me, max)
    case Delete(ids) => db' == WithoutTasks(db, ids)
    case TakeOver(toNext, me) => db' == Claim(db, Claimable(db, toNext, me), me)
    case Clean(now) => db' == WithoutCollections(db, Cleanable(db, now))
  }

  ghost predicate IsSerialRun(max: int, tr: seq<Db>, es: seq<Change>) {
    && |tr| == |es| + 1 && tr[0] == EMPTY
    && forall i :: 0 <= i < |es| ==> SerialStep(max, tr[i], tr[i + 1], es[i])
  }

  ghost predicate Packed(max: int, db: Db) {
    Valid(db) && forall c :: |Rows(db, c)| <= max
  }

  lemma CreateKeepsPacked(max: int, db: Db, db': Db, id: string, execTime: int, isTaken: bool, me: nat)
    requires max >= 1 && Packed(max, db) && CreateTask(db, db', id, execTime, isTaken, me, max)
    ensures Packed(max, db')
  {
    var enlarged := WithCollection(db, execTime, if isTaken then me else 0);
    forall c
      ensures |Rows(db', c)| <= max
    {
      if exists k :: Selectable(db, k, execTime, isTaken, me, max) && db' == WithTask(db, id, k) {
        var k :| Selectable(db, k, execTime, isTaken, me, max) && db' == WithTask(db, id, k);
        RowsAfterTask(db, id, k, c);
      } else {
        assert Rows(enlarged, c) == Rows(db, c);
        RowsAfterTask(enlarged, id, db.nextId, c);
        assert Rows(db, db.nextId) == {};
      }
    }
  }

  lemma SerialStepKeepsPacked(max: int, db: Db, db': Db, e: Change)
    requires max >= 1 && Packed(max, db) && SerialStep(max, db, db', e)
    ensures Packed(max, db')
  {
    match e
    case Create(id, execTime, isTaken, me) => CreateKeepsPacked(max, db, db', id, execTime, isTaken, me);
    case Refused(_, _, _) =>
      assert forall c :: Rows(db', c) == Rows(db, c);
    case Delete(ids) =>
      forall c
        ensures |Rows(db', c)| <= max
      {
        RowsShrink(db, ids, c);
      }
    case TakeOver(toNext, me) =>
      assert forall c :: Rows(db', c) == Rows(db, c);
    case Clean(now) =>
      assert forall c :: Rows(db', c) == Rows(db, c);
      forall id | id in db'.tasks
        ensures db'.tasks[id] in db'.collections
      {
        assert id in Rows(db, db.tasks[id]);
      }
  }

  /**
   With any number of instances, as long as each create is one step, refused ones included, no collection ever holds
   more than the maximum. ProtocolPacking.dfy has the bound for the three statements of a create.
   */
  lemma {:induction false} SerialCreatesNeverOverfill(max: int, tr: seq<Db>, es: seq<Change>, i: nat)
    requires max >= 1 && IsSerialRun(max, tr, es) && i < |tr|
    ensures Valid(tr[i]) && forall c :: |Rows(tr[i], c)| <= max
  {
    if i == 0 {
      assert forall c :: Rows(EMPTY, c) == {};
    } else {
      SerialCreatesNeverOverfill(max, tr, es, i - 1);
      SerialStepKeepsPacked(max, tr[i - 1], tr[i], es[i - 1]);
    }
  }

  /** n creates by instance me for one exec time and one taken flag, from empty tables. */
  ghost predicate IsCreateRun(max: int, tr: seq<Db>, ids: seq<string>, execTime: int, isTaken: bool, me: nat) {
    && |tr| == |ids| + 1 && tr[0] == EMPTY
    && forall i :: 0 <= i < |ids| ==> CreateTask(tr[i], tr[i + 1], ids[i], execTime, isTaken, me, max)
  }

  /** All collections belong to the run, and are full, except possibly collection open. */
  ghost predicate Tight(max: int, db: Db, open: Option<nat>, execTime: int, isTaken: bool, me: nat) {
    && Valid(db)
    && (forall c :: c in db.collections ==>
          db.collections[c].execTime == execTime && (db.collections[c].takenBy == me <==> isTaken))
    && (forall c :: c in db.collections && Some(c) != open ==> |Rows(db, c)| == max)
    && (open.Some? ==> open.value in db.collections && 1 <= |Rows(db, open.value)| < max)
  }

  /** The number of tasks that a tight database holds. */
  function Total(max: int, db: Db, open: Option<nat>): int {
    if open.Some? then (|db.collections| - 1) * max + |Rows(db, open.value)| else |db.collections| * max
  }

  lemma JoinKeepsTight(max: int, db: Db, id: string, k: nat, execTime: int, isTaken: bool, me: nat)
    requires max >= 1 && Tight(max, db, Some(k), execTime, isTaken, me) && id !in db.tasks
    ensures var db' := WithTask(db, id, k);
            var open := if |Rows(db, k)| + 1 == max then None else Some(k);
            Tight(max, db', open, execTime, isTaken, me) && Total(max, db', open) == Total(max, db, Some(k)) + 1
  {
    var db' := WithTask(db, id, k);
    forall c
      ensures Rows(db', c) == if c == k then Rows(db, c) + {id} else Rows(db, c)
    {
      RowsAfterTask(db, id, k, c);
    }
    assert id !in Rows(db, k);
    assert (|db.collections| - 1) * max + max == |db.collections| * max;
  }

  lemma RowsAfterOpening(db: Db, id: string, execTime: int, takenBy: nat, c: nat)
    requires Valid(db) && id !in db.tasks
    ensures Rows(WithTask(WithCollection(db, execTime, takenBy), id, db.nextId), c)
         == if c == db.nextId then {id} else Rows(db, c)
  {
    var enlarged := WithCollection(db, execTime, takenBy);
    assert Rows(enlarged, c) == Rows(db, c);
    RowsAfterTask(enlarged, id, db.nextId, c);
    assert Rows(db, db.nextId) == {};
  }

  lemma OpeningKeepsTight(max: int, db: Db, id: string, execTime: int, isTaken: bool, me: nat, takenBy: nat)
    requires max >= 1 && Tight(max, db, None, execTime, isTaken, me) && id !in db.tasks
    requires takenBy == me <==> isTaken
    ensures var db' := WithTask(WithCollection(db, execTime, takenBy), id, db.nextId);
            Tight(max, db', if max == 1 then None else Some(db.nextId), execTime, isTaken, me)
  {
    var db' := WithTask(WithCollection(db, execTime, takenBy), id, db.nextId);
    forall c
      ensures Rows(db', c) == if c == db.nextId then {id} else Rows(db, c)
    {
      RowsAfterOpening(db, id, execTime, takenBy, c);
    }
  }

  lemma OpeningCounts(max: int, db: Db, id: string, execTime: int, takenBy: nat)
    requires max >= 1 && Valid(db) && id !in db.tasks
    ensures var db' := WithTask(WithCollection(db, execTime, takenBy), id, db.nextId);
            Total(max, db', if max == 1 then None else Some(db.nextId)) == Total(max, db, None) + 1
  {
    hide Rows;
    RowsAfterOpening(db, id, execTime, takenBy, db.nextId);
    OneMoreCollection(db, id, execTime, takenBy);
    TimesOneMore(|db.collections|, max);
  }

  lemma OneMoreCollection(db: Db, id: string, execTime: int, takenBy: nat)
    requires Valid(db)
    ensures |WithTask(WithCollection(db, execTime, takenBy), id, db.nextId).collections| == |db.collections| + 1
  {
    var db' := WithTask(WithCollection(db, execTime, takenBy), id, db.nextId);
    assert db'.collections.Keys == db.collections.Keys + {db.nextId};
    assert |db'.collections.Keys| == |db.collections.Keys| + 1;
  }

  lemma TimesOneMore(k: int, m: int)
    ensures (k + 1) * m == k * m + m && (k + 1 - 1) * m == k * m
  {
  }

  lemma CreateKeepsTight(max: int, db: Db, db': Db, open: Option<nat>, id: string,
                         execTime: int, isTaken: bool, me: nat) returns (open': Option<nat>)
    requires max >= 1 && me != 0 && Tight(max, db, open, execTime, isTaken, me)
    requires CreateTask(db, db', id, execTime, isTaken, me, max)
    ensures Tight(max, db', open', execTime, isTaken, me) && Total(max, db', open') == Total(max, db, open) + 1
  {
    hide Total, WithTask, WithCollection, Rows;
    if open.Some? {
      var k := open.value;
      assert Selectable(db, k, execTime, isTaken, me, max);
      assert db' == WithTask(db, id, k);
      JoinKeepsTight(max, db, id, k, execTime, isTaken, me);
      open' := if |Rows(db, k)| + 1 == max then None else Some(k);
    } else {
      OpeningKeepsTight(max, db, id, execTime, isTaken, me, if isTaken then me else 0);
      OpeningCounts(max, db, id, execTime, if isTaken then me else 0);
      open' := if max == 1 then None else Some(db.nextId);
    }
  }

  lemma {:induction false} CreateRunTight(max: int, tr: seq<Db>, ids: seq<string>, execTime: int, isTaken: bool,
                                          me: nat, i: nat) returns (open: Option<nat>)
    requires max >= 1 && me != 0 && IsCreateRun(max, tr, ids, execTime, isTaken, me) && i < |tr|
    ensures Tight(max, tr[i], open, execTime, isTaken, me) && Total(max, tr[i], open) == i
  {
    hide CreateTask;
    if i == 0 {
      open := None;
    } else {
      open := CreateRunTight(max, tr, ids, execTime, isTaken, me, i - 1);
      open := CreateKeepsTight(max, tr[i - 1], tr[i], open, ids[i - 1], execTime, isTaken, me);
    }
  }

  lemma QuotientIs(a: int, q: int, m: int)
    requires m >= 1 && q * m <= a < (q + 1) * m
    ensures a / m == q
  {
    TimesKeepsOrder(a / m + 1, q, m);
    TimesKeepsOrder(q + 1, a / m, m);
  }

  lemma TimesKeepsOrder(x: int, y: int, m: int)
    requires m >= 1
    ensures x <= y ==> x * m <= y * m
  {
  }

  /** n creates fill exactly ceil(n / max) collections. */
  lemma ExactlyCeilCollections(max: int, tr: seq<Db>, ids: seq<string>, execTime: int, isTaken: bool, me: nat)
    requires max >= 1 && me != 0 && IsCreateRun(max, tr, ids, execTime, isTaken, me)
    ensures |tr[|ids|].collections| == (|ids| + max - 1) / max
  {
    var open := CreateRunTight(max, tr, ids, execTime, isTaken, me, |ids|);
    var k := |tr[|ids|].collections|;
    assert k * max == (k - 1) * max + max && (k + 1) * max == k * max + max;
    QuotientIs(|ids| + max - 1, k, max);
  }
}
