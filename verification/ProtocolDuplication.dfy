/**
 A row is pushed to the preload channel at most twice in the life of an instance, once by its creator
 and once by a worker, and at most once unless it was inserted between the claim of its collection and
 the worker's read. No assumption on timing is made.
 */
module ProtocolDuplication {
  import opened Tasks
  import opened Database
  import opened Protocol

  /** The collection a task was inserted into. */
  function Home(s: State, id: string): nat
    requires id in s.inserted
  {
    s.inserted[id].collection
  }

  ghost predicate RowsInv(s: State) {
    && Valid(s.db)
    && (forall id :: id in s.db.tasks ==> id in s.inserted && Home(s, id) == s.db.tasks[id])
    && (forall x :: x in s.claimed ==> x < s.db.nextId
                                       && (x in s.db.collections ==> s.db.collections[x].takenBy == s.me))
  }

  ghost predicate CreatorInv(s: State, cr: Creator) {
    && (cr.pc.Landing? ==> cr.pc.collection < s.db.nextId)
    && (cr.pc.Landing? && cr.isTaken && cr.pc.collection in s.db.collections ==>
          s.db.collections[cr.pc.collection].takenBy == s.me)
    && (cr.pc.Announcing? ==> cr.id in s.inserted && s.byCreator[cr.id] == 0)
  }

  ghost predicate CreatorsInv(s: State) {
    && (forall k :: k in s.creators ==> CreatorInv(s, s.creators[k]))
    && (forall k, l :: k in s.creators && l in s.creators && k != l
                       && s.creators[k].pc.Announcing? && s.creators[l].pc.Announcing? ==>
          s.creators[k].id != s.creators[l].id)
    && (forall id :: s.byCreator[id] <= 1)
    && (forall id :: id in s.byCreator ==> id in s.inserted)
  }

  ghost predicate PendingInv(s: State) {
    && (forall i, j :: 0 <= i < j < |s.pending| ==> s.pending[i] != s.pending[j])
    && (forall x :: x in s.pending ==> x in s.claimed && x !in s.read)
    && (!s.preloader.Distributing? ==> s.pending == [])
    && s.read <= s.claimed
  }

  ghost predicate ReadingInv(s: State) {
    && (forall w :: w in s.workers && s.workers[w].Reading? ==>
          var x := s.workers[w].collection;
          x in s.claimed && x !in s.read && x !in s.pending)
    && (forall v, w :: v in s.workers && w in s.workers && v != w && s.workers[v].Reading? ==>
          s.workers[v] != s.workers[w])
  }

  /** What a worker holds was read from the table and not pushed before. */
  ghost predicate LoadInv(s: State, tasks: seq<Task>) {
    && (forall i :: 0 <= i < |tasks| ==>
          tasks[i].id in s.inserted && Home(s, tasks[i].id) in s.read && s.byWorker[tasks[i].id] == 0)
    && (forall i, j :: 0 <= i < j < |tasks| ==> tasks[i].id != tasks[j].id)
  }

  ghost predicate Holds(s: State, w: nat, id: string) {
    && w in s.workers && s.workers[w].Pushing?
    && exists i :: 0 <= i < |s.workers[w].tasks| && s.workers[w].tasks[i].id == id
  }

  ghost predicate LoadsInv(s: State) {
    && (forall w :: w in s.workers && s.workers[w].Pushing? ==> LoadInv(s, s.workers[w].tasks))
    && (forall v, w, id :: v != w && Holds(s, v, id) ==> !Holds(s, w, id))
    && (forall id :: s.byWorker[id] <= 1)
    && (forall id :: id in s.byWorker ==> id in s.inserted && Home(s, id) in s.read)
  }

  /** The creator has pushed the task, or is about to. */
  ghost predicate CreatorSide(s: State, id: string) {
    id in s.byCreator || exists k :: k in s.creators && s.creators[k].pc.Announcing? && s.creators[k].id == id
  }

  /** A worker has pushed the task, or is about to. */
  ghost predicate WorkerSide(s: State, id: string) {
    id in s.byWorker || exists w :: Holds(s, w, id)
  }

  ghost predicate OnceInv(s: State) {
    forall id :: CreatorSide(s, id) ==>
      && id in s.inserted
      && var x := Home(s, id);
         || id in s.joined
         || (x in s.read && !WorkerSide(s, id))
         || (x !in s.claimed && x < s.db.nextId && (x in s.db.collections ==> s.db.collections[x].takenBy == s.me))
  }

  ghost predicate Inv(s: State) {
    RowsInv(s) && CreatorsInv(s) && PendingInv(s) && ReadingInv(s) && LoadsInv(s) && OnceInv(s)
  }

  // ---------- Steps that bring nothing new to either side ----------

  /** No creator comes to announce, no worker comes to hold tasks, and nothing is pushed. */
  ghost predicate NothingNew(s: State, s': State) {
    && s'.inserted == s.inserted && s'.byCreator == s.byCreator && s'.byWorker == s.byWorker
    && s'.read == s.read && s'.joined == s.joined
    && (forall w :: w in s'.workers && s'.workers[w].Pushing? ==> w in s.workers && s'.workers[w] == s.workers[w])
    && (forall k :: k in s'.creators && s'.creators[k].pc.Announcing? ==>
          k in s.creators && s'.creators[k] == s.creators[k])
  }

  lemma SidesShrink(s: State, s': State)
    requires NothingNew(s, s')
    ensures forall w, id :: Holds(s', w, id) ==> Holds(s, w, id)
    ensures forall id :: CreatorSide(s', id) ==> CreatorSide(s, id)
    ensures forall id :: WorkerSide(s', id) ==> WorkerSide(s, id)
  {
    forall w, id | Holds(s', w, id)
      ensures Holds(s, w, id)
    {
    }
  }

  lemma NothingNewKeepsLoads(s: State, s': State)
    requires LoadsInv(s) && NothingNew(s, s')
    ensures LoadsInv(s')
  {
    SidesShrink(s, s');
    forall w | w in s'.workers && s'.workers[w].Pushing?
      ensures LoadInv(s', s'.workers[w].tasks)
    {
      assert LoadInv(s, s.workers[w].tasks);
    }
  }

  /** The collections claimed or taken by the live instance stay so, and new claims take only others. */
  lemma NothingNewKeepsOnce(s: State, s': State)
    requires OnceInv(s) && NothingNew(s, s') && s.db.nextId <= s'.db.nextId && s'.me == s.me
    requires forall x :: x in s'.claimed && x !in s.claimed ==>
               x in s.db.collections && s.db.collections[x].takenBy != s.me
    requires forall x :: x < s.db.nextId && x in s'.db.collections ==>
               x in s.db.collections && (s.db.collections[x].takenBy == s.me ==> s'.db.collections[x].takenBy == s.me)
    ensures OnceInv(s')
  {
    hide CreatorSide, WorkerSide;
    SidesShrink(s, s');
  }

  // ---------- Creators ----------

  /** A change of one creator, from one that is not about to push to another one that is not. */
  lemma CreatorMoves(s: State, s': State, k: nat)
    requires Inv(s) && s' == s.(creators := s'.creators)
    requires k in s.creators ==> !s.creators[k].pc.Announcing?
    requires s'.creators == s.creators - {k}
             || (k in s'.creators && s'.creators == s.creators[k := s'.creators[k]]
                 && CreatorInv(s, s'.creators[k]) && !s'.creators[k].pc.Announcing?)
    ensures Inv(s')
  {
    hide LoadsInv, OnceInv;
    NothingNewKeepsLoads(s, s');
    NothingNewKeepsOnce(s, s');
  }

  lemma InsertCollectionKeepsInv(s: State, s': State, k: nat)
    requires Inv(s) && DoInsertCollection(s, s', k)
    ensures Inv(s')
  {
    hide LoadsInv, OnceInv, CreatorsInv;
    NothingNewKeepsLoads(s, s');
    NothingNewKeepsOnce(s, s');
    InsertCollectionKeepsCreators(s, s', k);
  }

  lemma InsertCollectionKeepsCreators(s: State, s': State, k: nat)
    requires RowsInv(s) && CreatorsInv(s) && DoInsertCollection(s, s', k)
    ensures CreatorsInv(s')
  {
    forall j | j in s'.creators
      ensures CreatorInv(s', s'.creators[j])
    {
      assert j in s.creators && CreatorInv(s, s.creators[j]);
    }
  }

  lemma LandKeepsRows(s: State, s': State, k: nat)
    requires Inv(s) && DoLand(s, s', k)
    ensures RowsInv(s') && PendingInv(s') && ReadingInv(s')
  {
  }

  lemma LandKeepsLoads(s: State, s': State, k: nat)
    requires Inv(s) && DoLand(s, s', k)
    ensures LoadsInv(s') && forall w, id :: Holds(s', w, id) <==> Holds(s, w, id)
  {
    assert forall w, id :: Holds(s', w, id) <==> Holds(s, w, id);
    forall w | w in s'.workers && s'.workers[w].Pushing?
      ensures LoadInv(s', s'.workers[w].tasks)
    {
      assert LoadInv(s, s.workers[w].tasks);
    }
  }

  lemma LandKeepsCreators(s: State, s': State, k: nat)
    requires Inv(s) && DoLand(s, s', k)
    ensures CreatorsInv(s')
  {
    var id := s.creators[k].id;
    assert s.byCreator[id] == 0 by {
      assert id !in s.byCreator;
    }
    forall j | j in s'.creators
      ensures CreatorInv(s', s'.creators[j])
    {
      assert j in s.creators && CreatorInv(s, s.creators[j]);
    }
  }

  /** A landing by a taken create is joined, or its collection is read already, or it was never claimed. */
  lemma LandKeepsOnce(s: State, s': State, k: nat)
    requires Inv(s) && DoLand(s, s', k)
    ensures OnceInv(s')
  {
    var cr := s.creators[k];
    assert CreatorInv(s, cr);
    LandKeepsLoads(s, s', k);
    forall w
      ensures !Holds(s, w, cr.id)
    {
      assert w in s.workers && s.workers[w].Pushing? ==> LoadInv(s, s.workers[w].tasks);
    }
    forall id | CreatorSide(s', id)
      ensures id == cr.id || CreatorSide(s, id)
      ensures WorkerSide(s', id) <==> WorkerSide(s, id)
    {
    }
  }

  lemma AnnounceKeepsInv(s: State, s': State, k: nat)
    requires Inv(s) && DoAnnounce(s, s', k)
    ensures Inv(s')
  {
    var cr := s.creators[k];
    assert CreatorInv(s, cr);
    assert forall w, id :: Holds(s', w, id) <==> Holds(s, w, id);
    forall j | j in s'.creators
      ensures CreatorInv(s', s'.creators[j])
    {
      assert j in s.creators && CreatorInv(s, s.creators[j]);
    }
    forall id | CreatorSide(s', id)
      ensures CreatorSide(s, id)
      ensures WorkerSide(s', id) <==> WorkerSide(s, id)
    {
    }
  }

  // ---------- Claiming and preloading ----------

  lemma ClaimKeepsInv(s: State, s': State, order: seq<nat>)
    requires Inv(s) && DoClaimAll(s, s', order)
    ensures Inv(s')
  {
    hide LoadsInv, OnceInv, CreatorsInv, PendingInv, ReadingInv;
    NothingNewKeepsLoads(s, s');
    NothingNewKeepsOnce(s, s');
    ClaimKeepsCreators(s, s', order);
    ClaimKeepsPending(s, s', order);
  }

  lemma ClaimKeepsCreators(s: State, s': State, order: seq<nat>)
    requires CreatorsInv(s) && DoClaimAll(s, s', order)
    ensures CreatorsInv(s')
  {
    forall k | k in s'.creators
      ensures CreatorInv(s', s'.creators[k])
    {
      assert CreatorInv(s, s.creators[k]);
    }
  }

  lemma ClaimKeepsPending(s: State, s': State, order: seq<nat>)
    requires RowsInv(s) && PendingInv(s) && ReadingInv(s) && DoClaimAll(s, s', order)
    ensures PendingInv(s') && ReadingInv(s')
  {
    forall x | x in order
      ensures x !in s.claimed && x !in s.read
    {
      assert x in Claimable(s.db, s.preloader.toNext, s.me);
    }
  }

  lemma WorkerTakesKeepsInv(s: State, s': State, w: nat)
    requires Inv(s) && DoWorkerTakes(s, s', w)
    ensures Inv(s')
  {
    hide LoadsInv, OnceInv, CreatorsInv;
    NothingNewKeepsLoads(s, s');
    NothingNewKeepsOnce(s, s');
    SameCreators(s, s');
  }

  lemma SameCreators(s: State, s': State)
    requires CreatorsInv(s) && s'.creators == s.creators && s'.me == s.me && s'.inserted == s.inserted
    requires s'.byCreator == s.byCreator && s'.db.nextId == s.db.nextId
    requires forall x :: x in s'.db.collections ==> x in s.db.collections && s'.db.collections[x] == s.db.collections[x]
    ensures CreatorsInv(s')
  {
    forall k | k in s'.creators
      ensures CreatorInv(s', s'.creators[k])
    {
      assert CreatorInv(s, s.creators[k]);
    }
  }

  lemma ReadIsFresh(s: State, s': State, w: nat, tasks: seq<Task>)
    requires Inv(s) && DoWorkerReads(s, s', w, tasks)
    ensures forall v, id :: v != w ==> (Holds(s', v, id) <==> Holds(s, v, id))
    ensures forall v, id :: Holds(s, v, id) ==> id in s.inserted && Home(s, id) in s.read
    ensures forall id :: Holds(s', w, id) ==>
              id in s.inserted && Home(s, id) == s.workers[w].collection && id !in s.byWorker
  {
    forall v, id | Holds(s, v, id)
      ensures id in s.inserted && Home(s, id) in s.read
    {
      assert LoadInv(s, s.workers[v].tasks);
    }
    forall id | Holds(s', w, id)
      ensures id in s.inserted && Home(s, id) == s.workers[w].collection && id !in s.byWorker
    {
      var i :| 0 <= i < |tasks| && tasks[i].id == id;
      assert tasks[i] in tasks;
    }
  }

  lemma WorkerReadsKeepsLoads(s: State, s': State, w: nat, tasks: seq<Task>)
    requires Inv(s) && DoWorkerReads(s, s', w, tasks)
    ensures LoadsInv(s')
  {
    ReadIsFresh(s, s', w, tasks);
    forall v | v in s'.workers && s'.workers[v].Pushing?
      ensures LoadInv(s', s'.workers[v].tasks)
    {
      if v != w {
        assert LoadInv(s, s.workers[v].tasks);
      } else {
        forall i | 0 <= i < |tasks|
          ensures tasks[i].id in s'.inserted && Home(s', tasks[i].id) in s'.read && s'.byWorker[tasks[i].id] == 0
        {
          assert Holds(s', w, tasks[i].id);
        }
      }
    }
  }

  lemma WorkerReadsKeepsOnce(s: State, s': State, w: nat, tasks: seq<Task>)
    requires Inv(s) && DoWorkerReads(s, s', w, tasks)
    ensures OnceInv(s')
  {
    ReadIsFresh(s, s', w, tasks);
    forall id | CreatorSide(s', id)
      ensures CreatorSide(s, id)
      ensures WorkerSide(s', id) ==> WorkerSide(s, id) || Holds(s', w, id)
    {
      if u :| Holds(s', u, id) {
        assert u == w || Holds(s, u, id);
      }
    }
  }

  lemma WorkerReadsKeepsInv(s: State, s': State, w: nat, tasks: seq<Task>)
    requires Inv(s) && DoWorkerReads(s, s', w, tasks)
    ensures Inv(s')
  {
    hide LoadsInv, OnceInv, CreatorsInv;
    WorkerReadsKeepsLoads(s, s', w, tasks);
    WorkerReadsKeepsOnce(s, s', w, tasks);
    SameCreators(s, s');
  }

  lemma PushIsOnce(s: State, s': State, w: nat)
    requires Inv(s) && DoWorkerPushes(s, s', w)
    ensures var id := s.workers[w].tasks[0].id;
            && s.byWorker[id] == 0 && id in s.inserted && Home(s, id) in s.read
            && (forall v :: !Holds(s', v, id))
    ensures forall v, id :: Holds(s', v, id) ==> Holds(s, v, id)
  {
    var tasks := s.workers[w].tasks;
    assert LoadInv(s, tasks);
    assert Holds(s, w, tasks[0].id);
    forall v, id | Holds(s', v, id)
      ensures Holds(s, v, id) && id != tasks[0].id
    {
      if v == w {
        var i :| 0 <= i < |tasks[1..]| && tasks[1..][i].id == id;
        assert tasks[i + 1].id == id;
      } else {
        assert Holds(s, v, id);
      }
    }
  }

  lemma WorkerPushesKeepsLoads(s: State, s': State, w: nat)
    requires Inv(s) && DoWorkerPushes(s, s', w)
    ensures LoadsInv(s')
  {
    PushIsOnce(s, s', w);
    forall v | v in s'.workers && s'.workers[v].Pushing?
      ensures LoadInv(s', s'.workers[v].tasks)
    {
      assert LoadInv(s, s.workers[v].tasks);
      forall i | 0 <= i < |s'.workers[v].tasks|
        ensures s'.byWorker[s'.workers[v].tasks[i].id] == 0
      {
        assert Holds(s', v, s'.workers[v].tasks[i].id);
      }
    }
  }

  lemma WorkerPushesKeepsOnce(s: State, s': State, w: nat)
    requires Inv(s) && DoWorkerPushes(s, s', w)
    ensures OnceInv(s')
  {
    PushIsOnce(s, s', w);
    assert Holds(s, w, s.workers[w].tasks[0].id);
    forall id | CreatorSide(s', id)
      ensures CreatorSide(s, id)
      ensures WorkerSide(s', id) ==> WorkerSide(s, id)
    {
    }
  }

  lemma WorkerPushesKeepsInv(s: State, s': State, w: nat)
    requires Inv(s) && DoWorkerPushes(s, s', w)
    ensures Inv(s')
  {
    hide LoadsInv, OnceInv, CreatorsInv;
    WorkerPushesKeepsLoads(s, s', w);
    WorkerPushesKeepsOnce(s, s', w);
    SameCreators(s, s');
  }

  // ---------- The other steps ----------

  /** Steps that only take things away, or touch none of the state the invariant speaks of. */
  lemma ShrinkingKeepsInv(s: State, s': State)
    requires Inv(s) && RowsInv(s') && PendingInv(s')
    requires s'.db.nextId == s.db.nextId && s'.me == s.me && s'.creators == s.creators && s'.inserted == s.inserted
    requires forall x :: x in s'.db.collections ==> x in s.db.collections && s'.db.collections[x] == s.db.collections[x]
    requires s'.byCreator == s.byCreator && s'.byWorker == s.byWorker
    requires s'.claimed == s.claimed && s'.read == s.read && s'.joined == s.joined
    requires forall w :: w in s'.workers ==> w in s.workers && s'.workers[w] == s.workers[w]
    requires forall x :: x in s'.pending ==> x in s.pending
    ensures Inv(s')
  {
    hide LoadsInv, OnceInv, CreatorsInv;
    NothingNewKeepsLoads(s, s');
    NothingNewKeepsOnce(s, s');
    SameCreators(s, s');
  }

  /** A fatal event raised elsewhere. */
  lemma FatalKeepsInv(s: State, s': State)
    requires Inv(s) && s' == s.(fatal := true)
    ensures Inv(s')
  {
    hide CreatorsInv, ReadingInv, LoadsInv, OnceInv;
    ShrinkingKeepsInv(s, s');
  }

  lemma CrashKeepsInv(s: State, s': State)
    requires Inv(s) && DoCrash(s, s')
    ensures Inv(s')
  {
    forall w, id
      ensures !Holds(s', w, id) && !CreatorSide(s', id)
    {
    }
  }

  lemma LandKeepsInv(s: State, s': State, k: nat)
    requires Inv(s) && DoLand(s, s', k)
    ensures Inv(s')
  {
    hide RowsInv, CreatorsInv, PendingInv, ReadingInv, LoadsInv, OnceInv, DoLand;
    LandKeepsRows(s, s', k);
    LandKeepsLoads(s, s', k);
    LandKeepsCreators(s, s', k);
    LandKeepsOnce(s, s', k);
  }

  lemma CreatorStepKeepsInv(c: Config, s: State, s': State, e: Event)
    requires Inv(s) && Step(c, s, s', e)
    requires e.Begin? || e.Clamp? || e.Select? || e.Retry? || e.Fail?
    ensures Inv(s')
  {
    CreatorMoves(s, s', e.k);
  }

  lemma StepKeepsInv(c: Config, s: State, s': State, e: Event)
    requires Inv(s) && Step(c, s, s', e)
    ensures Inv(s')
  {
    hide Inv, DoBegin, DoClamp, DoSelect, DoInsertCollection, DoLand, DoAnnounce, DoRetry, DoFail,
         DoClaimAll, DoWorkerTakes, DoWorkerReads, DoWorkerPushes, DoCrash;
    match e
    case InsertCollection(k) => InsertCollectionKeepsInv(s, s', k);
    case Land(k) => LandKeepsInv(s, s', k);
    case Announce(k) => AnnounceKeepsInv(s, s', k);
    case ClaimAll(order) => ClaimKeepsInv(s, s', order);
    case WorkerTakes(w) => WorkerTakesKeepsInv(s, s', w);
    case WorkerReads(w, tasks) => WorkerReadsKeepsInv(s, s', w, tasks);
    case WorkerPushes(w) => WorkerPushesKeepsInv(s, s', w);
    case Crash => CrashKeepsInv(s, s');
    case DeleteRows(_) => TablesShrinkKeepsInv(s, s');
    case CleanDelete(_) => TablesShrinkKeepsInv(s, s');
    case Begin(_, _) => CreatorStepKeepsInv(c, s, s', e);
    case Clamp(_) => CreatorStepKeepsInv(c, s, s', e);
    case Select(_, _) => CreatorStepKeepsInv(c, s, s', e);
    case Retry(_) => CreatorStepKeepsInv(c, s, s', e);
    case Fail(_) => CreatorStepKeepsInv(c, s, s', e);
    case _ => QuietStepKeepsInv(c, s, s', e);
  }

  lemma TablesShrinkKeepsInv(s: State, s': State)
    requires Inv(s) && ((exists ids :: DoDeleteRows(s, s', ids)) || (exists j :: DoCleanDelete(s, s', j)))
    ensures Inv(s')
  {
    hide CreatorsInv, ReadingInv, LoadsInv, OnceInv;
    ShrinkingKeepsInv(s, s');
  }

  lemma QuietStepKeepsInv(c: Config, s: State, s': State, e: Event)
    requires Inv(s) && Step(c, s, s', e)
    requires e.Tick? || e.Ask? || e.ClaimFails? || e.WorkerFails? || e.RoundEnds?
             || e.CleanSelect? || e.CleanFails? || e.Receive?
    ensures Inv(s')
  {
    hide RowsInv, CreatorsInv, ReadingInv, LoadsInv, OnceInv;
    SameRows(s, s');
    ShrinkingKeepsInv(s, s');
  }

  lemma SameRows(s: State, s': State)
    requires RowsInv(s) && s'.db == s.db && s'.inserted == s.inserted && s'.claimed == s.claimed && s'.me == s.me
    ensures RowsInv(s')
  {
  }

  lemma {:induction false} RunInv(c: Config, tr: seq<State>, evs: seq<Event>, i: nat)
    requires IsRun(c, tr, evs) && i < |tr|
    ensures Inv(tr[i])
  {
    if i > 0 {
      RunInv(c, tr, evs, i - 1);
      StepKeepsInv(c, tr[i - 1], tr[i], evs[i - 1]);
    } else {
      forall w, id
        ensures !Holds(tr[0], w, id) && !CreatorSide(tr[0], id)
      {
      }
    }
  }

  /**
   Bounded duplication: in every run, within the life of the live instance, a task is pushed to the
   preload channel at most once by its creator and at most once by a worker; and at most once in all
   unless it was inserted between the claim of its collection and the worker's read of it.
   */
  lemma PushedAtMostTwice(c: Config, tr: seq<State>, evs: seq<Event>, i: nat, id: string)
    requires IsRun(c, tr, evs) && i < |tr|
    ensures tr[i].byCreator[id] <= 1 && tr[i].byWorker[id] <= 1
    ensures id !in tr[i].joined ==> tr[i].byCreator[id] + tr[i].byWorker[id] <= 1
  {
    RunInv(c, tr, evs, i);
    var s := tr[i];
    if id !in s.joined && id in s.byCreator && id in s.byWorker {
      assert CreatorSide(s, id) && WorkerSide(s, id);
      assert false;
    }
  }
}
