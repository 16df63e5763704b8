/**
 What the preload channel carries: exec times that the table can hold, and for every id only the exec time with
 which its row was inserted.
 */
module ProtocolTimes {
  import opened Tasks
  import opened Time
  import opened Database
  import opened Protocol

  ghost predicate FitAll(tasks: seq<Task>) {
    forall t :: t in tasks ==> FitsColumn(t.execTime)
  }

  /** Whatever is stored, or is about to be stored or sent, fits the column. */
  ghost predicate Inv(s: State) {
    && SaneClock(s.clock) && Valid(s.db)
    && (forall x :: x in s.db.collections ==> FitsColumn(s.db.collections[x].execTime))
    && CreatorsFit(s)
    && (forall w :: w in s.workers && s.workers[w].Pushing? ==> FitAll(s.workers[w].tasks))
    && FitAll(s.chan)
  }

  ghost predicate CreatorsFit(s: State) {
    forall k :: k in s.creators && !s.creators[k].pc.Started? && !s.creators[k].pc.Selecting? ==>
      FitsColumn(s.creators[k].execTime)
  }

  lemma CreatorStepKeepsInv(c: Config, s: State, s': State, e: Event)
    requires Inv(s) && Step(c, s, s', e)
    requires e.Begin? || e.Clamp? || e.Select? || e.InsertCollection? || e.Land? || e.Announce? || e.Retry? || e.Fail?
    ensures Inv(s')
  {
  }

  lemma WorkerReadsKeepsInv(s: State, s': State, w: nat, tasks: seq<Task>)
    requires Inv(s) && DoWorkerReads(s, s', w, tasks)
    ensures Inv(s')
  {
  }

  lemma WorkerPushesKeepsInv(s: State, s': State, w: nat)
    requires Inv(s) && DoWorkerPushes(s, s', w)
    ensures Inv(s')
  {
    assert s.workers[w].tasks[0] in s.workers[w].tasks;
  }

  lemma CleanDeleteKeepsInv(s: State, s': State, j: nat)
    requires Inv(s) && DoCleanDelete(s, s', j)
    ensures Inv(s')
  {
  }

  lemma DeleteRowsKeepsInv(s: State, s': State, ids: set<string>)
    requires Inv(s) && DoDeleteRows(s, s', ids)
    ensures Inv(s')
  {
  }

  lemma StepKeepsInv(c: Config, s: State, s': State, e: Event)
    requires Inv(s) && Step(c, s, s', e)
    ensures Inv(s')
  {
    hide DoBegin, DoClamp, DoSelect, DoInsertCollection, DoLand, DoAnnounce, DoRetry, DoFail, DoWorkerReads,
         DoWorkerPushes, DoCleanDelete, DoDeleteRows, FitsColumn, IsOrdered;
    match e
    case Begin(_, _) => CreatorStepKeepsInv(c, s, s', e);
    case Clamp(_) => CreatorStepKeepsInv(c, s, s', e);
    case Select(_, _) => CreatorStepKeepsInv(c, s, s', e);
    case InsertCollection(_) => CreatorStepKeepsInv(c, s, s', e);
    case Land(_) => CreatorStepKeepsInv(c, s, s', e);
    case Announce(_) => CreatorStepKeepsInv(c, s, s', e);
    case Retry(_) => CreatorStepKeepsInv(c, s, s', e);
    case Fail(_) => CreatorStepKeepsInv(c, s, s', e);
    case WorkerReads(w, tasks) => WorkerReadsKeepsInv(s, s', w, tasks);
    case WorkerPushes(w) => WorkerPushesKeepsInv(s, s', w);
    case CleanDelete(j) => CleanDeleteKeepsInv(s, s', j);
    case DeleteRows(ids) => DeleteRowsKeepsInv(s, s', ids);
    case _ =>
  }

  // ---------- One exec time for every id ----------

  /** The task carries the exec time with which its row was inserted. */
  ghost predicate Agrees(s: State, t: Task) {
    t.id in s.inserted && t.execTime == s.inserted[t.id].execTime
  }

  ghost predicate AgreeAll(s: State, tasks: seq<Task>) {
    forall t :: t in tasks ==> Agrees(s, t)
  }

  ghost predicate CreatorAgrees(s: State, cr: Creator) {
    && (cr.pc.Landing? ==>
          && cr.pc.collection < s.db.nextId
          && (cr.pc.collection in s.db.collections ==> s.db.collections[cr.pc.collection].execTime == cr.execTime))
    && (cr.pc.Announcing? ==> Agrees(s, Task(cr.id, cr.execTime)))
  }

  /** Rows, creators, workers and the preload channel agree on the exec time of an id. */
  ghost predicate AgreeInv(s: State) {
    && Valid(s.db)
    && (forall id :: id in s.db.tasks ==> Agrees(s, Task(id, s.db.collections[s.db.tasks[id]].execTime)))
    && (forall k :: k in s.creators ==> CreatorAgrees(s, s.creators[k]))
    && (forall w :: w in s.workers && s.workers[w].Pushing? ==> AgreeAll(s, s.workers[w].tasks))
    && AgreeAll(s, s.chan)
  }

  lemma CreatorMovesKeepAgree(c: Config, s: State, s': State, e: Event)
    requires AgreeInv(s) && Step(c, s, s', e)
    requires e.Begin? || e.Clamp? || e.Select? || e.Retry? || e.Fail?
    ensures AgreeInv(s')
  {
    hide NoneSelectable, IsTaken, FitsColumn, Rows;
    forall k | k in s'.creators
      ensures CreatorAgrees(s', s'.creators[k])
    {
      assert k in s.creators ==> CreatorAgrees(s, s.creators[k]);
    }
  }

  lemma InsertCollectionKeepsAgree(s: State, s': State, k: nat)
    requires AgreeInv(s) && DoInsertCollection(s, s', k)
    ensures AgreeInv(s')
  {
    forall j | j in s'.creators
      ensures CreatorAgrees(s', s'.creators[j])
    {
      assert CreatorAgrees(s, s.creators[j]);
    }
  }

  lemma LandKeepsAgree(s: State, s': State, k: nat)
    requires AgreeInv(s) && DoLand(s, s', k)
    ensures AgreeInv(s')
  {
    assert CreatorAgrees(s, s.creators[k]);
    forall j | j in s'.creators
      ensures CreatorAgrees(s', s'.creators[j])
    {
      assert CreatorAgrees(s, s.creators[j]);
    }
    forall w | w in s'.workers && s'.workers[w].Pushing?
      ensures AgreeAll(s', s'.workers[w].tasks)
    {
      assert AgreeAll(s, s.workers[w].tasks);
    }
  }

  lemma AnnounceKeepsAgree(s: State, s': State, k: nat)
    requires AgreeInv(s) && DoAnnounce(s, s', k)
    ensures AgreeInv(s')
  {
    assert CreatorAgrees(s, s.creators[k]);
  }

  /** Steps that take rows, collections, creators or workers away, or mark collections. */
  lemma ShrinkingKeepsAgree(s: State, s': State)
    requires AgreeInv(s) && s'.inserted == s.inserted && s'.db.nextId == s.db.nextId && Valid(s'.db)
    requires forall x :: x in s'.db.collections ==>
               x in s.db.collections && s'.db.collections[x].execTime == s.db.collections[x].execTime
    requires forall id :: id in s'.db.tasks ==> id in s.db.tasks && s'.db.tasks[id] == s.db.tasks[id]
    requires forall k :: k in s'.creators ==> k in s.creators && s'.creators[k] == s.creators[k]
    requires forall w :: w in s'.workers && s'.workers[w].Pushing? ==>
               AgreeAll(s, s'.workers[w].tasks)
    requires AgreeAll(s, s'.chan)
    ensures AgreeInv(s')
  {
    forall k | k in s'.creators
      ensures CreatorAgrees(s', s'.creators[k])
    {
      assert CreatorAgrees(s, s.creators[k]);
    }
  }

  lemma WorkerReadsKeepsAgree(s: State, s': State, w: nat, tasks: seq<Task>)
    requires AgreeInv(s) && DoWorkerReads(s, s', w, tasks)
    ensures AgreeInv(s')
  {
    ShrinkingKeepsAgree(s, s');
  }

  lemma WorkerPushesKeepsAgree(s: State, s': State, w: nat)
    requires AgreeInv(s) && DoWorkerPushes(s, s', w)
    ensures AgreeInv(s')
  {
    assert s.workers[w].tasks[0] in s.workers[w].tasks;
    ShrinkingKeepsAgree(s, s');
  }

  lemma TableStepsKeepAgree(c: Config, s: State, s': State, e: Event)
    requires AgreeInv(s) && Step(c, s, s', e)
    requires e.ClaimAll? || e.DeleteRows? || e.CleanDelete? || e.Crash?
    ensures AgreeInv(s')
  {
    hide IsOrdered;
    ShrinkingKeepsAgree(s, s');
  }

  lemma StepKeepsAgree(c: Config, s: State, s': State, e: Event)
    requires AgreeInv(s) && Step(c, s, s', e)
    ensures AgreeInv(s')
  {
    hide DoBegin, DoClamp, DoSelect, DoInsertCollection, DoLand, DoAnnounce, DoRetry, DoFail, DoClaimAll, DoWorkerReads,
         DoWorkerPushes, DoCleanDelete, DoDeleteRows, DoCrash, CreatorAgrees, Agrees, Valid;
    match e
    case Begin(_, _) => CreatorMovesKeepAgree(c, s, s', e);
    case Clamp(_) => CreatorMovesKeepAgree(c, s, s', e);
    case Select(_, _) => CreatorMovesKeepAgree(c, s, s', e);
    case Retry(_) => CreatorMovesKeepAgree(c, s, s', e);
    case Fail(_) => CreatorMovesKeepAgree(c, s, s', e);
    case InsertCollection(k) => InsertCollectionKeepsAgree(s, s', k);
    case Land(k) => LandKeepsAgree(s, s', k);
    case Announce(k) => AnnounceKeepsAgree(s, s', k);
    case WorkerReads(w, tasks) => WorkerReadsKeepsAgree(s, s', w, tasks);
    case WorkerPushes(w) => WorkerPushesKeepsAgree(s, s', w);
    case ClaimAll(_) => TableStepsKeepAgree(c, s, s', e);
    case DeleteRows(_) => TableStepsKeepAgree(c, s, s', e);
    case CleanDelete(_) => TableStepsKeepAgree(c, s, s', e);
    case Crash => TableStepsKeepAgree(c, s, s', e);
    case _ => ShrinkingKeepsAgree(s, s');
  }

  /** Rows are new or were there before, and nothing of the history changes. */
  lemma NothingRevives(c: Config, s: State, s': State, e: Event)
    requires Step(c, s, s', e)
    ensures forall id :: id in s.inserted ==> id in s'.inserted && s'.inserted[id] == s.inserted[id]
    ensures forall id :: id in s'.db.tasks && id in s.inserted ==> id in s.db.tasks
  {
    hide IsOrdered, IsRead, IsTaken, NoneSelectable, DoBegin, DoClamp, DoSelect, DoInsertCollection, DoLand, DoAnnounce,
         DoRetry, DoFail;
    if e.Begin? || e.Clamp? || e.Select? || e.InsertCollection? || e.Land? || e.Announce? || e.Retry? || e.Fail? {
      CreatorsReviveNothing(c, s, s', e);
    }
  }

  lemma CreatorsReviveNothing(c: Config, s: State, s': State, e: Event)
    requires Step(c, s, s', e)
    requires e.Begin? || e.Clamp? || e.Select? || e.InsertCollection? || e.Land? || e.Announce? || e.Retry? || e.Fail?
    ensures forall id :: id in s.inserted ==> id in s'.inserted && s'.inserted[id] == s.inserted[id]
    ensures forall id :: id in s'.db.tasks && id in s.inserted ==> id in s.db.tasks
  {
    hide IsTaken, NoneSelectable, Selectable, FitsColumn;
  }
}
