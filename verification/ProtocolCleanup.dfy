/**
 Cleaning up empty collections never gets in the way of a create: neither the task insert nor the
 DELETE of the cleanup ever runs into the foreign key, provided that every task row is inserted no later
 than five seconds after its exec time. One second later than that, both can happen.
 */
module ProtocolCleanup {
  import opened Tasks
  import opened Time
  import opened Database
  import opened Protocol

  const GRACE := 5

  /** The assumption on inserts, in whole seconds of the one shared clock. */
  ghost predicate Prompt(s: State, e: Event) {
    e.Land? && e.k in s.creators ==> Unix(s.clock) <= s.creators[e.k].execTime + GRACE
  }

  /** A stronger assumption, which does not mention the exec time. */
  ghost predicate PromptAfterClamp(s: State, e: Event) {
    e.Land? && e.k in s.creators ==> Unix(s.clock) <= Unix(s.creators[e.k].clampedAt) + GRACE
  }

  ghost predicate CreatorInv(s: State, cr: Creator) {
    && cr.clampedAt <= s.clock
    && (!cr.pc.Started? ==> Unix(cr.clampedAt) <= cr.execTime)
    && (cr.pc.Landing? ==> LandingInv(s, cr, cr.pc.collection))
  }

  /** The chosen collection is there, with the right exec time, or it is older than the grace period. */
  ghost predicate LandingInv(s: State, cr: Creator, x: nat) {
    && x < s.db.nextId
    && if x in s.db.collections then s.db.collections[x].execTime == cr.execTime
       else cr.execTime + GRACE < Unix(s.clock)
  }

  /** What a cleanup is about to delete is still empty, and past the grace period. */
  ghost predicate CleanerInv(s: State, ids: set<nat>) {
    forall x :: x in ids ==>
      && x < s.db.nextId
      && (forall id :: id in s.db.tasks ==> s.db.tasks[id] != x)
      && (x in s.db.collections ==> s.db.collections[x].execTime + GRACE < Unix(s.clock))
  }

  ghost predicate RowsInv(s: State) {
    && Valid(s.db)
    && forall id :: id in s.db.tasks ==>
         id in s.inserted && s.inserted[id].execTime == s.db.collections[s.db.tasks[id]].execTime
  }

  ghost predicate Inv(s: State) {
    && RowsInv(s)
    && (forall k :: k in s.creators ==> CreatorInv(s, s.creators[k]))
    && (forall j :: j in s.cleaners ==> CleanerInv(s, s.cleaners[j]))
  }

  lemma TickKeepsInv(s: State, s': State)
    requires Inv(s) && DoTick(s, s')
    ensures Inv(s')
  {
    UnixGrows(s.clock, s'.clock);
    forall k | k in s'.creators
      ensures CreatorInv(s', s'.creators[k])
    {
      assert CreatorInv(s, s.creators[k]);
    }
    forall j | j in s'.cleaners
      ensures CleanerInv(s', s'.cleaners[j])
    {
      assert CleanerInv(s, s.cleaners[j]);
    }
  }

  lemma CreatorMoves(s: State, s': State, k: nat)
    requires Inv(s) && s' == s.(creators := s'.creators)
    requires s'.creators == s.creators - {k}
             || (k in s'.creators && s'.creators == s.creators[k := s'.creators[k]] && CreatorInv(s, s'.creators[k]))
    ensures Inv(s')
  {
    forall j | j in s'.cleaners
      ensures CleanerInv(s', s'.cleaners[j])
    {
      assert CleanerInv(s, s.cleaners[j]);
    }
  }

  lemma InsertCollectionKeepsInv(s: State, s': State, k: nat)
    requires Inv(s) && DoInsertCollection(s, s', k)
    ensures Inv(s')
  {
    forall j | j in s'.creators
      ensures CreatorInv(s', s'.creators[j])
    {
      assert j in s.creators && CreatorInv(s, s.creators[j]);
    }
    forall j | j in s'.cleaners
      ensures CleanerInv(s', s'.cleaners[j])
    {
      assert CleanerInv(s, s.cleaners[j]);
    }
  }

  /** The heart: the chosen collection of a prompt landing has not been cleaned and is not about to be. */
  lemma PromptLandingIsSafe(s: State, k: nat)
    requires Inv(s) && k in s.creators && s.creators[k].pc.Landing?
    requires Unix(s.clock) <= s.creators[k].execTime + GRACE
    ensures var x := s.creators[k].pc.collection;
            && x in s.db.collections && s.db.collections[x].execTime == s.creators[k].execTime
            && forall j :: j in s.cleaners ==> x !in s.cleaners[j]
  {
    assert CreatorInv(s, s.creators[k]);
    forall j | j in s.cleaners
      ensures s.creators[k].pc.collection !in s.cleaners[j]
    {
      assert CleanerInv(s, s.cleaners[j]);
    }
  }

  lemma LandKeepsInv(s: State, s': State, k: nat)
    requires Inv(s) && DoLand(s, s', k) && Prompt(s, Land(k))
    ensures Inv(s')
  {
    PromptLandingIsSafe(s, k);
    forall j | j in s'.creators
      ensures CreatorInv(s', s'.creators[j])
    {
      assert j in s.creators && CreatorInv(s, s.creators[j]);
    }
    forall j | j in s'.cleaners
      ensures CleanerInv(s', s'.cleaners[j])
    {
      assert CleanerInv(s, s.cleaners[j]);
    }
  }

  lemma ClaimKeepsInv(s: State, s': State, order: seq<nat>)
    requires Inv(s) && DoClaimAll(s, s', order)
    ensures Inv(s')
  {
    SameExecTimesKeepInv(s, s');
  }

  /** Steps after which the tables have the same rows and exec times, or fewer tasks. */
  lemma SameExecTimesKeepInv(s: State, s': State)
    requires Inv(s) && s'.clock == s.clock && s'.inserted == s.inserted && s'.db.nextId == s.db.nextId
    requires s'.db.collections.Keys == s.db.collections.Keys
    requires forall x :: x in s.db.collections ==> s'.db.collections[x].execTime == s.db.collections[x].execTime
    requires forall id :: id in s'.db.tasks ==> id in s.db.tasks && s'.db.tasks[id] == s.db.tasks[id]
    requires forall k :: k in s'.creators ==> k in s.creators && s'.creators[k] == s.creators[k]
    requires forall j :: j in s'.cleaners ==>
               (j in s.cleaners && s'.cleaners[j] == s.cleaners[j]) || CleanerInv(s, s'.cleaners[j])
    ensures Inv(s')
  {
    forall k | k in s'.creators
      ensures CreatorInv(s', s'.creators[k])
    {
      assert CreatorInv(s, s.creators[k]);
    }
    forall j | j in s'.cleaners
      ensures CleanerInv(s', s'.cleaners[j])
    {
      assert CleanerInv(s, s'.cleaners[j]);
    }
  }

  lemma CleanSelectKeepsInv(s: State, s': State, j: nat)
    requires Inv(s) && DoCleanSelect(s, s', j)
    ensures Inv(s')
  {
    forall x | x in Cleanable(s.db, s.clock)
      ensures forall id :: id in s.db.tasks ==> s.db.tasks[id] != x
    {
      assert forall id :: id in s.db.tasks && s.db.tasks[id] == x ==> id in Rows(s.db, x);
    }
    SameExecTimesKeepInv(s, s');
  }

  lemma CleanDeleteKeepsInv(s: State, s': State, j: nat)
    requires Inv(s) && DoCleanDelete(s, s', j)
    ensures Inv(s')
  {
    assert CleanerInv(s, s.cleaners[j]);
    forall k | k in s'.creators
      ensures CreatorInv(s', s'.creators[k])
    {
      assert CreatorInv(s, s.creators[k]);
    }
    forall i | i in s'.cleaners
      ensures CleanerInv(s', s'.cleaners[i])
    {
      assert CleanerInv(s, s.cleaners[i]);
    }
  }

  lemma CreatorStepKeepsInv(c: Config, s: State, s': State, e: Event)
    requires Inv(s) && Step(c, s, s', e)
    requires e.Begin? || e.Clamp? || e.Select? || e.Announce? || e.Retry? || e.Fail?
    ensures Inv(s')
  {
    if e.Announce? {
      SameExecTimesKeepInv(s, s');
    } else {
      assert e.k in s.creators ==> CreatorInv(s, s.creators[e.k]);
      CreatorMoves(s, s', e.k);
    }
  }

  lemma StepKeepsInv(c: Config, s: State, s': State, e: Event)
    requires Inv(s) && Step(c, s, s', e) && Prompt(s, e)
    ensures Inv(s')
  {
    hide Inv, Prompt, DoBegin, DoClamp, DoSelect, DoInsertCollection, DoLand, DoAnnounce, DoRetry, DoFail;
    match e
    case Tick => TickKeepsInv(s, s');
    case InsertCollection(k) => InsertCollectionKeepsInv(s, s', k);
    case Land(k) => LandKeepsInv(s, s', k);
    case CleanSelect(j) => CleanSelectKeepsInv(s, s', j);
    case CleanDelete(j) => CleanDeleteKeepsInv(s, s', j);
    case Begin(_, _) => CreatorStepKeepsInv(c, s, s', e);
    case Clamp(_) => CreatorStepKeepsInv(c, s, s', e);
    case Select(_, _) => CreatorStepKeepsInv(c, s, s', e);
    case Announce(_) => CreatorStepKeepsInv(c, s, s', e);
    case Retry(_) => CreatorStepKeepsInv(c, s, s', e);
    case Fail(_) => CreatorStepKeepsInv(c, s, s', e);
    case _ => SameExecTimesKeepInv(s, s');
  }

  lemma {:induction false} RunInv(c: Config, tr: seq<State>, evs: seq<Event>, i: nat)
    requires IsRun(c, tr, evs) && i < |tr|
    requires forall k :: 0 <= k < i ==> Prompt(tr[k], evs[k])
    ensures Inv(tr[i])
  {
    if i > 0 {
      RunInv(c, tr, evs, i - 1);
      StepKeepsInv(c, tr[i - 1], tr[i], evs[i - 1]);
    }
  }

  /**
   Cleanup never collides with a create. In every run in which task rows are inserted no later than five
   seconds after their exec time: whenever a create is about to insert its row and is still in time, its
   collection exists, has its exec time, and is on no cleanup's list; no cleanup is ever about to
   delete a collection that holds a task; and every stored task has its collection and its exec time.
   */
  lemma CleanupNeverCollides(c: Config, tr: seq<State>, evs: seq<Event>, i: nat)
    requires IsRun(c, tr, evs) && i < |tr|
    requires forall k :: 0 <= k < i ==> Prompt(tr[k], evs[k])
    ensures forall k :: k in tr[i].creators && tr[i].creators[k].pc.Landing? && Prompt(tr[i], Land(k)) ==>
              var x := tr[i].creators[k].pc.collection;
              && x in tr[i].db.collections && tr[i].db.collections[x].execTime == tr[i].creators[k].execTime
              && forall j :: j in tr[i].cleaners ==> x !in tr[i].cleaners[j]
    ensures forall j, id :: j in tr[i].cleaners && id in tr[i].db.tasks ==> tr[i].db.tasks[id] !in tr[i].cleaners[j]
    ensures forall id :: id in tr[i].db.tasks ==>
              && tr[i].db.tasks[id] in tr[i].db.collections && id in tr[i].inserted
              && tr[i].db.collections[tr[i].db.tasks[id]].execTime == tr[i].inserted[id].execTime
  {
    RunInv(c, tr, evs, i);
    var s := tr[i];
    forall k | k in s.creators && s.creators[k].pc.Landing? && Prompt(s, Land(k))
      ensures var x := s.creators[k].pc.collection;
              && x in s.db.collections && s.db.collections[x].execTime == s.creators[k].execTime
              && forall j :: j in s.cleaners ==> x !in s.cleaners[j]
    {
      PromptLandingIsSafe(s, k);
    }
    forall j, id | j in s.cleaners && id in s.db.tasks
      ensures s.db.tasks[id] !in s.cleaners[j]
    {
      assert CleanerInv(s, s.cleaners[j]);
    }
  }

  /** With the exec time clamped to the present, five seconds after the clamp are always in time. */
  lemma {:induction false} ClampedIsPrompt(c: Config, tr: seq<State>, evs: seq<Event>, i: nat)
    requires IsRun(c, tr, evs) && i <= |evs|
    requires forall k :: 0 <= k < i ==> PromptAfterClamp(tr[k], evs[k])
    ensures forall k :: 0 <= k < i ==> Prompt(tr[k], evs[k])
  {
    hide Step, Init, Prompt, PromptAfterClamp;
    if i > 0 {
      ClampedIsPrompt(c, tr, evs, i - 1);
      RunInv(c, tr, evs, i - 1);
      ClampedLandingIsPrompt(c, tr[i - 1], tr[i], evs[i - 1]);
    }
  }

  lemma ClampedLandingIsPrompt(c: Config, s: State, s': State, e: Event)
    requires Inv(s) && Step(c, s, s', e) && PromptAfterClamp(s, e)
    ensures Prompt(s, e)
  {
    if e.Land? && e.k in s.creators {
      assert CreatorInv(s, s.creators[e.k]);
    }
  }

  // Runs in which a task row is late, and its collection is gone.

  function Starting(c: Config, task: Task, at: int): Creator {
    Creator(task.id, task.execTime, IsTaken(c, task.execTime, at), at, at, Started)
  }

  function Opened(c: Config, task: Task, at: int): Db {
    Db(map[1 := Collection(task.execTime, if IsTaken(c, task.execTime, at) then 1 else 0)], map[], 2)
  }

  lemma CreateIsUnderWay(c: Config, task: Task, at: int) returns (s0: State, s1: State, s2: State, s3: State)
    requires FitsColumn(task.execTime) && SaneClock(at) && Unix(at) <= task.execTime
    ensures var cr := Starting(c, task, at);
            && Init(s0) && s0.clock == at && Step(c, s0, s1, Begin(0, task)) && Step(c, s1, s2, Clamp(0))
            && Step(c, s2, s3, Select(0, None))
            && Step(c, s3, Alone(cr, at, Landing(1), Opened(c, task, at)), InsertCollection(0))
  {
    var cr := Starting(c, task, at);
    s1 := Alone(cr, at, Started, EMPTY);
    s0 := s1.(creators := map[]);
    s2 := Alone(cr, at, Selecting, EMPTY);
    s3 := Alone(cr, at, Inserting, EMPTY);
  }

  lemma CollectionIsCleaned(c: Config, task: Task, at: int, landing: int) returns (s5: State, s6: State, s7: State)
    requires SaneClock(landing) && at <= landing && task.execTime + GRACE < Unix(landing)
    ensures var cr := Starting(c, task, at);
            && Step(c, Alone(cr, at, Landing(1), Opened(c, task, at)), s5, Tick)
            && Step(c, s5, s6, CleanSelect(0)) && Step(c, s6, s7, CleanDelete(0))
            && s7 == Alone(cr, landing, Landing(1), Db(map[], map[], 2))
  {
    var cr := Starting(c, task, at);
    s5 := Alone(cr, landing, Landing(1), Opened(c, task, at));
    s6 := s5.(cleaners := map[0 := {1}]);
    s7 := Alone(cr, landing, Landing(1), Db(map[], map[], 2));
    assert Cleanable(s5.db, s5.clock) == {1};
    assert s7.db == WithoutCollections(s6.db, {1});
    assert s7.cleaners == s6.cleaners - {0};
  }

  /**
   The bound is exact. Whatever the options, the exec time, the clamp and the moment of the insert: if the insert
   comes later than five seconds after the exec time, there is a run in which its collection is gone and the
   insert cannot succeed.
   */
  lemma LateLandingFindsNothing(c: Config, task: Task, at: int, landing: int) returns (tr: seq<State>, evs: seq<Event>)
    requires FitsColumn(task.execTime) && SaneClock(at) && SaneClock(landing)
    requires Unix(at) <= task.execTime && task.execTime + GRACE < Unix(landing)
    ensures IsRun(c, tr, evs) && |evs| == 7 && evs[0] == Begin(0, task) && evs[1] == Clamp(0) && tr[1].clock == at
    ensures forall k :: 0 <= k < |evs| ==> Prompt(tr[k], evs[k])
    ensures var s := tr[7];
            && s.clock == landing && 0 in s.creators && s.creators[0].pc == Landing(1)
            && s.creators[0].execTime == task.execTime && s.creators[0].clampedAt == at
            && 1 !in s.db.collections && forall s' :: !DoLand(s, s', 0)
  {
    hide Step, Init, IsTaken, SaneClock, FitsColumn;
    if landing < at {
      UnixGrows(landing, at);
      assert false;
    }
    var s0, s1, s2, s3 := CreateIsUnderWay(c, task, at);
    var s5, s6, s7 := CollectionIsCleaned(c, task, at, landing);
    tr := [s0, s1, s2, s3, Alone(Starting(c, task, at), at, Landing(1), Opened(c, task, at)), s5, s6, s7];
    evs := [Begin(0, task), Clamp(0), Select(0, None), InsertCollection(0), Tick, CleanSelect(0), CleanDelete(0)];
    StillAt(c, s0, s1, Begin(0, task));
  }

  lemma StillAt(c: Config, s: State, s': State, e: Event)
    requires Step(c, s, s', e) && e.Begin?
    ensures s'.clock == s.clock
  {
  }
}
