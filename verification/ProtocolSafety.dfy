/**
 No row is stranded: whatever interleaving of creates, claims, preloading, cleanups and crashes, a
 row whose collection is marked as taken by the live instance is on its way into that instance's
 memory, or has been sent there, provided that creates of tasks that are not taken land before a claim
 reaches their exec time. The options leave them a slack for that, and every landing after it can strand.
 */
module ProtocolSafety {
  import opened Tasks
  import opened Time
  import opened Database
  import opened Protocol

  // ---------- The slack given by the coefficient ----------

  /** A create that was not taken when started may land as long as the clock is before this instant. */
  function LandingLimit(c: Config, startedAt: int): int {
    Instant(Unix(startedAt)) + (c.coef - 1) * c.preload
  }

  /** A claim that computes its bound at the given instant reaches exec times up to this second. */
  function ClaimBound(c: Config, now: int): int {
    Unix(now + c.preload)
  }

  /**
   A task that is not taken when its create starts is far from its exec time, if and only if the exec time
   is not so long past that the computed distance overflows. There is no bound on how far it may be ahead.
   */
  lemma NotTakenIsFar(c: Config, execTime: int, startedAt: int)
    requires ValidConfig(c) && !IsTaken(c, execTime, startedAt)
    ensures Instant(Unix(startedAt)) + c.coef * c.preload <= Instant(execTime) <==> !Ancient(execTime, startedAt)
  {
    UntilIsExactWhen(execTime, startedAt);
    assert 0 < c.coef * c.preload;
  }

  /** Within the range of a duration, a task is taken if and only if it is less than the scaled preload time ahead. */
  lemma TakenMeans(c: Config, execTime: int, startedAt: int)
    requires -MAX_SECONDS <= execTime - Unix(startedAt) <= MAX_SECONDS
    ensures IsTaken(c, execTime, startedAt)
            <==> Instant(execTime) < Instant(Unix(startedAt)) + c.coef * c.preload
  {
    UntilIsExactWhen(execTime, startedAt);
  }

  /**
   The slack, exactly. For a whole-second preload time, no claim up to the instant of landing reaches any
   task that was not taken when its create started, if and only if the landing is before LandingLimit.
   The limit counts from the beginning of the second in which the create started.
   */
  lemma SlackIsExact(c: Config, startedAt: int, landing: int)
    requires ValidConfig(c) && c.preload % SECOND == 0
    ensures landing < LandingLimit(c, startedAt)
            <==> forall execTime, claim ::
                   !Ancient(execTime, startedAt) && !IsTaken(c, execTime, startedAt) && claim <= landing
                   ==> ClaimBound(c, claim) < execTime
  {
    if landing < LandingLimit(c, startedAt) {
      forall execTime, claim | !Ancient(execTime, startedAt) && !IsTaken(c, execTime, startedAt) && claim <= landing
        ensures ClaimBound(c, claim) < execTime
      {
        NotTakenIsFar(c, execTime, startedAt);
        assert c.coef * c.preload == (c.coef - 1) * c.preload + c.preload;
        BegunBy(execTime, claim + c.preload);
      }
    } else {
      var execTime := Unix(startedAt) + c.coef * (c.preload / SECOND);
      WholeSeconds(c);
      UntilIsExactWhen(execTime, startedAt);
      assert !IsTaken(c, execTime, startedAt);
      assert c.coef * c.preload == (c.coef - 1) * c.preload + c.preload;
      BegunBy(execTime, landing + c.preload);
      assert ClaimBound(c, landing) >= execTime;
    }
  }

  lemma WholeSeconds(c: Config)
    requires c.preload % SECOND == 0
    ensures c.coef * (c.preload / SECOND) * SECOND == c.coef * c.preload
  {
    assert c.preload / SECOND * SECOND == c.preload;
  }

  // ---------- The invariant ----------

  /**
   The assumption on creates: one that is not taken inserts its row while no claim reaches its exec time yet.
   WithinSlack below gives a bound that does not depend on the exec time.
   */
  ghost predicate Timely(c: Config, s: State, e: Event) {
    e.Land? && e.k in s.creators && !s.creators[e.k].isTaken ==>
      ClaimBound(c, s.clock) < s.creators[e.k].execTime
  }

  ghost predicate TablesInv(s: State) {
    && Valid(s.db) && 1 <= s.me && SaneClock(s.clock)
    && (forall x :: x in s.db.collections ==> s.db.collections[x].takenBy <= s.me)
    && (forall id :: id in s.db.tasks ==>
          && id in s.inserted && s.inserted[id].collection == s.db.tasks[id]
          && s.db.collections[s.db.tasks[id]].execTime == s.inserted[id].execTime)
  }

  /** The collection of a create that is not taken can only be mine by a claim. */
  ghost predicate CreatorInv(c: Config, s: State, cr: Creator) {
    && (cr.pc.Landing? ==> LandingInv(c, s, cr, cr.pc.collection))
    && (cr.pc.Announcing? ==> cr.id in s.inserted && s.inserted[cr.id].execTime == cr.execTime)
  }

  ghost predicate LandingInv(c: Config, s: State, cr: Creator, x: nat) {
    && x < s.db.nextId
    && (x in s.db.collections ==>
          && s.db.collections[x].execTime == cr.execTime
          && (if cr.isTaken then s.db.collections[x].takenBy == s.me
              else s.db.collections[x].takenBy == s.me ==> Instant(cr.execTime) <= s.clock + c.preload))
  }

  ghost predicate CreatorsInv(c: Config, s: State) {
    forall k :: k in s.creators ==> CreatorInv(c, s, s.creators[k])
  }

  ghost predicate AskInv(c: Config, s: State) {
    && (s.preloader.Asking? ==> Instant(s.preloader.toNext) <= s.clock + c.preload)
    && (!s.preloader.Distributing? ==> s.pending == [])
  }

  function RowTask(s: State, id: string): Task
    requires id in s.inserted
  {
    Task(id, s.inserted[id].execTime)
  }

  ghost predicate Announced(s: State, id: string) {
    exists k :: k in s.creators && s.creators[k].pc.Announcing? && s.creators[k].id == id
  }

  ghost predicate BeingRead(s: State, x: nat) {
    exists w :: w in s.workers && s.workers[w] == Reading(x)
  }

  ghost predicate BeingPushed(s: State, t: Task) {
    exists w :: w in s.workers && s.workers[w].Pushing? && t in s.workers[w].tasks
  }

  /** The row is in the hands of the live instance, before or at the preload channel. */
  ghost predicate Covered(s: State, id: string)
    requires id in s.inserted && id in s.db.tasks
  {
    || s.fatal
    || RowTask(s, id) in s.pushed
    || Announced(s, id)
    || s.db.tasks[id] in s.pending
    || BeingRead(s, s.db.tasks[id])
    || BeingPushed(s, RowTask(s, id))
  }

  ghost predicate Mine(s: State, id: string) {
    && id in s.db.tasks && id in s.inserted && s.db.tasks[id] in s.db.collections
    && s.db.collections[s.db.tasks[id]].takenBy == s.me
  }

  ghost predicate CoverInv(s: State) {
    forall id :: Mine(s, id) ==> Covered(s, id)
  }

  ghost predicate Inv(c: Config, s: State) {
    TablesInv(s) && CreatorsInv(c, s) && AskInv(c, s) && CoverInv(s)
  }

  // ---------- Steps that change no table ----------

  /** Everything that coverage looks at is at least as it was. */
  ghost predicate Keeps(s: State, s': State) {
    && s'.db == s.db && s'.inserted == s.inserted && s'.me == s.me
    && (s.fatal ==> s'.fatal) && s.pushed <= s'.pushed
    && (forall k :: k in s.creators && s.creators[k].pc.Announcing? ==>
          k in s'.creators && s'.creators[k] == s.creators[k])
    && s'.pending == s.pending && s'.workers == s.workers
  }

  lemma KeepsCovers(s: State, s': State)
    requires CoverInv(s) && Keeps(s, s')
    ensures CoverInv(s')
  {
    forall id | Mine(s', id)
      ensures Covered(s', id)
    {
      assert Mine(s, id) && Covered(s, id);
      if Announced(s, id) {
        var k :| k in s.creators && s.creators[k].pc.Announcing? && s.creators[k].id == id;
        assert k in s'.creators && s'.creators[k] == s.creators[k];
      }
    }
  }

  lemma TickKeepsInv(c: Config, s: State, s': State)
    requires Inv(c, s) && DoTick(s, s')
    ensures Inv(c, s')
  {
    KeepsCovers(s, s');
  }

  lemma CreatorMoves(c: Config, s: State, s': State, k: nat)
    requires Inv(c, s) && s' == s.(creators := s'.creators)
    requires k in s.creators ==> !s.creators[k].pc.Announcing?
    requires s'.creators == s.creators - {k}
             || (k in s'.creators && s'.creators == s.creators[k := s'.creators[k]] && CreatorInv(c, s, s'.creators[k]))
    ensures Inv(c, s')
  {
    KeepsCovers(s, s');
  }

  lemma BeginKeepsInv(c: Config, s: State, s': State, k: nat, task: Task)
    requires Inv(c, s) && DoBegin(c, s, s', k, task)
    ensures Inv(c, s')
  {
    CreatorMoves(c, s, s', k);
  }

  lemma SelectKeepsInv(c: Config, s: State, s': State, k: nat, found: Option<nat>)
    requires Inv(c, s) && DoSelect(c, s, s', k, found)
    ensures Inv(c, s')
  {
    CreatorMoves(c, s, s', k);
  }

  lemma OtherCreatorStepsKeepInv(c: Config, s: State, s': State, k: nat)
    requires Inv(c, s) && (DoClamp(s, s', k) || DoRetry(s, s', k) || DoFail(s, s', k))
    ensures Inv(c, s')
  {
    CreatorMoves(c, s, s', k);
  }

  lemma AskKeepsInv(c: Config, s: State, s': State)
    requires Inv(c, s) && DoAsk(c, s, s')
    ensures Inv(c, s')
  {
    BegunBy(s'.preloader.toNext, s.clock + c.preload);
    KeepsCovers(s, s');
  }

  lemma QuietKeepsInv(c: Config, s: State, s': State)
    requires Inv(c, s) && Keeps(s, s') && s'.creators == s.creators && s'.clock == s.clock
    requires s'.preloader == s.preloader
    ensures Inv(c, s')
  {
    KeepsCovers(s, s');
  }

  lemma ReceiveKeepsInv(c: Config, s: State, s': State)
    requires Inv(c, s) && DoReceive(s, s')
    ensures Inv(c, s')
  {
    QuietKeepsInv(c, s, s');
  }

  /** A fatal event raised elsewhere. */
  lemma FatalKeepsInv(c: Config, s: State, s': State)
    requires Inv(c, s) && s' == s.(fatal := true)
    ensures Inv(c, s')
  {
    QuietKeepsInv(c, s, s');
  }

  // ---------- Creating ----------

  lemma InsertCollectionKeepsInv(c: Config, s: State, s': State, k: nat)
    requires Inv(c, s) && DoInsertCollection(s, s', k)
    ensures Inv(c, s')
  {
    forall id | Mine(s', id)
      ensures Covered(s', id)
    {
      assert Mine(s, id) && Covered(s, id);
      if Announced(s, id) {
        var j :| j in s.creators && s.creators[j].pc.Announcing? && s.creators[j].id == id;
        assert j in s'.creators && s'.creators[j] == s.creators[j];
      }
    }
  }

  /** The heart: a timely create that is not taken never lands in a collection of its own instance. */
  lemma TimelyLandsOutside(c: Config, s: State, cr: Creator, x: nat)
    requires CreatorInv(c, s, cr) && cr.pc == Landing(x) && !cr.isTaken && x in s.db.collections
    requires ClaimBound(c, s.clock) < cr.execTime
    ensures s.db.collections[x].takenBy != s.me
  {
    BegunBy(cr.execTime, s.clock + c.preload);
  }

  lemma LandKeepsTables(c: Config, s: State, s': State, k: nat)
    requires Inv(c, s) && DoLand(s, s', k)
    ensures TablesInv(s') && CreatorsInv(c, s') && AskInv(c, s')
  {
    var cr := s.creators[k];
    assert CreatorInv(c, s, cr);
    forall j | j in s'.creators
      ensures CreatorInv(c, s', s'.creators[j])
    {
      assert j in s.creators && CreatorInv(c, s, s.creators[j]);
    }
  }

  lemma LandKeepsCover(c: Config, s: State, s': State, k: nat)
    requires Inv(c, s) && DoLand(s, s', k) && Timely(c, s, Land(k))
    ensures CoverInv(s')
  {
    var cr := s.creators[k];
    assert CreatorInv(c, s, cr);
    forall id | Mine(s', id)
      ensures Covered(s', id)
    {
      if id == cr.id {
        if cr.isTaken {
          assert k in s'.creators && s'.creators[k].pc.Announcing?;
        } else {
          TimelyLandsOutside(c, s, cr, cr.pc.collection);
        }
      } else {
        assert Mine(s, id) && Covered(s, id);
        if Announced(s, id) {
          var j :| j in s.creators && s.creators[j].pc.Announcing? && s.creators[j].id == id;
          assert j in s'.creators && s'.creators[j] == s.creators[j];
        }
      }
    }
  }

  lemma AnnounceKeepsInv(c: Config, s: State, s': State, k: nat)
    requires Inv(c, s) && DoAnnounce(s, s', k)
    ensures Inv(c, s')
  {
    assert CreatorInv(c, s, s.creators[k]);
    forall id | Mine(s', id)
      ensures Covered(s', id)
    {
      assert Mine(s, id) && Covered(s, id);
      if Announced(s, id) {
        var j :| j in s.creators && s.creators[j].pc.Announcing? && s.creators[j].id == id;
        assert j != k ==> j in s'.creators && s'.creators[j] == s.creators[j];
      }
    }
  }

  // ---------- Claiming and preloading ----------

  lemma ClaimKeepsTables(c: Config, s: State, s': State, order: seq<nat>)
    requires Inv(c, s) && DoClaimAll(s, s', order)
    ensures TablesInv(s') && CreatorsInv(c, s') && AskInv(c, s')
  {
    forall k | k in s'.creators
      ensures CreatorInv(c, s', s'.creators[k])
    {
      assert CreatorInv(c, s, s.creators[k]);
    }
  }

  lemma ClaimKeepsCover(c: Config, s: State, s': State, order: seq<nat>)
    requires Inv(c, s) && DoClaimAll(s, s', order)
    ensures CoverInv(s')
  {
    forall id | Mine(s', id)
      ensures Covered(s', id)
    {
      var x := s.db.tasks[id];
      if s.db.collections[x].takenBy == s.me {
        assert Mine(s, id) && Covered(s, id);
      } else {
        assert x in order;
      }
    }
  }

  lemma WorkerTakesKeepsCover(s: State, s': State, w: nat)
    requires CoverInv(s) && DoWorkerTakes(s, s', w)
    ensures CoverInv(s')
  {
    forall id | Mine(s', id)
      ensures Covered(s', id)
    {
      assert Mine(s, id) && Covered(s, id);
      WorkersStay(s, s', w, id);
      if s.db.tasks[id] == s.pending[0] {
        assert w in s'.workers && s'.workers[w] == Reading(s.db.tasks[id]);
      }
    }
  }

  /** What other workers than w hold is not affected by a step of w. */
  lemma WorkersStay(s: State, s': State, w: nat, id: string)
    requires id in s.inserted && id in s.db.tasks
    requires forall v :: v in s.workers && v != w ==> v in s'.workers && s'.workers[v] == s.workers[v]
    ensures BeingRead(s, s.db.tasks[id]) ==>
              BeingRead(s', s.db.tasks[id]) || (w in s.workers && s.workers[w] == Reading(s.db.tasks[id]))
    ensures BeingPushed(s, RowTask(s, id)) ==>
              BeingPushed(s', RowTask(s, id))
              || (w in s.workers && s.workers[w].Pushing? && RowTask(s, id) in s.workers[w].tasks)
  {
    if BeingRead(s, s.db.tasks[id]) {
      var v :| v in s.workers && s.workers[v] == Reading(s.db.tasks[id]);
      assert v != w ==> v in s'.workers && s'.workers[v] == s.workers[v];
    }
    if BeingPushed(s, RowTask(s, id)) {
      var v :| v in s.workers && s.workers[v].Pushing? && RowTask(s, id) in s.workers[v].tasks;
      assert v != w ==> v in s'.workers && s'.workers[v] == s.workers[v];
    }
  }

  lemma WorkerReadsKeepsCover(s: State, s': State, w: nat, tasks: seq<Task>)
    requires TablesInv(s) && CoverInv(s) && DoWorkerReads(s, s', w, tasks)
    ensures CoverInv(s')
  {
    forall id | Mine(s', id)
      ensures Covered(s', id)
    {
      assert Mine(s, id) && Covered(s, id);
      WorkersStay(s, s', w, id);
      if s.db.tasks[id] == s.workers[w].collection {
        assert RowTask(s, id) in tasks;
        assert w in s'.workers && s'.workers[w].Pushing?;
      }
    }
  }

  lemma WorkerPushesKeepsCover(s: State, s': State, w: nat)
    requires CoverInv(s) && DoWorkerPushes(s, s', w)
    ensures CoverInv(s')
  {
    var tasks := s.workers[w].tasks;
    forall id | Mine(s', id)
      ensures Covered(s', id)
    {
      assert Mine(s, id) && Covered(s, id);
      WorkersStay(s, s', w, id);
      if RowTask(s, id) in tasks && RowTask(s, id) != tasks[0] {
        assert RowTask(s, id) in tasks[1..];
        assert w in s'.workers && s'.workers[w].Pushing?;
      }
    }
  }

  lemma WorkerStepKeepsInv(c: Config, s: State, s': State, e: Event)
    requires Inv(c, s) && Step(c, s, s', e)
    requires e.WorkerTakes? || e.WorkerReads? || e.WorkerFails? || e.WorkerPushes? || e.RoundEnds? || e.ClaimFails?
    ensures Inv(c, s')
  {
    match e
    case WorkerTakes(w) => WorkerTakesKeepsCover(s, s', w);
    case WorkerReads(w, tasks) => WorkerReadsKeepsCover(s, s', w, tasks);
    case WorkerPushes(w) => WorkerPushesKeepsCover(s, s', w);
    case RoundEnds =>
      if !s.fatal {
        KeepsCovers(s, s');
      }
    case _ =>
  }

  // ---------- Deleting, cleaning, crashing ----------

  lemma DeleteRowsKeepsInv(c: Config, s: State, s': State, ids: set<string>)
    requires Inv(c, s) && DoDeleteRows(s, s', ids)
    ensures Inv(c, s')
  {
    forall k | k in s'.creators
      ensures CreatorInv(c, s', s'.creators[k])
    {
      assert CreatorInv(c, s, s.creators[k]);
    }
    forall id | Mine(s', id)
      ensures Covered(s', id)
    {
      assert Mine(s, id) && Covered(s, id);
    }
  }

  lemma CleanDeleteKeepsInv(c: Config, s: State, s': State, j: nat)
    requires Inv(c, s) && DoCleanDelete(s, s', j)
    ensures Inv(c, s')
  {
    forall k | k in s'.creators
      ensures CreatorInv(c, s', s'.creators[k])
    {
      assert CreatorInv(c, s, s.creators[k]);
    }
    forall id | Mine(s', id)
      ensures Covered(s', id)
    {
      assert Mine(s, id) && Covered(s, id);
    }
  }

  /** After a restart no collection carries the new id, so nothing can be stranded yet. */
  lemma CrashKeepsInv(c: Config, s: State, s': State)
    requires Inv(c, s) && DoCrash(s, s')
    ensures Inv(c, s')
  {
    forall id
      ensures !Mine(s', id)
    {
    }
  }

  lemma CreatorStepKeepsInv(c: Config, s: State, s': State, e: Event)
    requires Inv(c, s) && Step(c, s, s', e) && Timely(c, s, e)
    requires e.Begin? || e.Clamp? || e.Select? || e.InsertCollection? || e.Land? || e.Announce? || e.Retry? || e.Fail?
    ensures Inv(c, s')
  {
    hide Inv, Timely, DoBegin, DoClamp, DoSelect, DoInsertCollection, DoLand, DoAnnounce, DoRetry, DoFail;
    match e
    case Begin(k, task) => BeginKeepsInv(c, s, s', k, task);
    case Clamp(k) => OtherCreatorStepsKeepInv(c, s, s', k);
    case Select(k, found) => SelectKeepsInv(c, s, s', k, found);
    case InsertCollection(k) => InsertCollectionKeepsInv(c, s, s', k);
    case Land(k) => LandKeepsInv(c, s, s', k);
    case Announce(k) => AnnounceKeepsInv(c, s, s', k);
    case Retry(k) => OtherCreatorStepsKeepInv(c, s, s', k);
    case Fail(k) => OtherCreatorStepsKeepInv(c, s, s', k);
  }

  lemma LandKeepsInv(c: Config, s: State, s': State, k: nat)
    requires Inv(c, s) && DoLand(s, s', k) && Timely(c, s, Land(k))
    ensures Inv(c, s')
  {
    hide DoLand, Timely, TablesInv, CreatorsInv, AskInv, CoverInv;
    LandKeepsTables(c, s, s', k);
    LandKeepsCover(c, s, s', k);
  }

  lemma ClaimKeepsInv(c: Config, s: State, s': State, order: seq<nat>)
    requires Inv(c, s) && DoClaimAll(s, s', order)
    ensures Inv(c, s')
  {
    hide DoClaimAll, TablesInv, CreatorsInv, AskInv, CoverInv;
    ClaimKeepsTables(c, s, s', order);
    ClaimKeepsCover(c, s, s', order);
  }

  lemma StepKeepsInv(c: Config, s: State, s': State, e: Event)
    requires Inv(c, s) && Step(c, s, s', e) && Timely(c, s, e)
    ensures Inv(c, s')
  {
    hide Inv, Timely, DoTick, DoAsk, DoClaimAll, DoDeleteRows, DoCleanDelete, DoCrash;
    match e
    case Tick => TickKeepsInv(c, s, s');
    case Ask => AskKeepsInv(c, s, s');
    case ClaimAll(order) => ClaimKeepsInv(c, s, s', order);
    case ClaimFails => WorkerStepKeepsInv(c, s, s', e);
    case WorkerTakes(_) => WorkerStepKeepsInv(c, s, s', e);
    case WorkerReads(_, _) => WorkerStepKeepsInv(c, s, s', e);
    case WorkerFails(_) => WorkerStepKeepsInv(c, s, s', e);
    case WorkerPushes(_) => WorkerStepKeepsInv(c, s, s', e);
    case RoundEnds => WorkerStepKeepsInv(c, s, s', e);
    case DeleteRows(ids) => DeleteRowsKeepsInv(c, s, s', ids);
    case CleanDelete(j) => CleanDeleteKeepsInv(c, s, s', j);
    case CleanSelect(_) => QuietKeepsInv(c, s, s');
    case CleanFails(_) => QuietKeepsInv(c, s, s');
    case Receive => QuietKeepsInv(c, s, s');
    case Crash => CrashKeepsInv(c, s, s');
    case _ => CreatorStepKeepsInv(c, s, s', e);
  }

  lemma {:induction false} RunInv(c: Config, tr: seq<State>, evs: seq<Event>, i: nat)
    requires IsRun(c, tr, evs) && i < |tr|
    requires forall k :: 0 <= k < i ==> Timely(c, tr[k], evs[k])
    ensures Inv(c, tr[i])
  {
    if i > 0 {
      RunInv(c, tr, evs, i - 1);
      StepKeepsInv(c, tr[i - 1], tr[i], evs[i - 1]);
    }
  }

  /**
   No stranded row, up to the preload channel: in every run in which creates that are not taken land before a
   claim reaches their exec time, each stored row is in a collection that the live instance has not taken, or
   its collection is claimed and unread, or a worker is reading it or holds it, or its creator is about to
   push it, or it was pushed to the preload channel, or a fatal event was raised.
   */
  lemma NoRowStranded(c: Config, tr: seq<State>, evs: seq<Event>, i: nat, id: string)
    requires IsRun(c, tr, evs) && i < |tr|
    requires forall k :: 0 <= k < i ==> Timely(c, tr[k], evs[k])
    requires id in tr[i].db.tasks
    ensures var s := tr[i];
            && s.db.tasks[id] in s.db.collections && id in s.inserted
            && s.db.collections[s.db.tasks[id]].execTime == s.inserted[id].execTime
            && (s.db.collections[s.db.tasks[id]].takenBy != s.me || Covered(s, id))
  {
    RunInv(c, tr, evs, i);
  }

  /** With a coefficient of one there is no slack: whenever the row lands, a claim may have come first. */
  lemma CoefficientOneLeavesNoSlack(c: Config, startedAt: int, landing: int)
    requires ValidConfig(c) && c.coef == 1 && c.preload % SECOND == 0 && startedAt <= landing
    ensures exists execTime, claim ::
              && !Ancient(execTime, startedAt) && !IsTaken(c, execTime, startedAt) && claim <= landing
              && execTime <= ClaimBound(c, claim)
  {
    SlackIsExact(c, startedAt, landing);
    assert c.coef * (c.preload / SECOND) == c.preload / SECOND;
  }

  // ---------- In time by the options alone ----------

  /**
   A bound that does not depend on the exec time: creates that are not taken insert their row before their limit,
   and are not for an exec time more than 292 years ago.
   */
  ghost predicate WithinSlack(c: Config, s: State, e: Event) {
    && (e.Land? && e.k in s.creators && !s.creators[e.k].isTaken ==>
          s.clock < LandingLimit(c, s.creators[e.k].startedAt))
    && (e.Begin? && !IsTaken(c, e.task.execTime, s.clock) ==> !Ancient(e.task.execTime, s.clock))
  }

  /** A create that is not taken is far from its exec time. */
  ghost predicate FarInv(c: Config, s: State) {
    forall k :: k in s.creators && !s.creators[k].isTaken ==>
      Instant(Unix(s.creators[k].startedAt)) + c.coef * c.preload <= Instant(s.creators[k].execTime)
  }

  lemma StepKeepsFarInv(c: Config, s: State, s': State, e: Event)
    requires ValidConfig(c) && FarInv(c, s) && Step(c, s, s', e) && WithinSlack(c, s, e)
    ensures FarInv(c, s')
  {
    hide IsTaken, IsOrdered, IsRead, DoClamp, DoSelect, DoInsertCollection, DoLand, DoAnnounce, DoRetry, DoFail;
    if e.Begin? {
      if !IsTaken(c, e.task.execTime, s.clock) {
        NotTakenIsFar(c, e.task.execTime, s.clock);
      }
    } else if e.Clamp? || e.Select? || e.InsertCollection? || e.Land? || e.Announce? || e.Retry? || e.Fail? {
      CreatorStepKeepsFarInv(c, s, s', e);
    }
  }

  lemma CreatorStepKeepsFarInv(c: Config, s: State, s': State, e: Event)
    requires FarInv(c, s) && Step(c, s, s', e)
    requires e.Clamp? || e.Select? || e.InsertCollection? || e.Land? || e.Announce? || e.Retry? || e.Fail?
    ensures FarInv(c, s')
  {
    hide NoneSelectable, Selectable;
  }

  lemma SlackStepIsTimely(c: Config, s: State, e: Event)
    requires ValidConfig(c) && FarInv(c, s) && WithinSlack(c, s, e)
    ensures Timely(c, s, e)
  {
    if e.Land? && e.k in s.creators && !s.creators[e.k].isTaken {
      assert c.coef * c.preload == (c.coef - 1) * c.preload + c.preload;
      BegunBy(s.creators[e.k].execTime, s.clock + c.preload);
    }
  }

  /** The slack that the coefficient gives is enough, in every run. */
  lemma {:induction false} SlackIsTimely(c: Config, tr: seq<State>, evs: seq<Event>, i: nat)
    requires ValidConfig(c) && IsRun(c, tr, evs) && i < |tr|
    requires forall k :: 0 <= k < i ==> WithinSlack(c, tr[k], evs[k])
    ensures FarInv(c, tr[i])
    ensures forall k :: 0 <= k < i ==> Timely(c, tr[k], evs[k])
  {
    hide Step, WithinSlack, Timely, FarInv;
    if i > 0 {
      SlackIsTimely(c, tr, evs, i - 1);
      StepKeepsFarInv(c, tr[i - 1], tr[i], evs[i - 1]);
      SlackStepIsTimely(c, tr[i - 1], evs[i - 1]);
    } else {
      StartsFar(c, tr[0]);
    }
  }

  lemma StartsFar(c: Config, s: State)
    requires Init(s)
    ensures FarInv(c, s)
  {
  }

  // ---------- Runs in which a row lands too late and is stranded ----------

  /** What the exec time is after the clamp. */
  function Clamped(execTime: int, clock: int): int {
    if execTime < Unix(clock) then Unix(clock) else execTime
  }

  function AboutToLand(cr: Creator, clock: int): State {
    Alone(cr, clock, Landing(1), Db(map[1 := Collection(cr.execTime, 0)], map[], 2))
  }

  /** Its collection is claimed and read. */
  function ReadAlready(cr: Creator, clock: int): State {
    AboutToLand(cr, clock).(db := Db(map[1 := Collection(cr.execTime, 1)], map[], 2), claimed := {1}, read := {1},
                            preloader := Distributing)
  }

  lemma UntakenCreateStarts(c: Config, task: Task, at: int)
    returns (cr: Creator, s0: State, s1: State, s2: State, s3: State)
    requires SaneClock(at) && FitsColumn(Clamped(task.execTime, at)) && !IsTaken(c, task.execTime, at)
    ensures cr.id == task.id && cr.execTime == Clamped(task.execTime, at) && !cr.isTaken && cr.startedAt == at
    ensures Init(s0) && s0.clock == at && Step(c, s0, s1, Begin(0, task)) && Step(c, s1, s2, Clamp(0))
    ensures Step(c, s2, s3, Select(0, None)) && Step(c, s3, AboutToLand(cr, at), InsertCollection(0))
  {
    cr := Creator(task.id, Clamped(task.execTime, at), false, at, at, Started);
    s1 := Alone(cr.(execTime := task.execTime), at, Started, EMPTY);
    s0 := s1.(creators := map[]);
    s2 := Alone(cr, at, Selecting, EMPTY);
    s3 := Alone(cr, at, Inserting, EMPTY);
  }

  lemma ItsCollectionIsClaimed(c: Config, cr: Creator, at: int, landing: int) returns (s5: State, s6: State, s7: State)
    requires at <= landing && SaneClock(landing) && cr.execTime <= ClaimBound(c, landing)
    ensures Step(c, AboutToLand(cr, at), s5, Tick) && Step(c, s5, s6, Ask) && Step(c, s6, s7, ClaimAll([1]))
    ensures s7 == ReadAlready(cr, landing).(pending := [1], read := {})
  {
    s5 := AboutToLand(cr, landing);
    s6 := s5.(preloader := Asking(ClaimBound(c, landing)));
    s7 := ReadAlready(cr, landing).(pending := [1], read := {});
    assert Claimable(s6.db, s6.preloader.toNext, 1) == {1};
    assert s7.db == Claim(s6.db, {1}, 1);
  }

  lemma ItIsReadTooEarly(c: Config, cr: Creator, clock: int) returns (s8: State)
    ensures Step(c, ReadAlready(cr, clock).(pending := [1], read := {}), s8, WorkerTakes(0))
    ensures Step(c, s8, ReadAlready(cr, clock), WorkerReads(0, []))
  {
    s8 := ReadAlready(cr, clock).(read := {}, workers := map[0 := Reading(1)]);
    assert s8.workers - {0} == map[];
  }

  lemma ItLandsTooLate(c: Config, cr: Creator, clock: int) returns (s10: State)
    requires !cr.isTaken
    ensures Step(c, ReadAlready(cr, clock), s10, Land(0)) && Mine(s10, cr.id) && !Covered(s10, cr.id)
  {
    var s9 := ReadAlready(cr, clock);
    s10 := s9.(db := Db(s9.db.collections, map[cr.id := 1], 2), inserted := map[cr.id := Insert(1, cr.execTime)],
               creators := map[]);
    assert s10.creators == s9.creators - {0};
  }

  /**
   The assumption is exact. Whatever the options, the task, the start and the landing: if the create is not
   taken, and a claim at the moment of the landing would reach its exec time, there is a run in which
   this landing is the only one that is not in time, and the row is stranded.
   */
  lemma LateLandingStrands(c: Config, task: Task, at: int, landing: int) returns (tr: seq<State>, evs: seq<Event>)
    requires SaneClock(at) && SaneClock(landing) && at <= landing && !IsTaken(c, task.execTime, at)
    requires FitsColumn(Clamped(task.execTime, at)) && Clamped(task.execTime, at) <= ClaimBound(c, landing)
    ensures IsRun(c, tr, evs) && |evs| == 10 && evs[0] == Begin(0, task) && evs[9] == Land(0)
    ensures tr[0].clock == at && tr[9].clock == landing
    ensures 0 in tr[9].creators && tr[9].creators[0].startedAt == at && !tr[9].creators[0].isTaken
    ensures forall i :: 0 <= i < 9 ==> Timely(c, tr[i], evs[i])
    ensures Mine(tr[10], task.id) && !Covered(tr[10], task.id)
  {
    hide Step, Init, Mine, Covered, IsTaken, SaneClock, FitsColumn, ClaimBound, Clamped;
    var cr, s0, s1, s2, s3 := UntakenCreateStarts(c, task, at);
    var s5, s6, s7 := ItsCollectionIsClaimed(c, cr, at, landing);
    var s8 := ItIsReadTooEarly(c, cr, landing);
    var s10 := ItLandsTooLate(c, cr, landing);
    tr := [s0, s1, s2, s3, AboutToLand(cr, at), s5, s6, s7, s8, ReadAlready(cr, landing), s10];
    evs := [Begin(0, task), Clamp(0), Select(0, None), InsertCollection(0), Tick, Ask, ClaimAll([1]), WorkerTakes(0),
            WorkerReads(0, []), Land(0)];
  }

  const DEFAULTS := Config(2, 5 * SECOND, 1000)

  /**
   Counted from the instant at which the create starts, the bound of (coef - 1) * preload is not enough: with the
   default options a row that lands 4.8 seconds after its create started can be stranded.
   */
  lemma SubSecondStranding() returns (tr: seq<State>, evs: seq<Event>)
    ensures IsRun(DEFAULTS, tr, evs) && |evs| == 10 && evs[0].Begin? && evs[9] == Land(0)
    ensures tr[9].clock - tr[0].clock < (DEFAULTS.coef - 1) * DEFAULTS.preload
    ensures LandingLimit(DEFAULTS, tr[0].clock) <= tr[9].clock
    ensures Mine(tr[10], evs[0].task.id) && !Covered(tr[10], evs[0].task.id)
  {
    hide Step, Init, Mine, Covered;
    tr, evs := LateLandingStrands(DEFAULTS, Task("late", 10), SECOND / 2, 5 * SECOND + 3 * SECOND / 10);
  }

  /**
   An exec time so long past that the create is computed not to be taken leaves no time at all: whatever the options
   and the start, its row can be stranded when it lands at the very instant at which the create starts.
   */
  lemma AncientStranding(c: Config, task: Task, at: int) returns (tr: seq<State>, evs: seq<Event>)
    requires 0 < c.preload && SaneClock(at) && FitsColumn(Unix(at))
    requires Ancient(task.execTime, at) && !IsTaken(c, task.execTime, at)
    ensures IsRun(c, tr, evs) && |evs| == 10 && evs[0] == Begin(0, task) && evs[9] == Land(0)
    ensures tr[9].clock == tr[0].clock == at
    ensures Mine(tr[10], task.id) && !Covered(tr[10], task.id)
  {
    hide Step, Init, Mine, Covered;
    UnixGrows(at, at + c.preload);
    tr, evs := LateLandingStrands(c, task, at, at);
  }

  /** Such an exec time exists: eight thousand million seconds before 1970, seen from the year 2025. */
  lemma AncientExecTimesExist()
    ensures var now := 1_750_000_000 * SECOND;
            Ancient(-8_000_000_000, now) && !IsTaken(DEFAULTS, -8_000_000_000, now) && now < LandingLimit(DEFAULTS, now)
  {
  }
}
