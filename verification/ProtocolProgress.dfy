/**
 The preloading loop is never stuck: as long as no fatal event was raised, it can bring every row that is due within
 the preload time to the preload channel by its own steps alone, whatever else is under way.
 */
module ProtocolProgress {
  import opened Tasks
  import opened Time
  import opened Database
  import opened Protocol
  import opened Preloader

  ghost predicate IsPath(c: Config, tr: seq<State>, evs: seq<Event>) {
    && |tr| == |evs| + 1
    && forall i :: 0 <= i < |evs| ==> Step(c, tr[i], tr[i + 1], evs[i])
  }

  /** The steps of the preloading loop and of its workers, apart from their failures. */
  predicate Preloads(e: Event) {
    e.Ask? || e.ClaimAll? || e.WorkerTakes? || e.WorkerReads? || e.WorkerPushes? || e.RoundEnds?
  }

  /** Between two rounds nothing is held, and a loop that has not failed has not stopped. */
  ghost predicate RoundInv(s: State) {
    && (s.preloader.Stopped? ==> s.fatal)
    && (!s.preloader.Distributing? ==> s.workers == map[] && s.pending == [])
    && forall w :: w in s.workers && s.workers[w].Pushing? ==> s.workers[w].tasks != []
  }

  ghost predicate Stored(s: State, t: Task) {
    && t.id in s.db.tasks && s.db.tasks[t.id] in s.db.collections
    && t.execTime == s.db.collections[s.db.tasks[t.id]].execTime
  }

  /** A collection that is not mine, or is mine and not read yet. */
  ghost predicate Unread(s: State, x: nat) {
    || (x in s.db.collections && s.db.collections[x].takenBy != s.me)
    || x in s.pending
    || exists w :: w in s.workers && s.workers[w] == Reading(x)
  }

  ghost predicate Loaded(s: State, t: Task) {
    exists w :: w in s.workers && s.workers[w].Pushing? && t in s.workers[w].tasks
  }

  /** It is the preloading loop that has to push the task. */
  ghost predicate Awaits(s: State, t: Task) {
    (Stored(s, t) && Unread(s, s.db.tasks[t.id])) || Loaded(s, t)
  }

  /** Everything that the loop has to push it still has to push, or has pushed. */
  ghost predicate Advances(s: State, s': State) {
    && s'.me == s.me && s'.clock == s.clock && s'.fatal == s.fatal && s'.db.tasks == s.db.tasks
    && s.pushed <= s'.pushed
    && s'.db.collections.Keys == s.db.collections.Keys
    && (forall x :: x in s.db.collections ==>
          && s'.db.collections[x].execTime == s.db.collections[x].execTime
          && (s.db.collections[x].takenBy == s.me ==> s'.db.collections[x].takenBy == s.me))
    && forall t :: Awaits(s, t) ==> Awaits(s', t) || t in s'.pushed
  }

  lemma AdvancesOn(s: State, s1: State, s2: State)
    requires Advances(s, s1) && Advances(s1, s2)
    ensures Advances(s, s2)
  {
    hide Awaits;
  }

  lemma StepKeepsRound(c: Config, s: State, s': State, e: Event)
    requires RoundInv(s) && Step(c, s, s', e)
    ensures RoundInv(s')
  {
    hide DoBegin, DoClamp, DoSelect, DoInsertCollection, DoLand, DoAnnounce, DoRetry, DoFail, IsRead, IsOrdered,
         Claim, Claimable, Cleanable;
    if e.Begin? || e.Clamp? || e.Select? || e.InsertCollection? || e.Land? || e.Announce? || e.Retry? || e.Fail? {
      CreatorsKeepRound(c, s, s', e);
    }
  }

  lemma CreatorsKeepRound(c: Config, s: State, s': State, e: Event)
    requires Step(c, s, s', e)
    requires e.Begin? || e.Clamp? || e.Select? || e.InsertCollection? || e.Land? || e.Announce? || e.Retry? || e.Fail?
    ensures s'.preloader == s.preloader && s'.workers == s.workers && s'.pending == s.pending && s'.fatal == s.fatal
  {
    hide IsTaken, NoneSelectable, Selectable;
  }

  lemma {:induction false} RunInv(c: Config, tr: seq<State>, evs: seq<Event>, i: nat)
    requires IsRun(c, tr, evs) && i < |tr|
    ensures RoundInv(tr[i])
  {
    hide Step, RoundInv, Init;
    if i > 0 {
      RunInv(c, tr, evs, i - 1);
      StepKeepsRound(c, tr[i - 1], tr[i], evs[i - 1]);
    } else {
      StartsBetweenRounds(tr[0]);
    }
  }

  lemma StartsBetweenRounds(s: State)
    requires Init(s)
    ensures RoundInv(s)
  {
  }

  // ---------- The answers of the queries exist ----------

  lemma {:induction false} InSomeOrder(ids: set<string>, execTime: int) returns (tasks: seq<Task>)
    ensures forall t :: t in tasks <==> t.id in ids && t.execTime == execTime
    ensures forall i, j :: 0 <= i < j < |tasks| ==> tasks[i].id != tasks[j].id
    decreases |ids|
  {
    tasks := [];
    if ids != {} {
      var id :| id in ids;
      var rest := InSomeOrder(ids - {id}, execTime);
      tasks := rest + [Task(id, execTime)];
      forall i, j | 0 <= i < j < |tasks|
        ensures tasks[i].id != tasks[j].id
      {
        assert tasks[i] in rest;
      }
    }
  }

  lemma ReadExists(db: Db, x: nat) returns (tasks: seq<Task>)
    ensures IsRead(db, x, tasks)
  {
    tasks := [];
    if x in db.collections {
      tasks := InSomeOrder(Rows(db, x), db.collections[x].execTime);
    }
  }

  lemma {:induction false} LatestFirst(db: Db, ids: set<nat>) returns (id: nat)
    requires ids != {} && forall x :: x in ids ==> x in db.collections
    ensures id in ids && forall x :: x in ids ==> db.collections[x].execTime <= db.collections[id].execTime
    decreases |ids|
  {
    id :| id in ids;
    if ids != {id} {
      assert ids - {id} != {};
      var other := LatestFirst(db, ids - {id});
      if db.collections[other].execTime > db.collections[id].execTime {
        id := other;
      }
    }
  }

  lemma {:induction false} OrderExists(db: Db, ids: set<nat>) returns (order: seq<nat>)
    requires forall x :: x in ids ==> x in db.collections
    ensures IsOrdered(db, ids, order)
    decreases |ids|
  {
    order := [];
    if ids != {} {
      var last := LatestFirst(db, ids);
      var rest := OrderExists(db, ids - {last});
      order := rest + [last];
      forall i, j | 0 <= i < j < |order|
        ensures order[i] != order[j] && db.collections[order[i]].execTime <= db.collections[order[j]].execTime
      {
        assert order[i] in rest && order[i] in ids;
        if j < |rest| {
          assert order[j] in rest && order[j] in ids;
        }
      }
    }
  }

  // ---------- One step of each kind ----------

  lemma TakesNext(c: Config, s: State) returns (s': State)
    requires s.preloader.Distributing? && s.workers == map[] && s.pending != []
    ensures Step(c, s, s', WorkerTakes(0)) && Advances(s, s')
    ensures s'.preloader == s.preloader && |s'.pending| < |s.pending|
  {
    s' := s.(workers := s.workers[0 := Reading(s.pending[0])], pending := s.pending[1..]);
    assert s.pending == [s.pending[0]] + s.pending[1..];
    assert s'.workers[0] == Reading(s.pending[0]);
    forall t | Awaits(s, t)
      ensures Awaits(s', t)
    {
      assert !Loaded(s, t);
    }
  }

  lemma ReadsOn(c: Config, s: State, w: nat) returns (s': State, e: Event)
    requires s.preloader.Distributing? && w in s.workers && s.workers[w].Reading?
    ensures Preloads(e) && Step(c, s, s', e) && Advances(s, s')
    ensures s'.preloader == s.preloader && s'.pending == s.pending
    ensures if w in s'.workers then |s'.workers| == |s.workers| && s'.workers[w].Pushing?
            else |s'.workers| < |s.workers|
  {
    hide IsRead;
    var x := s.workers[w].collection;
    var tasks := ReadExists(s.db, x);
    e := WorkerReads(w, tasks);
    s' := s.(workers := if tasks == [] then s.workers - {w} else s.workers[w := Pushing(tasks)],
             read := s.read + {x});
    WorkersCount(s.workers, w, Pushing(tasks));
    forall t | Awaits(s, t)
      ensures Awaits(s', t)
    {
      OthersKeep(s, s', w, t);
      if Stored(s, t) && s.db.tasks[t.id] == x {
        RowIsRead(s.db, x, tasks, t);
        assert s'.workers[w] == Pushing(tasks);
      }
    }
  }

  lemma RowIsRead(db: Db, x: nat, tasks: seq<Task>, t: Task)
    requires IsRead(db, x, tasks) && t.id in db.tasks && db.tasks[t.id] == x && x in db.collections
    requires t.execTime == db.collections[x].execTime
    ensures t in tasks
  {
  }

  lemma WorkersCount(workers: map<nat, Worker>, w: nat, v: Worker)
    requires w in workers
    ensures |workers - {w}| == |workers| - 1 && |workers[w := v]| == |workers|
  {
    assert (workers - {w}).Keys == workers.Keys - {w};
    assert workers[w := v].Keys == workers.Keys;
  }

  /** What does not lie with worker w stays where it is. */
  lemma OthersKeep(s: State, s': State, w: nat, t: Task)
    requires w in s.workers && s'.db == s.db && s'.me == s.me && s'.pending == s.pending && Awaits(s, t)
    requires forall v :: v != w && v in s.workers ==> v in s'.workers && s'.workers[v] == s.workers[v]
    ensures
      || Awaits(s', t)
      || (s.workers[w].Reading? && Stored(s, t) && s.db.tasks[t.id] == s.workers[w].collection)
      || (s.workers[w].Pushing? && t in s.workers[w].tasks)
  {
    if Loaded(s, t) {
      var v :| v in s.workers && s.workers[v].Pushing? && t in s.workers[v].tasks;
      if v != w {
        assert v in s'.workers && s'.workers[v].Pushing?;
      }
    } else if exists v :: v in s.workers && s.workers[v] == Reading(s.db.tasks[t.id]) {
      var v :| v in s.workers && s.workers[v] == Reading(s.db.tasks[t.id]);
      if v != w {
        assert v in s'.workers && s'.workers[v] == Reading(s.db.tasks[t.id]);
      }
    }
  }

  lemma PushesOn(c: Config, s: State, w: nat) returns (s': State)
    requires s.preloader.Distributing? && w in s.workers && s.workers[w].Pushing? && s.workers[w].tasks != []
    ensures Step(c, s, s', WorkerPushes(w)) && Advances(s, s') && s'.preloader == s.preloader && s'.pending == s.pending
    ensures if w in s'.workers
            then |s'.workers| == |s.workers| && s'.workers[w].Pushing?
                 && |s'.workers[w].tasks| < |s.workers[w].tasks|
            else |s'.workers| < |s.workers|
  {
    var tasks := s.workers[w].tasks;
    s' := s.(chan := s.chan + [tasks[0]], pushed := s.pushed + {tasks[0]},
             byWorker := s.byWorker + multiset{tasks[0].id},
             workers := if |tasks| == 1 then s.workers - {w} else s.workers[w := Pushing(tasks[1..])]);
    WorkersCount(s.workers, w, Pushing(tasks[1..]));
    forall t | Awaits(s, t)
      ensures Awaits(s', t) || t in s'.pushed
    {
      OthersKeep(s, s', w, t);
      if t in tasks && t != tasks[0] {
        assert tasks == [tasks[0]] + tasks[1..];
        assert w in s'.workers && t in s'.workers[w].tasks;
      }
    }
  }

  lemma EndsRound(c: Config, s: State) returns (s': State)
    requires s.preloader.Distributing? && s.workers == map[] && s.pending == []
    ensures Step(c, s, s', RoundEnds) && Advances(s, s') && s'.preloader.Idle? && s'.db == s.db
  {
    s' := s.(preloader := Idle, pending := []);
  }

  /** A claim leaves nothing that is due by its bound to others. */
  ghost predicate NoneLeft(s: State, toNext: int) {
    forall x :: x in s.db.collections && s.db.collections[x].execTime <= toNext ==> s.db.collections[x].takenBy == s.me
  }

  lemma Claims(c: Config, s: State) returns (s': State, e: Event)
    requires s.preloader.Asking? && RoundInv(s)
    ensures Preloads(e) && Step(c, s, s', e) && Advances(s, s') && NoneLeft(s', s.preloader.toNext)
    ensures s'.preloader.Idle? || s'.preloader.Distributing?
  {
    hide IsOrdered;
    var ids := Claimable(s.db, s.preloader.toNext, s.me);
    var order := OrderExists(s.db, ids);
    e := ClaimAll(order);
    s' := s.(db := Claim(s.db, ids, s.me), claimed := s.claimed + ids, pending := order,
             preloader := if order == [] then Idle else Distributing);
    InOrder(s.db, ids, order);
    forall t | Awaits(s, t)
      ensures Awaits(s', t)
    {
      assert !Loaded(s, t);
    }
  }

  lemma InOrder(db: Db, ids: set<nat>, order: seq<nat>)
    requires IsOrdered(db, ids, order)
    ensures forall x :: x in ids <==> x in order
  {
  }

  lemma Asks(c: Config, s: State) returns (s': State)
    requires s.preloader.Idle?
    ensures Step(c, s, s', Ask) && Advances(s, s') && s'.preloader == Asking(Unix(s.clock + c.preload))
  {
    s' := s.(preloader := Asking(Unix(s.clock + c.preload)));
  }

  // ---------- Rounds ----------

  lemma Prepend(c: Config, s: State, e: Event, tr: seq<State>, evs: seq<Event>)
    requires IsPath(c, tr, evs) && Step(c, s, tr[0], e)
    ensures IsPath(c, [s] + tr, [e] + evs)
  {
    hide Step;
    var tr', evs' := [s] + tr, [e] + evs;
    forall i | 0 <= i < |evs'|
      ensures Step(c, tr'[i], tr'[i + 1], evs'[i])
    {
      if i > 0 {
        assert tr'[i] == tr[i - 1] && evs'[i] == evs[i - 1];
      }
    }
  }

  lemma Append(c: Config, tr1: seq<State>, evs1: seq<Event>, tr2: seq<State>, evs2: seq<Event>)
    requires IsPath(c, tr1, evs1) && IsPath(c, tr2, evs2) && tr1[|evs1|] == tr2[0]
    ensures IsPath(c, tr1 + tr2[1..], evs1 + evs2) && (tr1 + tr2[1..])[|evs1| + |evs2|] == tr2[|evs2|]
  {
    hide Step;
    var tr, evs := tr1 + tr2[1..], evs1 + evs2;
    forall i | 0 <= i < |evs|
      ensures Step(c, tr[i], tr[i + 1], evs[i])
    {
      if i >= |evs1| {
        assert tr[i] == tr2[i - |evs1|] && tr[i + 1] == tr2[i + 1 - |evs1|];
      }
    }
  }

  /** How far worker w is from being done: with its collection to read, its tasks to push, or without either. */
  function Phase(s: State, w: nat): nat {
    if w !in s.workers then 3 else if s.workers[w].Reading? then 2 else 1
  }

  function Load(s: State, w: nat): nat {
    if w in s.workers && s.workers[w].Pushing? then |s.workers[w].tasks| else 0
  }

  lemma {:induction false} RoundCanEnd(c: Config, s: State, w: nat) returns (tr: seq<State>, evs: seq<Event>)
    requires RoundInv(s) && s.preloader.Distributing?
    ensures IsPath(c, tr, evs) && tr[0] == s && forall i :: 0 <= i < |evs| ==> Preloads(evs[i])
    ensures Advances(s, tr[|evs|]) && RoundInv(tr[|evs|]) && tr[|evs|].preloader.Idle?
    decreases |s.pending|, |s.workers|, Phase(s, w), Load(s, w)
  {
    hide Step, RoundInv, Advances;
    var s', e;
    if s.workers == map[] && s.pending == [] {
      e := RoundEnds;
      s' := EndsRound(c, s);
      StepKeepsRound(c, s, s', e);
      tr, evs := [s, s'], [e];
    } else if s.workers == map[] {
      e := WorkerTakes(0);
      s' := TakesNext(c, s);
      StepKeepsRound(c, s, s', e);
      tr, evs := RoundCanEnd(c, s', 0);
      AdvancesOn(s, s', tr[|evs|]);
      Prepend(c, s, e, tr, evs);
      tr, evs := [s] + tr, [e] + evs;
    } else if w !in s.workers {
      var v :| v in s.workers;
      tr, evs := RoundCanEnd(c, s, v);
    } else {
      if s.workers[w].Reading? {
        s', e := ReadsOn(c, s, w);
      } else {
        LoadsAreLeft(s, w);
        e := WorkerPushes(w);
        s' := PushesOn(c, s, w);
      }
      StepKeepsRound(c, s, s', e);
      tr, evs := RoundCanEnd(c, s', w);
      AdvancesOn(s, s', tr[|evs|]);
      Prepend(c, s, e, tr, evs);
      tr, evs := [s] + tr, [e] + evs;
    }
  }

  lemma LoadsAreLeft(s: State, w: nat)
    requires RoundInv(s) && w in s.workers && s.workers[w].Pushing?
    ensures s.workers[w].tasks != []
  {
  }

  lemma StillNoneLeft(s: State, s': State, toNext: int)
    requires Advances(s, s') && NoneLeft(s, toNext)
    ensures NoneLeft(s', toNext)
  {
    hide Awaits;
  }

  lemma ClaimCanEnd(c: Config, s: State) returns (tr: seq<State>, evs: seq<Event>)
    requires RoundInv(s) && s.preloader.Asking?
    ensures IsPath(c, tr, evs) && tr[0] == s && forall i :: 0 <= i < |evs| ==> Preloads(evs[i])
    ensures Advances(s, tr[|evs|]) && RoundInv(tr[|evs|]) && tr[|evs|].preloader.Idle?
    ensures NoneLeft(tr[|evs|], s.preloader.toNext)
  {
    hide Step, RoundInv, Advances, NoneLeft;
    var s', e := Claims(c, s);
    StepKeepsRound(c, s, s', e);
    if s'.preloader.Idle? {
      tr, evs := [s, s'], [e];
    } else {
      tr, evs := RoundCanEnd(c, s', 0);
      StillNoneLeft(s', tr[|evs|], s.preloader.toNext);
      AdvancesOn(s, s', tr[|evs|]);
      Prepend(c, s, e, tr, evs);
      tr, evs := [s] + tr, [e] + evs;
    }
  }

  /** What is under way comes to its end. */
  lemma LoopComesRound(c: Config, s: State) returns (tr: seq<State>, evs: seq<Event>)
    requires RoundInv(s) && !s.fatal
    ensures IsPath(c, tr, evs) && tr[0] == s && forall i :: 0 <= i < |evs| ==> Preloads(evs[i])
    ensures Advances(s, tr[|evs|]) && RoundInv(tr[|evs|]) && tr[|evs|].preloader.Idle?
  {
    hide Step, Advances;
    if s.preloader.Distributing? {
      tr, evs := RoundCanEnd(c, s, 0);
    } else if s.preloader.Asking? {
      tr, evs := ClaimCanEnd(c, s);
    } else {
      tr, evs := [s], [];
      StandsStill(s);
    }
  }

  lemma StandsStill(s: State)
    ensures Advances(s, s)
  {
  }

  lemma NothingAwaits(s: State, toNext: int, t: Task)
    requires RoundInv(s) && s.preloader.Idle? && NoneLeft(s, toNext) && Awaits(s, t)
    ensures Stored(s, t) && toNext < t.execTime && s.db.collections[s.db.tasks[t.id]].takenBy != s.me
  {
  }

  /**
   Everything due can be preloaded: from every state of every run in which no fatal event was raised, whatever
   creates, cleanups and deletions are under way, the preloading loop and its workers alone can come to a state in
   which every task that was theirs to push has been sent to the preload channel, namely the rows of collections
   that were not mine or not read yet, and the tasks that a worker holds; apart from rows that are further ahead
   than the preload time and still not mine.
   */
  lemma DueCanBePreloaded(c: Config, tr: seq<State>, evs: seq<Event>, i: nat)
    returns (tr': seq<State>, evs': seq<Event>)
    requires IsRun(c, tr, evs) && i < |tr| && !tr[i].fatal
    ensures IsPath(c, tr', evs') && tr'[0] == tr[i] && forall k :: 0 <= k < |evs'| ==> Preloads(evs'[k])
    ensures var s, s' := tr[i], tr'[|evs'|];
            && s'.db.tasks == s.db.tasks && s'.clock == s.clock && s'.me == s.me
            && forall t :: Awaits(s, t) ==>
                 || t in s'.pushed
                 || (Stored(s', t) && s.clock + c.preload < Instant(t.execTime)
                     && s'.db.collections[s'.db.tasks[t.id]].takenBy != s'.me)
  {
    hide Step, Awaits, RoundInv, NoneLeft, Preloads;
    RunInv(c, tr, evs, i);
    var s := tr[i];
    tr', evs' := LoopComesRound(c, s);
    var s1 := tr'[|evs'|];
    var s2 := Asks(c, s1);
    StepKeepsRound(c, s1, s2, Ask);
    var tr2, evs2 := ClaimCanEnd(c, s2);
    Prepend(c, s1, Ask, tr2, evs2);
    var s3 := tr2[|evs2|];
    AdvancesOn(s1, s2, s3);
    AdvancesOn(s, s1, s3);
    AskPreloads();
    Append(c, tr', evs', [s1] + tr2, [Ask] + evs2);
    tr', evs' := tr' + tr2, evs' + ([Ask] + evs2);
    var toNext := Unix(s.clock + c.preload);
    forall t | Awaits(s, t) && t !in s3.pushed
      ensures Stored(s3, t) && s.clock + c.preload < Instant(t.execTime)
      ensures s3.db.collections[s3.db.tasks[t.id]].takenBy != s3.me
    {
      NothingAwaits(s3, toNext, t);
      BegunBy(t.execTime, s.clock + c.preload);
    }
  }

  lemma AskPreloads()
    ensures Preloads(Ask)
  {
  }

  // ---------- Creates ----------

  /** The steps of create k that do not fail it. */
  predicate CreatesOn(e: Event, k: nat) {
    || e == Clamp(k) || e == Retry(k) || e == InsertCollection(k) || e == Land(k) || e == Announce(k)
    || (e.Select? && e.k == k)
  }

  /** The create is through: its row is in, as create_task puts it, and pushed if it is taken. */
  ghost predicate Created(c: Config, s: State, s': State, cr: Creator) {
    && CreateTask(s.db, s'.db, cr.id, cr.execTime, cr.isTaken, s.me, c.max)
    && s'.pushed == (if cr.isTaken then s.pushed + {Task(cr.id, cr.execTime)} else s.pushed)
  }

  lemma AnnounceCanEnd(c: Config, s: State, s3: State, k: nat, cr: Creator)
    returns (tr: seq<State>, evs: seq<Event>)
    requires CreateTask(s.db, s3.db, cr.id, cr.execTime, cr.isTaken, s.me, c.max) && s3.pushed == s.pushed
    requires if cr.isTaken then k in s3.creators && s3.creators[k] == cr.(pc := Announcing) else k !in s3.creators
    ensures IsPath(c, tr, evs) && tr[0] == s3 && forall i :: 0 <= i < |evs| ==> CreatesOn(evs[i], k)
    ensures k !in tr[|evs|].creators && Created(c, s, tr[|evs|], cr)
  {
    hide CreateTask;
    if cr.isTaken {
      var task := Task(cr.id, cr.execTime);
      var s4 := s3.(chan := s3.chan + [task], pushed := s3.pushed + {task},
                    byCreator := s3.byCreator + multiset{cr.id}, creators := s3.creators - {k});
      tr, evs := [s3, s4], [Announce(k)];
    } else {
      tr, evs := [s3], [];
    }
  }

  /** Create k has got as far as this, and nothing but the tables has changed since s. */
  ghost predicate AtPc(s: State, s': State, k: nat, pc: CreatorPc)
    requires k in s.creators
  {
    s' == s.(db := s'.db, creators := s.creators[k := s.creators[k].(pc := pc)])
  }

  lemma Finds(c: Config, s: State, k: nat) returns (found: Option<nat>, s1: State)
    requires k in s.creators && s.creators[k].pc.Selecting? && FitsColumn(s.creators[k].execTime)
    ensures DoSelect(c, s, s1, k, found) && Step(c, s, s1, Select(k, found)) && s1.db == s.db
    ensures AtPc(s, s1, k, if found.Some? then Landing(found.value) else Inserting)
    ensures found.Some? ==> found.value in s.db.collections
  {
    hide Selectable, FitsColumn;
    var cr := s.creators[k];
    if x :| Selectable(s.db, x, cr.execTime, cr.isTaken, s.me, c.max) {
      found := Some(x);
      s1 := s.(creators := s.creators[k := cr.(pc := Landing(x))]);
      SelectableIsThere(s.db, x, cr, s.me, c.max);
    } else {
      found := None;
      s1 := s.(creators := s.creators[k := cr.(pc := Inserting)]);
    }
  }

  lemma SelectableIsThere(db: Db, x: nat, cr: Creator, me: nat, max: int)
    requires Selectable(db, x, cr.execTime, cr.isTaken, me, max)
    ensures x in db.collections
  {
  }

  lemma Opens(c: Config, s: State, s1: State, k: nat) returns (s2: State)
    requires k in s.creators && AtPc(s, s1, k, Inserting) && s1.db == s.db
    ensures DoInsertCollection(s1, s2, k) && Step(c, s1, s2, InsertCollection(k))
    ensures AtPc(s, s2, k, Landing(s.db.nextId)) && s.db.nextId in s2.db.collections && s2.db.tasks == s.db.tasks
  {
    var cr := s1.creators[k];
    s2 := s1.(db := WithCollection(s1.db, cr.execTime, if cr.isTaken then s1.me else 0),
              creators := s1.creators[k := cr.(pc := Landing(s1.db.nextId))]);
    assert s1.creators[k := s2.creators[k]] == s.creators[k := s2.creators[k]];
  }

  lemma Lands(c: Config, s: State, s2: State, k: nat, x: nat) returns (s3: State)
    requires k in s.creators && AtPc(s, s2, k, Landing(x)) && s.creators[k].id !in s.inserted && x in s2.db.collections
    ensures DoLand(s2, s3, k) && Step(c, s2, s3, Land(k)) && s3.pushed == s.pushed
    ensures var cr := s.creators[k];
            if cr.isTaken then k in s3.creators && s3.creators[k] == cr.(pc := Announcing) else k !in s3.creators
  {
    var cr := s2.creators[k];
    s3 := s2.(db := WithTask(s2.db, cr.id, x), inserted := s2.inserted[cr.id := Insert(x, cr.execTime)],
              joined := if x in s2.claimed && x !in s2.read then s2.joined + {cr.id} else s2.joined,
              creators := if cr.isTaken then s2.creators[k := cr.(pc := Announcing)] else s2.creators - {k});
  }

  /** A create that is about to look for a collection can go through. */
  lemma SelectCanEnd(c: Config, s: State, k: nat) returns (tr: seq<State>, evs: seq<Event>)
    requires Valid(s.db) && k in s.creators && s.creators[k].pc.Selecting? && FitsColumn(s.creators[k].execTime)
    requires s.creators[k].id !in s.inserted && s.creators[k].id !in s.db.tasks
    ensures IsPath(c, tr, evs) && tr[0] == s && forall i :: 0 <= i < |evs| ==> CreatesOn(evs[i], k)
    ensures k !in tr[|evs|].creators && Created(c, s, tr[|evs|], s.creators[k])
  {
    hide CreateTask, Created, FitsColumn, DoSelect, DoInsertCollection, DoLand, Step, IsPath, AtPc, Valid;
    var found, s1 := Finds(c, s, k);
    var s2, x := s1, s.db.nextId;
    if found.Some? {
      x := found.value;
    } else {
      s2 := Opens(c, s, s1, k);
    }
    var s3 := Lands(c, s, s2, k, x);
    UninterruptedCreate(c, s, s1, s2, s3, k, found);
    tr, evs := AnnounceCanEnd(c, s, s3, k, s.creators[k]);
    tr, evs := OneMore(c, s2, Land(k), k, tr, evs);
    if found.None? {
      tr, evs := OneMore(c, s1, InsertCollection(k), k, tr, evs);
    }
    tr, evs := OneMore(c, s, Select(k, found), k, tr, evs);
  }

  lemma OneMore(c: Config, s: State, e: Event, k: nat, tr: seq<State>, evs: seq<Event>)
    returns (tr': seq<State>, evs': seq<Event>)
    requires IsPath(c, tr, evs) && Step(c, s, tr[0], e) && CreatesOn(e, k)
    requires forall i :: 0 <= i < |evs| ==> CreatesOn(evs[i], k)
    ensures IsPath(c, tr', evs') && tr'[0] == s && forall i :: 0 <= i < |evs'| ==> CreatesOn(evs'[i], k)
    ensures tr'[|evs'|] == tr[|evs|]
  {
    hide Step, CreatesOn;
    Prepend(c, s, e, tr, evs);
    tr', evs' := [s] + tr, [e] + evs;
  }

  /**
   Every create can go through: from every state in which a create of a new id has not put its row in yet, its own steps
   can put it in, the way create_task does alone, and push it if it is taken; with the exec time clamped to the
   present if it had not been clamped yet. If it is in the middle of the statements, it can do so by a retry.
   */
  lemma CreateCanGoThrough(c: Config, s: State, k: nat) returns (tr: seq<State>, evs: seq<Event>)
    requires Valid(s.db) && k in s.creators && (s.creators[k].pc.Started? || InStatements(s.creators[k]))
    requires s.creators[k].id !in s.inserted && s.creators[k].id !in s.db.tasks
    requires var cr := s.creators[k];
             FitsColumn(if cr.pc.Started? && cr.execTime < Unix(s.clock) then Unix(s.clock) else cr.execTime)
    ensures IsPath(c, tr, evs) && tr[0] == s && forall i :: 0 <= i < |evs| ==> CreatesOn(evs[i], k)
    ensures var cr := s.creators[k];
            var execTime := if cr.pc.Started? && cr.execTime < Unix(s.clock) then Unix(s.clock) else cr.execTime;
            k !in tr[|evs|].creators && Created(c, s, tr[|evs|], cr.(execTime := execTime))
  {
    hide CreateTask, FitsColumn, Unix;
    var cr, now := s.creators[k], Unix(s.clock);
    var s0, e;
    if cr.pc.Started? {
      e, s0 := Clamp(k), s.(creators := s.creators[k := cr.(execTime := if cr.execTime < now then now else cr.execTime,
                                                            clampedAt := s.clock, pc := Selecting)]);
    } else {
      e, s0 := Retry(k), s.(creators := s.creators[k := cr.(pc := Selecting)]);
    }
    tr, evs := SelectCanEnd(c, s0, k);
    Prepend(c, s, e, tr, evs);
    tr, evs := [s] + tr, [e] + evs;
  }
}
