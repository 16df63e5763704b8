/**
 Creating, claiming and preloading tasks, as one step per SQL statement, per access to the clock and
 per message on the preload channel. Any number of creates, cleanups and preloading workers are under
 way at once. One instance is alive at a time; after a crash the next one has a fresh id.
 */
module Protocol {
  import opened Tasks
  import opened Time
  import opened Database

  /** CoefTimePreloadOfNewTask, TimePreload in nanoseconds, and MaxCountTasksInCollection. */
  datatype Config = Config(coef: int, preload: int, max: int)

  predicate ValidConfig(c: Config) {
    0 < c.preload && 1 <= c.coef && c.coef * c.preload <= MAX_INT64
  }

  datatype CreatorPc =
    | Started                      // isTaken is computed
    | Selecting                    // about to look for a collection
    | Inserting                    // none found, about to insert one
    | Landing(collection: nat)     // about to insert the task row
    | Announcing                   // the row of a taken task is in, about to push it to the channel

  /** One call of AddNewTask. */
  datatype Creator = Creator(id: string, execTime: int, isTaken: bool, startedAt: int, clampedAt: int, pc: CreatorPc)

  datatype Worker = Reading(collection: nat) | Pushing(tasks: seq<Task>)

  datatype Preloader = Idle | Asking(toNext: int) | Distributing | Stopped

  /** Where and with which exec time a task row was inserted. */
  datatype Insert = Insert(collection: nat, execTime: int)

  datatype State = State(
    db: Db,
    clock: int,
    me: nat,                       // id of the live instance; 0 is nobody
    creators: map<nat, Creator>,
    preloader: Preloader,
    pending: seq<nat>,             // Collections.collections
    workers: map<nat, Worker>,     // the workers that hold a collection or tasks
    cleaners: map<nat, set<nat>>,  // cleanups between their SELECT and their DELETE
    chan: seq<Task>,               // the preload channel, with the sends blocked at it
    fatal: bool,                   // a fatal event was raised
    // history of the tables
    inserted: map<string, Insert>,
    deleted: set<string>,
    // history of this instance's life
    pushed: set<Task>,             // tasks sent to the preload channel
    byCreator: multiset<string>,
    byWorker: multiset<string>,
    claimed: set<nat>,             // collections claimed
    read: set<nat>,                // collections read by a worker
    joined: set<string>)           // tasks inserted between the claim of their collection and its read

  datatype Event =
    | Tick
    | Begin(k: nat, task: Task)
    | Clamp(k: nat)
    | Select(k: nat, found: Option<nat>)
    | InsertCollection(k: nat)
    | Land(k: nat)
    | Announce(k: nat)
    | Retry(k: nat)
    | Fail(k: nat)
    | Ask
    | ClaimAll(order: seq<nat>)
    | ClaimFails
    | WorkerTakes(w: nat)
    | WorkerReads(w: nat, tasks: seq<Task>)
    | WorkerFails(w: nat)
    | WorkerPushes(w: nat)
    | RoundEnds
    | DeleteRows(ids: set<string>)
    | CleanSelect(j: nat)
    | CleanDelete(j: nat)
    | CleanFails(j: nat)
    | Receive
    | Crash

  ghost predicate Init(s: State) {
    && s == State(EMPTY, s.clock, 1, map[], Idle, [], map[], map[], [], false,
                  map[], {}, {}, multiset{}, multiset{}, {}, {}, {})
    && SaneClock(s.clock)
  }

  // ---------- Creating ----------

  /** Lines 88 and 89 of AddNewTask. */
  function IsTaken(c: Config, execTime: int, now: int): bool {
    c.preload * c.coef > Until(execTime, now)
  }

  ghost predicate DoTick(s: State, s': State) {
    && s.clock <= s'.clock && SaneClock(s'.clock)
    && s' == s.(clock := s'.clock)
  }

  ghost predicate DoBegin(c: Config, s: State, s': State, k: nat, task: Task) {
    && k !in s.creators
    && s' == s.(creators := s.creators[k := Creator(task.id, task.execTime, IsTaken(c, task.execTime, s.clock),
                                                    s.clock, s.clock, Started)])
  }

  ghost predicate DoClamp(s: State, s': State, k: nat) {
    && k in s.creators && s.creators[k].pc.Started?
    && var cr := s.creators[k];
       var now := Unix(s.clock);
       s' == s.(creators := s.creators[k := cr.(execTime := if cr.execTime < now then now else cr.execTime,
                                                clampedAt := s.clock, pc := Selecting)])
  }

  /** The first statement of create_task; an exec time that does not fit the column is refused. */
  ghost predicate DoSelect(c: Config, s: State, s': State, k: nat, found: Option<nat>) {
    && k in s.creators && s.creators[k].pc.Selecting? && FitsColumn(s.creators[k].execTime)
    && var cr := s.creators[k];
       && (if found.Some? then Selectable(s.db, found.value, cr.execTime, cr.isTaken, s.me, c.max)
           else NoneSelectable(s.db, cr.execTime, cr.isTaken, s.me, c.max))
       && s' == s.(creators := s.creators[k := cr.(pc := if found.Some? then Landing(found.value) else Inserting)])
  }

  ghost predicate DoInsertCollection(s: State, s': State, k: nat) {
    && k in s.creators && s.creators[k].pc.Inserting?
    && var cr := s.creators[k];
       s' == s.(db := WithCollection(s.db, cr.execTime, if cr.isTaken then s.me else 0),
                creators := s.creators[k := cr.(pc := Landing(s.db.nextId))])
  }

  /** The insert succeeds if the uuid is new and the foreign key holds. Uuids are not used again. */
  ghost predicate DoLand(s: State, s': State, k: nat) {
    && k in s.creators && s.creators[k].pc.Landing?
    && var cr := s.creators[k];
       var x := cr.pc.collection;
       && cr.id !in s.inserted && x in s.db.collections
       && s' == s.(db := WithTask(s.db, cr.id, x),
                   inserted := s.inserted[cr.id := Insert(x, cr.execTime)],
                   joined := if x in s.claimed && x !in s.read then s.joined + {cr.id} else s.joined,
                   creators := if cr.isTaken then s.creators[k := cr.(pc := Announcing)] else s.creators - {k})
  }

  ghost predicate DoAnnounce(s: State, s': State, k: nat) {
    && k in s.creators && s.creators[k].pc.Announcing?
    && var cr := s.creators[k];
       var task := Task(cr.id, cr.execTime);
       s' == s.(chan := s.chan + [task], pushed := s.pushed + {task},
                byCreator := s.byCreator + multiset{cr.id}, creators := s.creators - {k})
  }

  ghost predicate InStatements(cr: Creator) {
    cr.pc.Selecting? || cr.pc.Inserting? || cr.pc.Landing?
  }

  /** A deadlock: the procedure is called once more. */
  ghost predicate DoRetry(s: State, s': State, k: nat) {
    && k in s.creators && InStatements(s.creators[k])
    && s' == s.(creators := s.creators[k := s.creators[k].(pc := Selecting)])
  }

  /** Any other error, or the last deadlock. */
  ghost predicate DoFail(s: State, s': State, k: nat) {
    && k in s.creators && !s.creators[k].pc.Announcing?
    && s' == s.(creators := s.creators - {k})
  }

  // ---------- Claiming and preloading ----------

  ghost predicate DoAsk(c: Config, s: State, s': State) {
    && (s.preloader.Idle? || s.preloader.Asking?)
    && s' == s.(preloader := Asking(Unix(s.clock + c.preload)))
  }

  /** The transaction of FindBySecToExecTime; the ids come in the order of their exec times. */
  ghost predicate DoClaimAll(s: State, s': State, order: seq<nat>) {
    && s.preloader.Asking?
    && var ids := Claimable(s.db, s.preloader.toNext, s.me);
       && IsOrdered(s.db, ids, order)
       && s' == s.(db := Claim(s.db, ids, s.me), claimed := s.claimed + ids, pending := order,
                   preloader := if order == [] then Idle else Distributing)
  }

  ghost predicate DoClaimFails(s: State, s': State) {
    && s.preloader.Asking?
    && s' == s.(preloader := Stopped, fatal := true)
  }

  ghost predicate DoWorkerTakes(s: State, s': State, w: nat) {
    && s.preloader.Distributing? && w !in s.workers && s.pending != []
    && s' == s.(workers := s.workers[w := Reading(s.pending[0])], pending := s.pending[1..])
  }

  /** getTasksByCollection returns the rows of the collection, joined with its exec time. */
  ghost predicate DoWorkerReads(s: State, s': State, w: nat, tasks: seq<Task>) {
    && w in s.workers && s.workers[w].Reading?
    && var x := s.workers[w].collection;
       && IsRead(s.db, x, tasks)
       && s' == s.(workers := if tasks == [] then s.workers - {w} else s.workers[w := Pushing(tasks)],
                   read := s.read + {x})
  }

  ghost predicate DoWorkerFails(s: State, s': State, w: nat) {
    && w in s.workers && s.workers[w].Reading?
    && s' == s.(workers := s.workers - {w}, fatal := true)
  }

  ghost predicate DoWorkerPushes(s: State, s': State, w: nat) {
    && w in s.workers && s.workers[w].Pushing? && s.workers[w].tasks != []
    && var tasks := s.workers[w].tasks;
       s' == s.(chan := s.chan + [tasks[0]], pushed := s.pushed + {tasks[0]},
                byWorker := s.byWorker + multiset{tasks[0].id},
                workers := if |tasks| == 1 then s.workers - {w} else s.workers[w := Pushing(tasks[1..])])
  }

  /** All workers have returned; collections are left over only if all of them have failed. */
  ghost predicate DoRoundEnds(s: State, s': State) {
    && s.preloader.Distributing? && s.workers == map[] && (s.pending == [] || s.fatal)
    && s' == s.(preloader := Idle, pending := [])
  }

  // ---------- Deleting, cleaning, receiving, crashing ----------

  ghost predicate DoDeleteRows(s: State, s': State, ids: set<string>) {
    s' == s.(db := WithoutTasks(s.db, ids), deleted := s.deleted + (ids * s.db.tasks.Keys))
  }

  ghost predicate DoCleanSelect(s: State, s': State, j: nat) {
    && j !in s.cleaners
    && s' == s.(cleaners := s.cleaners[j := Cleanable(s.db, s.clock)])
  }

  /** The foreign key makes the whole DELETE fail if one of the collections has a task by now. */
  ghost predicate DoCleanDelete(s: State, s': State, j: nat) {
    && j in s.cleaners && (forall id :: id in s.db.tasks ==> s.db.tasks[id] !in s.cleaners[j])
    && s' == s.(db := WithoutCollections(s.db, s.cleaners[j]), cleaners := s.cleaners - {j})
  }

  ghost predicate DoCleanFails(s: State, s': State, j: nat) {
    && j in s.cleaners
    && s' == s.(cleaners := s.cleaners - {j})
  }

  /** The waiting service receives from the channel. */
  ghost predicate DoReceive(s: State, s': State) {
    && s.chan != []
    && s' == s.(chan := s.chan[1..])
  }

  /** The process ends with everything it had under way; the next one has an id nobody has used. */
  ghost predicate DoCrash(s: State, s': State) {
    s' == State(s.db, s.clock, s.me + 1, map[], Idle, [], map[], map[], [], false, s.inserted, s.deleted,
                {}, multiset{}, multiset{}, {}, {}, {})
  }

  ghost predicate Step(c: Config, s: State, s': State, e: Event) {
    match e
    case Tick => DoTick(s, s')
    case Begin(k, task) => DoBegin(c, s, s', k, task)
    case Clamp(k) => DoClamp(s, s', k)
    case Select(k, found) => DoSelect(c, s, s', k, found)
    case InsertCollection(k) => DoInsertCollection(s, s', k)
    case Land(k) => DoLand(s, s', k)
    case Announce(k) => DoAnnounce(s, s', k)
    case Retry(k) => DoRetry(s, s', k)
    case Fail(k) => DoFail(s, s', k)
    case Ask => DoAsk(c, s, s')
    case ClaimAll(order) => DoClaimAll(s, s', order)
    case ClaimFails => DoClaimFails(s, s')
    case WorkerTakes(w) => DoWorkerTakes(s, s', w)
    case WorkerReads(w, tasks) => DoWorkerReads(s, s', w, tasks)
    case WorkerFails(w) => DoWorkerFails(s, s', w)
    case WorkerPushes(w) => DoWorkerPushes(s, s', w)
    case RoundEnds => DoRoundEnds(s, s')
    case DeleteRows(ids) => DoDeleteRows(s, s', ids)
    case CleanSelect(j) => DoCleanSelect(s, s', j)
    case CleanDelete(j) => DoCleanDelete(s, s', j)
    case CleanFails(j) => DoCleanFails(s, s', j)
    case Receive => DoReceive(s, s')
    case Crash => DoCrash(s, s')
  }

  /** The first instance with a single create under way and nothing else. */
  function Alone(cr: Creator, clock: int, pc: CreatorPc, db: Db): State {
    State(db, clock, 1, map[0 := cr.(pc := pc)], Idle, [], map[], map[], [], false,
          map[], {}, {}, multiset{}, multiset{}, {}, {}, {})
  }

  ghost predicate IsRun(c: Config, tr: seq<State>, evs: seq<Event>) {
    && |tr| == |evs| + 1 && Init(tr[0])
    && forall i :: 0 <= i < |evs| ==> Step(c, tr[i], tr[i + 1], evs[i])
  }
}
