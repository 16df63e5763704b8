/**
 The whole service: the tables with the preloading protocol, the waiting loop, and the sender service,
 connected by their channels. The main theorem says that no stored row is stranded.
 */
module System {
  import opened Tasks
  import opened Time
  import Protocol
  import ProtocolSafety
  import ProtocolDuplication
  import Waiting
  import TaskLists
  import Sender

  /** The options of the protocol, GreedyProcessingLimit, and BatchMaxItems. */
  datatype Config = Config(protocol: Protocol.Config, greedy: nat, batch: nat)

  datatype State = State(
    p: Protocol.State,
    w: Waiting.State,
    ready: seq<Task>,              // channel tasksReadyToSend
    cancelling: set<string>,       // CancelIfExist: row deleted, cancel not yet sent
    cancels: seq<string>,          // channel canceledTasks
    snd: Sender.State)

  datatype Event =
    | Store(p: Protocol.Event)
    | Wait(w: Waiting.Event)
    | CancelRow(id: string)
    | CancelSend(id: string)
    | Send(s: Sender.Event)
    | ConfirmFails(i: nat)
    | Crash

  function IdleWaiting(clock: int): Waiting.State {
    Waiting.State(TaskLists.EMPTY, None, Waiting.Head, clock, multiset{}, multiset{}, multiset{})
  }

  ghost predicate Init(s: State) {
    Protocol.Init(s.p) && s == State(s.p, IdleWaiting(s.p.clock), [], {}, [], Sender.INIT)
  }

  /** Steps of the protocol that involve neither another component nor the whole process. */
  ghost predicate DoProtocol(c: Config, s: State, s': State, e: Protocol.Event) {
    && !e.Receive? && !e.DeleteRows? && !e.Crash?
    && Protocol.Step(c.protocol, s.p, s'.p, e)
    && s' == s.(p := s'.p)
  }

  /** Steps of the waiting loop, with its ends of the three channels. */
  ghost predicate DoWait(c: Config, s: State, s': State, e: Waiting.Event) {
    && Waiting.Step(c.greedy, s.w, s'.w, e) && s'.w.clock == s.p.clock
    && (if e.Preloaded? || e.PreloadedMore?
        then s.p.chan != [] && e.task == s.p.chan[0] && Protocol.DoReceive(s.p, s'.p)
        else s'.p == s.p)
    && (if e.Cancelled? || e.CancelledMore? then s.cancels != [] && e.id == s.cancels[0] && s'.cancels == s.cancels[1..]
        else s'.cancels == s.cancels)
    && s'.ready == (if e.Send? && s.w.hand.Some? then s.ready + [s.w.hand.value] else s.ready)
    && s' == s.(p := s'.p, w := s'.w, cancels := s'.cancels, ready := s'.ready)
  }

  /** CancelIfExist deletes the row first; only if there was one does it send the cancel. */
  ghost predicate DoCancelRow(s: State, s': State, id: string) {
    && id in s.p.db.tasks
    && Protocol.DoDeleteRows(s.p, s'.p, {id})
    && s' == s.(p := s'.p, cancelling := s.cancelling + {id})
  }

  ghost predicate DoCancelSend(s: State, s': State, id: string) {
    && id in s.cancelling
    && s' == s.(cancelling := s.cancelling - {id}, cancels := s.cancels + [id])
  }

  function IdsOf(batch: seq<Task>): set<string> {
    set t | t in batch :: t.id
  }

  /** Steps of the sender service; a finished batch has had its rows deleted. */
  ghost predicate DoSend(c: Config, s: State, s': State, e: Sender.Event) {
    && Sender.Step(c.batch, s.snd, s'.snd, e)
    && (if e.ReceiveReady? then s.ready != [] && e.task == s.ready[0] && s'.ready == s.ready[1..]
        else s'.ready == s.ready)
    && (if e.FinishBatch? then Protocol.DoDeleteRows(s.p, s'.p, IdsOf(s.snd.unconfirmed[e.i])) else s'.p == s.p)
    && s' == s.(p := s'.p, ready := s'.ready, snd := s'.snd)
  }

  /** The deletion of a batch fails for good: a fatal event is raised and the batch is dropped. */
  ghost predicate DoConfirmFails(c: Config, s: State, s': State, i: nat) {
    && Sender.Step(c.batch, s.snd, s'.snd, Sender.FinishBatch(i))
    && s' == s.(p := s.p.(fatal := true), snd := s'.snd)
  }

  ghost predicate DoCrash(s: State, s': State) {
    && Protocol.DoCrash(s.p, s'.p)
    && s' == State(s'.p, IdleWaiting(s.p.clock), [], {}, [], Sender.INIT)
  }

  ghost predicate Step(c: Config, s: State, s': State, e: Event) {
    match e
    case Store(p) => DoProtocol(c, s, s', p)
    case Wait(w) => DoWait(c, s, s', w)
    case CancelRow(id) => DoCancelRow(s, s', id)
    case CancelSend(id) => DoCancelSend(s, s', id)
    case Send(x) => DoSend(c, s, s', x)
    case ConfirmFails(i) => DoConfirmFails(c, s, s', i)
    case Crash => DoCrash(s, s')
  }

  /** The assumptions: creates are in time, and consumers call each result of Consume at most once. */
  ghost predicate Proper(c: Config, s: State, e: Event) {
    && (e.Store? ==> ProtocolSafety.Timely(c.protocol, s.p, e.p))
    && (e.Send? ==> Sender.Once(s.snd, e.s))
  }

  ghost predicate IsRun(c: Config, tr: seq<State>, evs: seq<Event>) {
    && |tr| == |evs| + 1 && Init(tr[0])
    && forall i :: 0 <= i < |evs| ==> Step(c, tr[i], tr[i + 1], evs[i])
  }

  // ---------- What is in memory ----------

  /** All tasks between the preload channel and the end of their confirmation. */
  function InMemory(s: State): multiset<Task> {
    multiset(s.p.chan) + Waiting.Memory(s.w) + multiset(s.ready) + Sender.InFlight(s.snd)
  }

  /** A pushed task whose row is still stored is in memory. */
  ghost predicate MemoryInv(s: State) {
    && (forall t :: t in s.p.pushed ==> t.id in s.p.inserted)
    && (!s.p.fatal ==> forall t :: t in s.p.pushed && t.id in s.p.db.tasks ==> t in InMemory(s))
  }

  /** Cancels are only about rows that are gone. */
  ghost predicate CancelsInv(s: State) {
    forall id :: id in s.cancels || id in s.cancelling ==> id in s.p.inserted && id !in s.p.db.tasks
  }

  ghost predicate PartsInv(c: Config, s: State) {
    && ProtocolSafety.Inv(c.protocol, s.p)
    && ProtocolDuplication.Inv(s.p)
    && Waiting.Inv(s.w)
    && Sender.Tidy(s.snd)
  }

  ghost predicate Inv(c: Config, s: State) {
    PartsInv(c, s) && MemoryInv(s) && CancelsInv(s)
  }

  // ---------- Steps of the protocol ----------

  /** What other components can notice of a step of the protocol. */
  ghost predicate Visible(p: Protocol.State, p': Protocol.State) {
    && (p.fatal ==> p'.fatal)
    && p.inserted.Keys <= p'.inserted.Keys
    && (forall id :: id in p'.db.tasks && id in p.inserted ==> id in p.db.tasks)
    && ((p'.chan == p.chan && p'.pushed == p.pushed)
        || exists t: Task :: p'.chan == p.chan + [t] && p'.pushed == p.pushed + {t} && t.id in p'.inserted)
  }

  lemma CreatorStepVisible(c: Protocol.Config, p: Protocol.State, p': Protocol.State, e: Protocol.Event)
    requires ProtocolDuplication.RowsInv(p) && ProtocolDuplication.CreatorsInv(p) && Protocol.Step(c, p, p', e)
    requires e.Begin? || e.Clamp? || e.Select? || e.InsertCollection? || e.Land? || e.Announce? || e.Retry? || e.Fail?
    ensures Visible(p, p')
  {
    if e.Announce? {
      var cr := p.creators[e.k];
      assert ProtocolDuplication.CreatorInv(p, cr);
      assert p'.chan == p.chan + [Task(cr.id, cr.execTime)];
    }
  }

  lemma WorkerStepVisible(c: Protocol.Config, p: Protocol.State, p': Protocol.State, w: nat)
    requires ProtocolDuplication.LoadsInv(p) && Protocol.Step(c, p, p', Protocol.WorkerPushes(w))
    ensures Visible(p, p')
  {
    assert ProtocolDuplication.LoadInv(p, p.workers[w].tasks);
    assert p'.chan == p.chan + [p.workers[w].tasks[0]];
  }

  lemma ProtocolStepVisible(c: Protocol.Config, p: Protocol.State, p': Protocol.State, e: Protocol.Event)
    requires ProtocolDuplication.Inv(p) && Protocol.Step(c, p, p', e)
    requires !e.Receive? && !e.Crash?
    ensures Visible(p, p')
  {
    hide Protocol.DoBegin, Protocol.DoClamp, Protocol.DoSelect, Protocol.DoInsertCollection, Protocol.DoLand,
         Protocol.DoAnnounce, Protocol.DoRetry, Protocol.DoFail, Protocol.DoWorkerPushes,
         ProtocolDuplication.RowsInv, ProtocolDuplication.CreatorsInv, ProtocolDuplication.PendingInv,
         ProtocolDuplication.ReadingInv, ProtocolDuplication.LoadsInv, ProtocolDuplication.OnceInv;
    match e
    case Begin(_, _) => CreatorStepVisible(c, p, p', e);
    case Clamp(_) => CreatorStepVisible(c, p, p', e);
    case Select(_, _) => CreatorStepVisible(c, p, p', e);
    case InsertCollection(_) => CreatorStepVisible(c, p, p', e);
    case Land(_) => CreatorStepVisible(c, p, p', e);
    case Announce(_) => CreatorStepVisible(c, p, p', e);
    case Retry(_) => CreatorStepVisible(c, p, p', e);
    case Fail(_) => CreatorStepVisible(c, p, p', e);
    case WorkerPushes(w) => WorkerStepVisible(c, p, p', w);
    case _ =>
  }

  lemma VisibleKeepsMemory(s: State, s': State)
    requires MemoryInv(s) && CancelsInv(s) && Visible(s.p, s'.p) && s' == s.(p := s'.p)
    ensures MemoryInv(s') && CancelsInv(s')
  {
    hide InMemory;
    if s'.p.chan != s.p.chan || s'.p.pushed != s.p.pushed {
      var t: Task :| s'.p.chan == s.p.chan + [t] && s'.p.pushed == s.p.pushed + {t} && t.id in s'.p.inserted;
      MemoryGrows(s, s', [t]);
    } else {
      assert s'.p.chan == s.p.chan + [];
      MemoryGrows(s, s', []);
    }
  }

  lemma MemoryGrows(s: State, s': State, more: seq<Task>)
    requires s' == s.(p := s'.p) && s'.p.chan == s.p.chan + more
    ensures InMemory(s') == InMemory(s) + multiset(more)
  {
    hide Waiting.Memory, Sender.InFlight;
  }

  lemma ProtocolKeepsInv(c: Config, s: State, s': State, e: Protocol.Event)
    requires Inv(c, s) && DoProtocol(c, s, s', e)
    requires ProtocolSafety.Timely(c.protocol, s.p, e)
    ensures Inv(c, s')
  {
    hide Protocol.Step, ProtocolSafety.Inv, ProtocolSafety.Timely, ProtocolDuplication.Inv, Waiting.Inv,
         Sender.Tidy, MemoryInv, CancelsInv, Visible;
    ProtocolSafety.StepKeepsInv(c.protocol, s.p, s'.p, e);
    ProtocolDuplication.StepKeepsInv(c.protocol, s.p, s'.p, e);
    ProtocolStepVisible(c.protocol, s.p, s'.p, e);
    VisibleKeepsMemory(s, s');
  }

  // ---------- Steps of the waiting loop ----------

  lemma WaitKeepsParts(c: Config, s: State, s': State, e: Waiting.Event)
    requires PartsInv(c, s) && DoWait(c, s, s', e)
    ensures PartsInv(c, s')
  {
    hide Waiting.Step, Waiting.Inv, Waiting.Moves, ProtocolSafety.Inv, ProtocolDuplication.Inv, Sender.Tidy,
         Protocol.DoReceive;
    Waiting.StepKeepsInv(c.greedy, s.w, s'.w, e);
    if e.Preloaded? || e.PreloadedMore? {
      ReceiveKeepsParts(c.protocol, s.p, s'.p);
    }
  }

  lemma ReceiveKeepsParts(c: Protocol.Config, p: Protocol.State, p': Protocol.State)
    requires ProtocolSafety.Inv(c, p) && ProtocolDuplication.Inv(p) && Protocol.DoReceive(p, p')
    ensures ProtocolSafety.Inv(c, p') && ProtocolDuplication.Inv(p')
  {
    hide ProtocolSafety.Inv, ProtocolDuplication.Inv;
    ProtocolSafety.ReceiveKeepsInv(c, p, p');
    ProtocolDuplication.StepKeepsInv(c, p, p', Protocol.Receive);
  }

  /** The loop passes tasks from the channel to the ready channel, and drops only cancelled ones. */
  lemma WaitMovesTasks(c: Config, s: State, s': State, e: Waiting.Event)
    requires Waiting.Inv(s.w) && DoWait(c, s, s', e)
    ensures multiset(s.p.chan) + Waiting.Memory(s.w) + multiset(s.ready)
         == multiset(s'.p.chan) + Waiting.Memory(s'.w) + multiset(s'.ready) + Waiting.Drops(s.w, e)
  {
    hide Waiting.Step, Waiting.Inv, Waiting.Memory, Waiting.Drops;
    Waiting.StepKeepsInv(c.greedy, s.w, s'.w, e);
    assert multiset(s.p.chan) == multiset(s'.p.chan) + Waiting.In(e) by {
      if e.Preloaded? || e.PreloadedMore? {
        assert s.p.chan == [s.p.chan[0]] + s.p.chan[1..];
      }
    }
    assert multiset(s'.ready) == multiset(s.ready) + Waiting.Out(s.w, e);
    Through(multiset(s'.p.chan), Waiting.In(e), Waiting.Memory(s.w), Waiting.Memory(s'.w), Waiting.Out(s.w, e),
            Waiting.Drops(s.w, e), multiset(s.ready));
  }

  lemma Through(chan: multiset<Task>, i: multiset<Task>, mem: multiset<Task>, mem': multiset<Task>,
                o: multiset<Task>, drops: multiset<Task>, ready: multiset<Task>)
    requires mem + i == mem' + o + drops
    ensures (chan + i) + mem + ready == chan + mem' + (ready + o) + drops
  {
    assert (chan + i) + mem + ready == chan + (mem + i) + ready;
  }

  lemma DropsAreCancelled(c: Config, s: State, s': State, e: Waiting.Event, t: Task)
    requires Waiting.Inv(s.w) && CancelsInv(s) && DoWait(c, s, s', e) && t in Waiting.Drops(s.w, e)
    ensures t.id !in s.p.db.tasks
  {
    var id := if e.Cancelled? || e.CancelledMore? then e.id else "";
    Waiting.CancelIsExact(c.greedy, s.w, s'.w, e, id);
    assert s.cancels[0] in s.cancels;
  }

  lemma WaitKeepsInv(c: Config, s: State, s': State, e: Waiting.Event)
    requires Inv(c, s) && DoWait(c, s, s', e)
    ensures Inv(c, s')
  {
    hide Waiting.Step, Waiting.Inv, Waiting.Memory, Waiting.Drops, Sender.InFlight, PartsInv;
    assert Waiting.Inv(s.w) by {
      WaitingPart(c, s);
    }
    WaitKeepsParts(c, s, s', e);
    WaitMovesTasks(c, s, s', e);
    forall t | !s'.p.fatal && t in s'.p.pushed && t.id in s'.p.db.tasks
      ensures t in InMemory(s')
    {
      assert t in InMemory(s);
      if t in Waiting.Drops(s.w, e) {
        DropsAreCancelled(c, s, s', e, t);
      }
    }
  }

  lemma WaitingPart(c: Config, s: State)
    requires PartsInv(c, s)
    ensures Waiting.Inv(s.w)
  {
  }

  // ---------- Cancels ----------

  lemma DeleteKeepsParts(c: Config, s: State, s': State, ids: set<string>)
    requires PartsInv(c, s) && Protocol.DoDeleteRows(s.p, s'.p, ids) && s'.w == s.w && Sender.Tidy(s'.snd)
    ensures PartsInv(c, s')
  {
    hide ProtocolSafety.Inv, ProtocolDuplication.Inv, Waiting.Inv, Sender.Tidy, Protocol.DoDeleteRows;
    ProtocolSafety.DeleteRowsKeepsInv(c.protocol, s.p, s'.p, ids);
    ProtocolDuplication.StepKeepsInv(c.protocol, s.p, s'.p, Protocol.DeleteRows(ids));
  }

  lemma CancelRowKeepsInv(c: Config, s: State, s': State, id: string)
    requires Inv(c, s) && DoCancelRow(s, s', id)
    ensures Inv(c, s')
  {
    hide PartsInv, Waiting.Memory, Sender.InFlight;
    DeletableIsInserted(c, s, id);
    HandlesPart(c, s);
    DeleteKeepsParts(c, s, s', {id});
  }

  lemma HandlesPart(c: Config, s: State)
    requires PartsInv(c, s)
    ensures Sender.Tidy(s.snd)
  {
  }

  lemma DeletableIsInserted(c: Config, s: State, id: string)
    requires PartsInv(c, s) && id in s.p.db.tasks
    ensures id in s.p.inserted
  {
  }

  lemma CancelSendKeepsInv(c: Config, s: State, s': State, id: string)
    requires Inv(c, s) && DoCancelSend(s, s', id)
    ensures Inv(c, s')
  {
    hide ProtocolSafety.Inv, ProtocolDuplication.Inv, Waiting.Inv, Sender.Tidy, Waiting.Memory, Sender.InFlight;
  }

  // ---------- Steps of the sender service ----------

  /** The service takes tasks from the ready channel and gives up only those of a finished batch. */
  lemma SendMovesTasks(c: Config, s: State, s': State, e: Sender.Event)
    requires Sender.Tidy(s.snd) && DoSend(c, s, s', e) && Sender.Once(s.snd, e)
    ensures multiset(s.ready) + Sender.InFlight(s.snd)
         == multiset(s'.ready) + Sender.InFlight(s'.snd) + Sender.Out(s.snd, e)
  {
    hide Sender.Step, Sender.Tidy, Sender.Once, Sender.InFlight, Sender.Out;
    Sender.StepMoves(c.batch, s.snd, s'.snd, e);
    assert multiset(s.ready) == multiset(s'.ready) + Sender.In(e) by {
      if e.ReceiveReady? {
        assert s.ready == [s.ready[0]] + s.ready[1..];
      }
    }
    HandedOver(multiset(s'.ready), Sender.In(e), Sender.InFlight(s.snd), Sender.InFlight(s'.snd), Sender.Out(s.snd, e));
  }

  lemma HandedOver(ready: multiset<Task>, i: multiset<Task>, flight: multiset<Task>, flight': multiset<Task>,
                   o: multiset<Task>)
    requires flight + i == flight' + o
    ensures (ready + i) + flight == ready + flight' + o
  {
    assert (ready + i) + flight == ready + (flight + i);
  }

  /** The rows of the tasks that the service gives up are gone. */
  lemma OutIsDeleted(c: Config, s: State, s': State, e: Sender.Event, t: Task)
    requires DoSend(c, s, s', e) && t in Sender.Out(s.snd, e)
    ensures t.id !in s'.p.db.tasks
  {
    assert t.id in IdsOf(s.snd.unconfirmed[e.i]);
  }

  lemma SendKeepsParts(c: Config, s: State, s': State, e: Sender.Event)
    requires PartsInv(c, s) && DoSend(c, s, s', e) && Sender.Once(s.snd, e)
    ensures PartsInv(c, s')
  {
    hide PartsInv, Sender.Tidy, Sender.Once, Protocol.DoDeleteRows;
    HandlesPart(c, s);
    Sender.StepKeepsTidy(c.batch, s.snd, s'.snd, e);
    if e.FinishBatch? {
      DeleteKeepsParts(c, s, s', IdsOf(s.snd.unconfirmed[e.i]));
    } else {
      OnlySender(c, s, s');
    }
  }

  /** Rows only disappear, and nothing is pushed. */
  lemma SendTouchesRows(c: Config, s: State, s': State, e: Sender.Event)
    requires DoSend(c, s, s', e)
    ensures s'.p == s.p.(db := s'.p.db, deleted := s'.p.deleted)
    ensures forall id :: id in s'.p.db.tasks ==> id in s.p.db.tasks
    ensures s'.cancels == s.cancels && s'.cancelling == s.cancelling && s'.w == s.w
  {
    hide Sender.Step;
    if e.FinishBatch? {
      FinishedIndex(c, s, s', e.i);
    }
  }

  lemma FinishedIndex(c: Config, s: State, s': State, i: nat)
    requires Sender.Step(c.batch, s.snd, s'.snd, Sender.FinishBatch(i))
    ensures i < |s.snd.unconfirmed|
  {
  }

  lemma SendKeepsInv(c: Config, s: State, s': State, e: Sender.Event)
    requires Inv(c, s) && DoSend(c, s, s', e) && Sender.Once(s.snd, e)
    ensures Inv(c, s')
  {
    hide DoSend, PartsInv, Waiting.Memory, Sender.InFlight, Sender.Out, Sender.Tidy, Sender.Once;
    HandlesPart(c, s);
    SendKeepsParts(c, s, s', e);
    SendMovesTasks(c, s, s', e);
    SendTouchesRows(c, s, s', e);
    forall t | !s'.p.fatal && t in s'.p.pushed && t.id in s'.p.db.tasks
      ensures t in InMemory(s')
    {
      assert t in InMemory(s);
      if t in Sender.Out(s.snd, e) {
        OutIsDeleted(c, s, s', e, t);
      } else {
        StillHeld(multiset(s.p.chan) + Waiting.Memory(s.w), multiset(s.ready), Sender.InFlight(s.snd),
                  multiset(s'.ready), Sender.InFlight(s'.snd), Sender.Out(s.snd, e), t);
      }
    }
  }

  lemma StillHeld(rest: multiset<Task>, ready: multiset<Task>, flight: multiset<Task>,
                  ready': multiset<Task>, flight': multiset<Task>, o: multiset<Task>, t: Task)
    requires ready + flight == ready' + flight' + o
    requires t in rest + ready + flight && t !in o
    ensures t in rest + ready' + flight'
  {
    assert (ready + flight)[t] == (ready' + flight' + o)[t];
  }

  lemma OnlySender(c: Config, s: State, s': State)
    requires PartsInv(c, s) && s'.p == s.p && s'.w == s.w && Sender.Tidy(s'.snd)
    ensures PartsInv(c, s')
  {
  }

  lemma ConfirmFailsKeepsInv(c: Config, s: State, s': State, i: nat)
    requires Inv(c, s) && DoConfirmFails(c, s, s', i)
    ensures Inv(c, s')
  {
    hide Waiting.Inv, Waiting.Memory, Sender.InFlight, Sender.Step, Sender.Tidy, ProtocolSafety.Inv,
         ProtocolDuplication.Inv;
    Sender.StepKeepsTidy(c.batch, s.snd, s'.snd, Sender.FinishBatch(i));
    ProtocolSafety.FatalKeepsInv(c.protocol, s.p, s'.p);
    ProtocolDuplication.FatalKeepsInv(s.p, s'.p);
  }

  // ---------- The main theorem ----------

  /** A new process has an empty memory, and owns no row. */
  lemma CrashKeepsInv(c: Config, s: State, s': State)
    requires Inv(c, s) && DoCrash(s, s')
    ensures Inv(c, s')
  {
    hide ProtocolSafety.Inv, ProtocolDuplication.Inv, Waiting.Memory, Sender.InFlight, InMemory;
    ProtocolSafety.CrashKeepsInv(c.protocol, s.p, s'.p);
    ProtocolDuplication.CrashKeepsInv(s.p, s'.p);
  }

  lemma StepKeepsInv(c: Config, s: State, s': State, e: Event)
    requires Inv(c, s) && Step(c, s, s', e) && Proper(c, s, e)
    ensures Inv(c, s')
  {
    hide Inv, DoProtocol, DoWait, DoCancelRow, DoCancelSend, DoSend, DoConfirmFails, DoCrash, ProtocolSafety.Timely,
         Sender.Once;
    match e
    case Store(p) => ProtocolKeepsInv(c, s, s', p);
    case Wait(w) => WaitKeepsInv(c, s, s', w);
    case CancelRow(id) => CancelRowKeepsInv(c, s, s', id);
    case CancelSend(id) => CancelSendKeepsInv(c, s, s', id);
    case Send(x) => SendKeepsInv(c, s, s', x);
    case ConfirmFails(i) => ConfirmFailsKeepsInv(c, s, s', i);
    case Crash => CrashKeepsInv(c, s, s');
  }

  lemma InitInv(c: Config, s: State)
    requires Init(s)
    ensures Inv(c, s)
  {
    hide Sender.InFlight, Waiting.Memory, Waiting.Inv, Sender.Tidy, ProtocolSafety.Inv, ProtocolDuplication.Inv,
         IdleWaiting;
    InitOfParts(s.p.clock);
    InitOfProtocol(c.protocol, s.p);
  }

  lemma InitOfParts(clock: int)
    ensures Waiting.Inv(IdleWaiting(clock)) && Sender.Tidy(Sender.INIT)
  {
  }

  lemma InitOfProtocol(c: Protocol.Config, p: Protocol.State)
    requires Protocol.Init(p)
    ensures ProtocolSafety.Inv(c, p) && ProtocolDuplication.Inv(p)
  {
    forall w, id
      ensures !ProtocolDuplication.Holds(p, w, id) && !ProtocolDuplication.CreatorSide(p, id)
    {
    }
  }

  lemma {:induction false} RunInv(c: Config, tr: seq<State>, evs: seq<Event>, i: nat)
    requires IsRun(c, tr, evs) && i < |tr|
    requires forall k :: 0 <= k < i ==> Proper(c, tr[k], evs[k])
    ensures Inv(c, tr[i])
  {
    hide Init, Step, Inv, Proper;
    if i > 0 {
      RunInv(c, tr, evs, i - 1);
      StepKeepsInv(c, tr[i - 1], tr[i], evs[i - 1]);
    } else {
      InitInv(c, tr[0]);
    }
  }

  /** The row is in the hands of the live instance, from its claim to its confirmation. */
  ghost predicate InHands(s: State, id: string)
    requires id in s.p.db.tasks && id in s.p.inserted
  {
    || ProtocolSafety.Announced(s.p, id)
    || s.p.db.tasks[id] in s.p.pending
    || ProtocolSafety.BeingRead(s.p, s.p.db.tasks[id])
    || ProtocolSafety.BeingPushed(s.p, ProtocolSafety.RowTask(s.p, id))
    || ProtocolSafety.RowTask(s.p, id) in InMemory(s)
  }

  /**
   No stranded task: in every run, with any crashes and restarts, in which creates that are not taken land in
   time and no result of Consume is called twice, each stored row is in a collection that the live instance
   has not taken, or it is in the instance's hands: its collection is claimed and unread, a worker reads or
   holds it, its creator is about to push it, or it is in the preload channel, in the list or hand of the
   waiting loop, in the ready channel, with a consumer that has not decided, in the rollback buffer, or on
   the confirm path; or a fatal event was raised.
   */
  lemma NoStrandedTask(c: Config, tr: seq<State>, evs: seq<Event>, i: nat, id: string)
    requires IsRun(c, tr, evs) && i < |tr|
    requires forall k :: 0 <= k < i ==> Proper(c, tr[k], evs[k])
    requires id in tr[i].p.db.tasks
    ensures var s := tr[i];
            && s.p.db.tasks[id] in s.p.db.collections && id in s.p.inserted
            && (s.p.db.collections[s.p.db.tasks[id]].takenBy != s.p.me || s.p.fatal || InHands(s, id))
  {
    RunInv(c, tr, evs, i);
    Unfold(c, tr[i], id);
  }

  lemma Unfold(c: Config, s: State, id: string)
    requires Inv(c, s) && id in s.p.db.tasks
    ensures s.p.db.tasks[id] in s.p.db.collections && id in s.p.inserted
    ensures s.p.db.collections[s.p.db.tasks[id]].takenBy != s.p.me || s.p.fatal || InHands(s, id)
  {
    hide Waiting.Inv, Sender.Tidy, ProtocolDuplication.Inv, Waiting.Memory, Sender.InFlight;
    assert ProtocolSafety.Mine(s.p, id) ==> ProtocolSafety.Covered(s.p, id);
  }
}
