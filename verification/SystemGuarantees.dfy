/**
 Two guarantees of the whole service: no task reaches its consumers early, and no row disappears before
 its task was cancelled or confirmed.
 */
module SystemGuarantees {
  import opened Tasks
  import opened Time
  import opened Database
  import opened System
  import Protocol
  import ProtocolTimes
  import Waiting
  import Sender

  /** What has left the waiting loop is due, and the sender service holds nothing else. */
  ghost predicate ReleasedInv(s: State) {
    && (forall t :: t in s.ready || t in s.snd.taken ==> Instant(t.execTime) <= s.p.clock)
    && Sender.HoldersKnown(s.snd) && Sender.PathsKnown(s.snd)
  }

  /** The clock starts in 1970. */
  ghost predicate LoopInv(w: Waiting.State) {
    && Waiting.Inv(w) && Waiting.Conserved(w) && Waiting.DueInv(w) && Waiting.IdleInv(w, 0)
    && Waiting.PromptInv(w) && Waiting.HoldsInv(w) && forall t :: t in w.received ==> FitsColumn(t.execTime)
  }

  ghost predicate DueInv(s: State) {
    ProtocolTimes.Inv(s.p) && LoopInv(s.w) && ReleasedInv(s)
  }

  lemma LoopKeepsInv(limit: nat, w: Waiting.State, w': Waiting.State, e: Waiting.Event)
    requires LoopInv(w) && Waiting.Step(limit, w, w', e) && SaneClock(w'.clock)
    requires forall t :: t in Waiting.In(e) ==> FitsColumn(t.execTime)
    ensures LoopInv(w')
    ensures forall t :: t in Waiting.Out(w, e) ==> Instant(t.execTime) <= w'.clock
  {
    hide Waiting.Inv, Waiting.Conserved, Waiting.Memory, Waiting.Drops, Waiting.DoTake, Waiting.DoPreload,
         Waiting.DoPreloadMore, Waiting.DoCancel, Waiting.DoCancelMore, Waiting.DoTimer;
    Waiting.StepKeepsBalance(limit, w, w', e);
    Waiting.StepKeepsDueInv(limit, w, w', e);
    Waiting.StepKeepsIdleInv(limit, w, w', e, 0);
    LoopStaysPrompt(limit, w, w', e);
  }

  lemma LoopStaysPrompt(limit: nat, w: Waiting.State, w': Waiting.State, e: Waiting.Event)
    requires Waiting.Conserved(w) && Waiting.PromptInv(w) && Waiting.Step(limit, w, w', e) && SaneClock(w'.clock)
    requires forall t :: t in w.received ==> FitsColumn(t.execTime)
    requires forall t :: t in Waiting.In(e) ==> FitsColumn(t.execTime)
    ensures Waiting.PromptInv(w') && Waiting.HoldsInv(w') && forall t :: t in w'.received ==> FitsColumn(t.execTime)
  {
    hide Waiting.Step, Waiting.Conserved, Waiting.PromptInv, FitsColumn, SaneClock, Ancient, Waiting.In;
    Waiting.ReceivedIsBooked(limit, w, w', e);
    Waiting.StepKeepsHolds(limit, w, w', e);
    if e.Take? && e.taken.Some? {
      Waiting.ColumnsAreNotAncient(limit, w, w', e);
    }
    Waiting.StepKeepsPromptInv(limit, w, w', e);
  }

  /** The loop takes from the channel and releases only what is due. */
  lemma WaitKeepsDue(c: Config, s: State, s': State, e: Waiting.Event)
    requires DueInv(s) && DoWait(c, s, s', e)
    ensures DueInv(s')
  {
    hide Waiting.Step, LoopInv, Sender.HoldersKnown, Sender.PathsKnown, FitsColumn, SaneClock, ProtocolTimes.Inv,
         Protocol.DoReceive;
    ReceiveKeepsTimes(s.p, s'.p);
    LoopKeepsInv(c.greedy, s.w, s'.w, e);
    assert multiset(s'.ready) == multiset(s.ready) + Waiting.Out(s.w, e);
  }

  lemma ReceiveKeepsTimes(p: Protocol.State, p': Protocol.State)
    requires ProtocolTimes.Inv(p) && (p' == p || Protocol.DoReceive(p, p'))
    ensures ProtocolTimes.Inv(p') && SaneClock(p'.clock) && p'.clock == p.clock
    ensures p.chan != [] ==> FitsColumn(p.chan[0].execTime)
  {
    hide FitsColumn, SaneClock, Valid;
  }

  lemma SendKeepsDue(c: Config, s: State, s': State, e: Sender.Event)
    requires DueInv(s) && DoSend(c, s, s', e)
    ensures DueInv(s')
  {
    hide Sender.Step, LoopInv, Sender.HoldersKnown, Sender.PathsKnown, DoSend, ProtocolTimes.Inv, Sender.In, Sender.Out;
    SendKeepsTimes(c, s, s', e);
    SendTakesReady(c, s, s', e);
    Sender.StepKeepsHoldersKnown(c.batch, s.snd, s'.snd, e);
    Sender.StepKeepsPathsKnown(c.batch, s.snd, s'.snd, e);
  }

  lemma SendTakesReady(c: Config, s: State, s': State, e: Sender.Event)
    requires DoSend(c, s, s', e)
    ensures Sender.Step(c.batch, s.snd, s'.snd, e)
    ensures forall t :: t in s'.ready ==> t in s.ready
    ensures forall t :: t in s'.snd.taken ==> t in s.snd.taken || t in s.ready
  {
    hide Sender.Step, Protocol.DoDeleteRows;
    Sender.BooksMove(c.batch, s.snd, s'.snd, e);
  }

  lemma SendKeepsTimes(c: Config, s: State, s': State, e: Sender.Event)
    requires ProtocolTimes.Inv(s.p) && DoSend(c, s, s', e)
    ensures ProtocolTimes.Inv(s'.p) && s'.p.clock == s.p.clock && s'.w == s.w
  {
    hide ProtocolTimes.Inv, Protocol.DoDeleteRows;
    SendTouchesRows(c, s, s', e);
    if e.FinishBatch? {
      ProtocolTimes.DeleteRowsKeepsInv(s.p, s'.p, IdsOf(s.snd.unconfirmed[e.i]));
    }
  }

  lemma ConfirmFailsKeepsDue(c: Config, s: State, s': State, i: nat)
    requires DueInv(s) && DoConfirmFails(c, s, s', i)
    ensures DueInv(s')
  {
    hide Sender.Step, LoopInv, Sender.HoldersKnown, Sender.PathsKnown;
    var e := Sender.FinishBatch(i);
    Sender.BooksMove(c.batch, s.snd, s'.snd, e);
    Sender.StepKeepsHoldersKnown(c.batch, s.snd, s'.snd, e);
    Sender.StepKeepsPathsKnown(c.batch, s.snd, s'.snd, e);
  }

  lemma IdleIsDue(clock: int)
    requires 0 <= clock
    ensures LoopInv(IdleWaiting(clock)) && Sender.HoldersKnown(Sender.INIT) && Sender.PathsKnown(Sender.INIT)
  {
    hide Waiting.Inv, Waiting.Conserved, Sender.HoldersKnown, Sender.PathsKnown;
    IdleIsSound(clock);
    EmptySenderKnowsAll();
  }

  lemma IdleIsSound(clock: int)
    ensures Waiting.Inv(IdleWaiting(clock)) && Waiting.Conserved(IdleWaiting(clock))
  {
  }

  lemma EmptySenderKnowsAll()
    ensures Sender.HoldersKnown(Sender.INIT) && Sender.PathsKnown(Sender.INIT)
  {
  }

  lemma ProtocolKeepsDue(c: Config, s: State, s': State, e: Protocol.Event)
    requires DueInv(s) && DoProtocol(c, s, s', e)
    ensures DueInv(s')
  {
    hide ProtocolTimes.Inv, Protocol.Step, LoopInv, Sender.HoldersKnown, Sender.PathsKnown;
    ProtocolTimes.StepKeepsInv(c.protocol, s.p, s'.p, e);
    ClockRuns(c.protocol, s.p, s'.p, e);
  }

  lemma ClockRuns(c: Protocol.Config, p: Protocol.State, p': Protocol.State, e: Protocol.Event)
    requires Protocol.Step(c, p, p', e)
    ensures p.clock <= p'.clock
  {
  }

  lemma StepKeepsDue(c: Config, s: State, s': State, e: Event)
    requires DueInv(s) && Step(c, s, s', e)
    ensures DueInv(s')
  {
    hide DoProtocol, DoWait, DoSend, DoConfirmFails, LoopInv, Sender.HoldersKnown, Sender.PathsKnown, IdleWaiting;
    match e
    case Store(p) => ProtocolKeepsDue(c, s, s', p);
    case Wait(w) => WaitKeepsDue(c, s, s', w);
    case Send(x) => SendKeepsDue(c, s, s', x);
    case ConfirmFails(i) => ConfirmFailsKeepsDue(c, s, s', i);
    case CancelRow(id) => ProtocolTimes.DeleteRowsKeepsInv(s.p, s'.p, {id});
    case CancelSend(_) =>
    case Crash => IdleIsDue(s.p.clock);
  }

  lemma {:induction false} RunDue(c: Config, tr: seq<State>, evs: seq<Event>, i: nat)
    requires IsRun(c, tr, evs) && i < |tr|
    ensures DueInv(tr[i])
  {
    hide Step, DueInv;
    if i > 0 {
      RunDue(c, tr, evs, i - 1);
      StepKeepsDue(c, tr[i - 1], tr[i], evs[i - 1]);
    } else {
      InitDue(tr[0]);
    }
  }

  lemma InitDue(s: State)
    requires Init(s)
    ensures DueInv(s)
  {
    hide LoopInv, Sender.HoldersKnown, Sender.PathsKnown, IdleWaiting;
    IdleIsDue(s.p.clock);
  }

  /**
   Nothing early, end to end: in every run of the service, with any crashes, everything that is past the
   waiting loop, in the ready channel, with a consumer, on its way back or on its way to confirmation, is
   due; and the loop never crashes on a missing task. Creates may be for any exec time, and consumers may
   call Confirm and Rollback as often as they like: what the column of the table cannot hold never gets
   into memory, and the sender service makes up no task.
   */
  lemma NothingEarly(c: Config, tr: seq<State>, evs: seq<Event>, i: nat, t: Task)
    requires IsRun(c, tr, evs) && i < |tr|
    ensures t in multiset(tr[i].ready) + Sender.InFlight(tr[i].snd) ==> Instant(t.execTime) <= tr[i].p.clock
    ensures !tr[i].w.pc.Crashed?
  {
    hide Sender.InFlight, Sender.HoldersKnown, Sender.PathsKnown, Step;
    RunDue(c, tr, evs, i);
    if t in Sender.InFlight(tr[i].snd) {
      Sender.InFlightIsKnown(tr[i].snd, t);
    }
  }

  /**
   Nothing late, end to end: in every run of the service, whenever the loop sleeps, it sleeps no longer than into
   the exec second of any task in its memory.
   */
  lemma NothingLate(c: Config, tr: seq<State>, evs: seq<Event>, i: nat, t: Task)
    requires IsRun(c, tr, evs) && i < |tr|
    requires tr[i].w.pc.Blocked? && t in Waiting.Memory(tr[i].w)
    ensures tr[i].w.pc.wake < Instant(t.execTime) + SECOND
  {
    hide Step, ReleasedInv, ProtocolTimes.Inv, Waiting.Conserved, FitsColumn;
    RunDue(c, tr, evs, i);
  }

  // ---------- Rows leave the table only by a decision ----------

  ghost predicate ApprovedInv(s: State) {
    Sender.CallsApproved(s.snd) && Sender.PathApproved(s.snd)
  }

  lemma StepKeepsApprovedInv(c: Config, s: State, s': State, e: Event)
    requires ApprovedInv(s) && Step(c, s, s', e)
    ensures ApprovedInv(s')
  {
    hide Sender.Step, Sender.CallsApproved, Sender.PathApproved, DoProtocol, DoWait;
    match e
    case Send(x) =>
      Sender.StepKeepsCallsApproved(c.batch, s.snd, s'.snd, x);
      Sender.StepKeepsPathApproved(c.batch, s.snd, s'.snd, x);
    case ConfirmFails(i) =>
      Sender.StepKeepsCallsApproved(c.batch, s.snd, s'.snd, Sender.FinishBatch(i));
      Sender.StepKeepsPathApproved(c.batch, s.snd, s'.snd, Sender.FinishBatch(i));
    case Crash => NothingApprovedYet();
    case Store(p) => OthersKeepSender(c, s, s', e);
    case Wait(w) => OthersKeepSender(c, s, s', e);
    case CancelRow(_) =>
    case CancelSend(_) =>
  }

  lemma OthersKeepSender(c: Config, s: State, s': State, e: Event)
    requires Step(c, s, s', e) && (e.Store? || e.Wait?)
    ensures s'.snd == s.snd
  {
  }

  lemma NothingApprovedYet()
    ensures Sender.CallsApproved(Sender.INIT) && Sender.PathApproved(Sender.INIT)
  {
  }

  lemma {:induction false} RunApproved(c: Config, tr: seq<State>, evs: seq<Event>, i: nat)
    requires IsRun(c, tr, evs) && i < |tr|
    ensures ApprovedInv(tr[i])
  {
    hide Step, Sender.CallsApproved, Sender.PathApproved;
    if i > 0 {
      RunApproved(c, tr, evs, i - 1);
      StepKeepsApprovedInv(c, tr[i - 1], tr[i], evs[i - 1]);
    } else {
      NothingApprovedYet();
    }
  }

  lemma OnlyTheseDelete(c: Config, s: State, s': State, e: Event, id: string)
    requires Step(c, s, s', e) && id in s.p.db.tasks && id !in s'.p.db.tasks
    ensures || e == CancelRow(id)
            || (e.Send? && e.s.FinishBatch? && e.s.i < |s.snd.unconfirmed| && id in IdsOf(s.snd.unconfirmed[e.s.i]))
  {
    hide DoProtocol, DoWait, DoSend;
    match e
    case Store(p) => ProtocolKeepsRows(c, s, s', p, id);
    case Wait(w) => WaitKeepsRows(c, s, s', w);
    case Send(x) => SendDeletes(c, s, s', x, id);
    case _ =>
  }

  lemma ProtocolKeepsRows(c: Config, s: State, s': State, e: Protocol.Event, id: string)
    requires DoProtocol(c, s, s', e) && id in s.p.db.tasks
    ensures id in s'.p.db.tasks
  {
  }

  lemma WaitKeepsRows(c: Config, s: State, s': State, e: Waiting.Event)
    requires DoWait(c, s, s', e)
    ensures s'.p.db == s.p.db
  {
    hide Waiting.Step;
  }

  lemma SendDeletes(c: Config, s: State, s': State, e: Sender.Event, id: string)
    requires DoSend(c, s, s', e) && id in s.p.db.tasks && id !in s'.p.db.tasks
    ensures e.FinishBatch? && e.i < |s.snd.unconfirmed| && id in IdsOf(s.snd.unconfirmed[e.i])
  {
    hide Sender.Step;
    if e.FinishBatch? {
      FinishedIndex(c, s, s', e.i);
    }
  }

  /**
   Durability: whenever a row leaves the task table in a run of the service, with any crashes, somebody
   asked for it to be cancelled, or some consumer had confirmed a task of that id. Consumers may call
   Confirm and Rollback as often as they like.
   */
  lemma RowsLeaveByDecision(c: Config, tr: seq<State>, evs: seq<Event>, i: nat, id: string)
    requires IsRun(c, tr, evs) && i < |evs|
    requires id in tr[i].p.db.tasks && id !in tr[i + 1].p.db.tasks
    ensures evs[i] == CancelRow(id) || exists t: Task :: t.id == id && Sender.Approved(tr[i].snd, t)
  {
    hide Step, Sender.Step, Sender.PathApproved, Sender.Approved;
    RunApproved(c, tr, evs, i);
    OnlyTheseDelete(c, tr[i], tr[i + 1], evs[i], id);
    if evs[i] != CancelRow(id) {
      var e := evs[i];
      var batch := tr[i].snd.unconfirmed[e.s.i];
      var t :| t in batch && t.id == id;
      SendStepOf(c, tr[i], tr[i + 1], e.s);
      Sender.FinishedIsApproved(c.batch, tr[i].snd, tr[i + 1].snd, e.s.i, t);
    }
  }

  lemma SendStepOf(c: Config, s: State, s': State, e: Sender.Event)
    requires Step(c, s, s', Send(e))
    ensures Sender.Step(c.batch, s.snd, s'.snd, e)
  {
  }
}
