/**
 Cancels, end to end. In the whole service every id has one exec time, because uuids are not used again, and at most
 one cancel, because the row is deleted before the cancel is sent. So a cancel always finds its task.
 */
module SystemCancels {
  import opened Tasks
  import opened Time
  import opened Database
  import opened System
  import opened SystemGuarantees
  import Protocol
  import ProtocolTimes
  import Waiting
  import Sender

  /** Whatever was cancelled, or is about to be, has no row and is cancelled once. */
  ghost predicate CancelledOnce(s: State) {
    && (forall i, j :: 0 <= i < j < |s.cancels| ==> s.cancels[i] != s.cancels[j])
    && (forall id :: id in s.cancels || id in s.cancelling ==> id in s.p.inserted && id !in s.p.db.tasks)
    && (forall id :: id in s.cancels ==> id !in s.cancelling)
    && (forall t :: t in s.w.removed ==>
          t.id in s.p.inserted && t.id !in s.p.db.tasks && t.id !in s.cancels && t.id !in s.cancelling)
  }

  /** What the loop has received carries the exec times of the table. */
  ghost predicate ReceivedAgree(s: State) {
    forall t :: t in s.w.received ==> ProtocolTimes.Agrees(s.p, t) && FitsColumn(t.execTime)
  }

  ghost predicate CancelInv(s: State) {
    && DueInv(s) && ProtocolTimes.AgreeInv(s.p)
    && ReceivedAgree(s) && CancelledOnce(s) && Waiting.OrphanInv(s.w)
  }

  lemma AgreeingTimes(s: State)
    requires ReceivedAgree(s)
    ensures Waiting.SameTimes(s.w.received) && forall t :: t in s.w.received ==> FitsColumn(t.execTime)
  {
  }

  /** Steps that touch neither the loop nor the cancels, and revive no row. */
  lemma ElsewhereKeepsCancels(s: State, s': State)
    requires ReceivedAgree(s) && CancelledOnce(s) && Waiting.OrphanInv(s.w)
    requires s'.w == s.w && s'.cancels == s.cancels && s'.cancelling == s.cancelling
    requires forall id :: id in s.p.inserted ==> id in s'.p.inserted && s'.p.inserted[id] == s.p.inserted[id]
    requires forall id :: id in s'.p.db.tasks && id in s.p.inserted ==> id in s.p.db.tasks
    ensures ReceivedAgree(s') && CancelledOnce(s') && Waiting.OrphanInv(s'.w)
  {
    hide Waiting.OrphanInv, FitsColumn;
  }

  lemma StoreKeepsCancels(c: Config, s: State, s': State, e: Protocol.Event)
    requires CancelInv(s) && DoProtocol(c, s, s', e)
    ensures CancelInv(s')
  {
    hide DueInv, ProtocolTimes.AgreeInv, ReceivedAgree, CancelledOnce, Waiting.OrphanInv, Protocol.Step;
    ProtocolKeepsDue(c, s, s', e);
    ProtocolTimes.StepKeepsAgree(c.protocol, s.p, s'.p, e);
    ProtocolTimes.NothingRevives(c.protocol, s.p, s'.p, e);
    ElsewhereKeepsCancels(s, s');
  }

  // ---------- The loop ----------

  lemma WaitKeepsAgree(c: Config, s: State, s': State, e: Waiting.Event)
    requires ProtocolTimes.Inv(s.p) && ProtocolTimes.AgreeInv(s.p) && ReceivedAgree(s) && DoWait(c, s, s', e)
    ensures ProtocolTimes.AgreeInv(s'.p) && ReceivedAgree(s')
  {
    hide Waiting.Step, ProtocolTimes.AgreeInv, FitsColumn, Protocol.DoReceive;
    Waiting.ReceivedIsBooked(c.greedy, s.w, s'.w, e);
    if e.Preloaded? || e.PreloadedMore? {
      FirstAgrees(c.protocol, s.p, s'.p);
    }
  }

  lemma FirstAgrees(c: Protocol.Config, p: Protocol.State, p': Protocol.State)
    requires ProtocolTimes.Inv(p) && ProtocolTimes.AgreeInv(p) && Protocol.DoReceive(p, p')
    ensures ProtocolTimes.AgreeInv(p') && p'.inserted == p.inserted
    ensures ProtocolTimes.Agrees(p, p.chan[0]) && FitsColumn(p.chan[0].execTime)
  {
    hide FitsColumn;
    ProtocolTimes.StepKeepsAgree(c, p, p', Protocol.Receive);
  }

  lemma WaitKeepsOrphans(c: Config, s: State, s': State, e: Waiting.Event)
    requires LoopInv(s.w) && ReceivedAgree(s) && Waiting.OrphanInv(s.w) && DoWait(c, s, s', e) && SaneClock(s.p.clock)
    ensures Waiting.OrphanInv(s'.w)
  {
    hide Waiting.Step, Waiting.Inv, Waiting.Conserved, Waiting.DueInv, Waiting.OrphanInv, Waiting.IdleInv, FitsColumn,
         SaneClock, ReceivedAgree, Waiting.SameTimes;
    AgreeingTimes(s);
    Waiting.StepKeepsOrphanInv(c.greedy, s.w, s'.w, e);
  }

  /** A handled cancel was the first in the channel, and drops only tasks of its id. */
  lemma WaitKeepsCancelledOnce(c: Config, s: State, s': State, e: Waiting.Event)
    requires Waiting.Inv(s.w) && CancelledOnce(s) && DoWait(c, s, s', e)
    ensures CancelledOnce(s')
  {
    hide Waiting.Step, Waiting.Inv, Waiting.Drops, Waiting.Moves;
    Waiting.StepKeepsInv(c.greedy, s.w, s'.w, e);
    RemovedIsBooked(c.greedy, s.w, s'.w, e);
    WaitKeepsTables(c, s, s', e);
    if e.Cancelled? || e.CancelledMore? {
      Waiting.CancelIsExact(c.greedy, s.w, s'.w, e, e.id);
      assert s.cancels[0] in s.cancels;
      assert forall id :: id in s'.cancels ==> id in s.cancels && id != s.cancels[0];
    }
  }

  lemma WaitKeepsTables(c: Config, s: State, s': State, e: Waiting.Event)
    requires DoWait(c, s, s', e)
    ensures s'.p.db == s.p.db && s'.p.inserted == s.p.inserted && s'.cancelling == s.cancelling
  {
    hide Waiting.Step;
  }

  lemma RemovedIsBooked(limit: nat, w: Waiting.State, w': Waiting.State, e: Waiting.Event)
    requires Waiting.Moves(w, w', e)
    ensures !e.Cancelled? && !e.CancelledMore? ==> w'.removed == w.removed
    ensures w'.removed == w.removed + Waiting.Drops(w, e)
  {
    hide Waiting.Memory, Waiting.CancelDrops;
  }

  lemma WaitKeepsCancels(c: Config, s: State, s': State, e: Waiting.Event)
    requires CancelInv(s) && DoWait(c, s, s', e)
    ensures CancelInv(s')
  {
    hide DoWait, LoopInv, ReleasedInv, ProtocolTimes.AgreeInv, ReceivedAgree, CancelledOnce, Waiting.OrphanInv;
    WaitKeepsDue(c, s, s', e);
    WaitKeepsAgree(c, s, s', e);
    WaitKeepsOrphans(c, s, s', e);
    LoopIsSound(s.w);
    WaitKeepsCancelledOnce(c, s, s', e);
  }

  lemma LoopIsSound(w: Waiting.State)
    requires LoopInv(w)
    ensures Waiting.Inv(w)
  {
  }

  // ---------- The other steps ----------

  lemma RowsGoKeepsAgree(s: State, s': State, ids: set<string>)
    requires ProtocolTimes.AgreeInv(s.p) && Protocol.DoDeleteRows(s.p, s'.p, ids)
    ensures ProtocolTimes.AgreeInv(s'.p) && s'.p.inserted == s.p.inserted
    ensures forall id :: id in s'.p.db.tasks <==> id in s.p.db.tasks && id !in ids
  {
    ProtocolTimes.ShrinkingKeepsAgree(s.p, s'.p);
  }

  lemma CancelRowKeepsCancels(c: Config, s: State, s': State, id: string)
    requires CancelInv(s) && DoCancelRow(s, s', id)
    ensures CancelInv(s')
  {
    hide DueInv, Waiting.OrphanInv, FitsColumn, Protocol.DoDeleteRows;
    StepKeepsDue(c, s, s', CancelRow(id));
    RowsGoKeepsAgree(s, s', {id});
  }

  lemma CancelSendKeepsCancels(c: Config, s: State, s': State, id: string)
    requires CancelInv(s) && DoCancelSend(s, s', id)
    ensures CancelInv(s')
  {
    hide DueInv, Waiting.OrphanInv, FitsColumn, ProtocolTimes.AgreeInv;
    StepKeepsDue(c, s, s', CancelSend(id));
  }

  lemma SendKeepsCancels(c: Config, s: State, s': State, e: Sender.Event)
    requires CancelInv(s) && DoSend(c, s, s', e)
    ensures CancelInv(s')
  {
    hide DueInv, Waiting.OrphanInv, ReceivedAgree, CancelledOnce, ProtocolTimes.AgreeInv, Sender.Step,
         Protocol.DoDeleteRows;
    SendKeepsDue(c, s, s', e);
    SendTouchesRows(c, s, s', e);
    if e.FinishBatch? {
      FinishedIndex(c, s, s', e.i);
      RowsGoKeepsAgree(s, s', IdsOf(s.snd.unconfirmed[e.i]));
    }
    ElsewhereKeepsCancels(s, s');
  }

  lemma ConfirmFailsKeepsCancels(c: Config, s: State, s': State, i: nat)
    requires CancelInv(s) && DoConfirmFails(c, s, s', i)
    ensures CancelInv(s')
  {
    hide DueInv, Waiting.OrphanInv, ReceivedAgree, CancelledOnce, Sender.Step;
    ConfirmFailsKeepsDue(c, s, s', i);
    ProtocolTimes.ShrinkingKeepsAgree(s.p, s'.p);
    ElsewhereKeepsCancels(s, s');
  }

  lemma CrashKeepsCancels(c: Config, s: State, s': State)
    requires CancelInv(s) && DoCrash(s, s')
    ensures CancelInv(s')
  {
    hide DueInv;
    StepKeepsDue(c, s, s', Crash);
    ProtocolTimes.StepKeepsAgree(c.protocol, s.p, s'.p, Protocol.Crash);
  }

  lemma StepKeepsCancels(c: Config, s: State, s': State, e: Event)
    requires CancelInv(s) && Step(c, s, s', e)
    ensures CancelInv(s')
  {
    hide CancelInv, DoProtocol, DoWait, DoCancelRow, DoCancelSend, DoSend, DoConfirmFails, DoCrash;
    match e
    case Store(p) => StoreKeepsCancels(c, s, s', p);
    case Wait(w) => WaitKeepsCancels(c, s, s', w);
    case CancelRow(id) => CancelRowKeepsCancels(c, s, s', id);
    case CancelSend(id) => CancelSendKeepsCancels(c, s, s', id);
    case Send(x) => SendKeepsCancels(c, s, s', x);
    case ConfirmFails(i) => ConfirmFailsKeepsCancels(c, s, s', i);
    case Crash => CrashKeepsCancels(c, s, s');
  }

  lemma InitCancels(s: State)
    requires Init(s)
    ensures CancelInv(s)
  {
    hide DueInv;
    InitDue(s);
  }

  lemma {:induction false} RunCancels(c: Config, tr: seq<State>, evs: seq<Event>, i: nat)
    requires IsRun(c, tr, evs) && i < |tr|
    ensures CancelInv(tr[i])
  {
    hide Step, CancelInv, Init;
    if i > 0 {
      RunCancels(c, tr, evs, i - 1);
      StepKeepsCancels(c, tr[i - 1], tr[i], evs[i - 1]);
    } else {
      InitCancels(tr[0]);
    }
  }

  // ---------- The main theorems ----------

  /** The loop handles a cancel of this id. */
  ghost predicate Cancels(e: Event, id: string) {
    e.Wait? && Waiting.IsCancelOf(e.w, id)
  }

  /** The loop reads a task of this id from the preload channel. */
  ghost predicate BringsIn(e: Event, id: string) {
    e.Wait? && Waiting.BringsIn(e.w, id)
  }

  /**
   A cancel always finds its task: whenever the loop handles a cancel in a run of the service, with any crashes,
   exactly one copy of its id leaves the memory of the loop if there is one, and nothing else does.
   */
  lemma CancelFindsItsTask(c: Config, tr: seq<State>, evs: seq<Event>, i: nat, id: string)
    requires IsRun(c, tr, evs) && i < |evs| && Cancels(evs[i], id)
    ensures var s, dropped := tr[i], Waiting.Drops(tr[i].w, evs[i].w);
            && Waiting.Memory(s.w) == Waiting.Memory(tr[i + 1].w) + dropped
            && (forall t :: t in dropped ==> t.id == id)
            && |dropped| == if Waiting.InMemory(s.w, id) then 1 else 0
  {
    hide CancelInv, Step;
    RunCancels(c, tr, evs, i);
    FindsItsTask(c, tr[i], tr[i + 1], evs[i].w, id);
  }

  lemma FindsItsTask(c: Config, s: State, s': State, e: Waiting.Event, id: string)
    requires CancelInv(s) && Step(c, s, s', Wait(e)) && Waiting.IsCancelOf(e, id)
    ensures Waiting.Memory(s.w) == Waiting.Memory(s'.w) + Waiting.Drops(s.w, e)
    ensures forall t :: t in Waiting.Drops(s.w, e) ==> t.id == id
    ensures |Waiting.Drops(s.w, e)| == if Waiting.InMemory(s.w, id) then 1 else 0
  {
    hide Waiting.Step, Waiting.Inv, Waiting.Conserved, Waiting.DueInv, Waiting.IdleInv, Waiting.OrphanInv,
         Waiting.Memory, Waiting.Drops, Waiting.InMemory, Waiting.Findable, ProtocolTimes.Inv,
         ProtocolTimes.AgreeInv, ReceivedAgree, ReleasedInv;
    assert s.cancels[0] in s.cancels;
    Waiting.ListeningFinds(c.greedy, s.w, s'.w, e, id);
    Waiting.CancelIsExact(c.greedy, s.w, s'.w, e, id);
  }

  lemma {:induction false} StaysOut(c: Config, tr: seq<State>, evs: seq<Event>, i: nat, j: nat, id: string)
    requires IsRun(c, tr, evs) && i <= j < |tr|
    requires !Waiting.InMemory(tr[i].w, id) && forall k :: i <= k < j ==> !BringsIn(evs[k], id)
    ensures !Waiting.InMemory(tr[j].w, id)
    decreases j
  {
    hide Step, Waiting.InMemory, CancelInv;
    if i < j {
      StaysOut(c, tr, evs, i, j - 1, id);
      RunCancels(c, tr, evs, j - 1);
      StepLeavesOut(c, tr[j - 1], tr[j], evs[j - 1], id);
    }
  }

  lemma StepLeavesOut(c: Config, s: State, s': State, e: Event, id: string)
    requires CancelInv(s) && Step(c, s, s', e) && !Waiting.InMemory(s.w, id) && !BringsIn(e, id)
    ensures !Waiting.InMemory(s'.w, id)
  {
    hide Waiting.Step, Protocol.Step, Sender.Step, Waiting.Memory, CancelledOnce, ReceivedAgree, ProtocolTimes.AgreeInv,
         ProtocolTimes.Inv, Waiting.OrphanInv, ReleasedInv, Waiting.Inv, Waiting.Conserved, Waiting.DueInv,
         Waiting.IdleInv, Waiting.Drops;
    if e.Wait? {
      Waiting.StepKeepsInv(c.greedy, s.w, s'.w, e.w);
      forall t | t in Waiting.Memory(s'.w)
        ensures t.id != id
      {
        assert t in Waiting.Memory(s.w) + Waiting.In(e.w);
      }
    } else if e.Crash? {
      IdleHoldsNothing(s.p.clock);
    }
  }

  lemma IdleHoldsNothing(clock: int)
    ensures Waiting.Memory(IdleWaiting(clock)) == multiset{}
  {
  }

  /**
   Effective cancel, end to end: once the loop has handled a cancel of an id of which it held a single copy, it
   never sends that id again, in any continuation with any crashes, unless another copy comes in through the preload
   channel. Nothing is assumed about exec times, the timing of creates, or the calls of consumers.
   */
  lemma NotSentAfterCancel(c: Config, tr: seq<State>, evs: seq<Event>, i: nat, j: nat, t: Task)
    requires IsRun(c, tr, evs) && i < j < |evs| && Cancels(evs[i], t.id) && Waiting.SingleCopy(tr[i].w, t)
    requires forall k :: i < k < j ==> !BringsIn(evs[k], t.id)
    ensures !(evs[j].Wait? && evs[j].w.Send? && tr[j].w.hand.Some? && tr[j].w.hand.value.id == t.id)
  {
    hide Step, Waiting.Drops, CancelInv;
    CancelFindsItsTask(c, tr, evs, i, t.id);
    assert t in Waiting.Memory(tr[i].w);
    Waiting.SingleCopyGoes(tr[i].w, tr[i + 1].w, Waiting.Drops(tr[i].w, evs[i].w), t);
    StaysOut(c, tr, evs, i + 1, j, t.id);
    if tr[j].w.hand.Some? {
      assert tr[j].w.hand.value in Waiting.Memory(tr[j].w);
    }
  }

  // ---------- Every cancel is handled ----------

  function HandledBy(e: Event): multiset<string> {
    if e.Wait? && (e.w.Cancelled? || e.w.CancelledMore?) then multiset{e.w.id} else multiset{}
  }

  function AskedAfter(asked: multiset<string>, e: Event): multiset<string> {
    if e.Crash? then multiset{} else if e.CancelRow? then asked + multiset{e.id} else asked
  }

  function HandledAfter(handled: multiset<string>, e: Event): multiset<string> {
    if e.Crash? then multiset{} else handled + HandledBy(e)
  }

  /** The ids whose rows CancelIfExist has deleted since the last crash. */
  function Asked(evs: seq<Event>): multiset<string> {
    if evs == [] then multiset{} else AskedAfter(Asked(evs[..|evs| - 1]), evs[|evs| - 1])
  }

  /** The ids whose cancels the loop has handled since the last crash. */
  function Handled(evs: seq<Event>): multiset<string> {
    if evs == [] then multiset{} else HandledAfter(Handled(evs[..|evs| - 1]), evs[|evs| - 1])
  }

  /** Between the deletion of its row and the loop, a cancel is in a call of CancelIfExist or in the channel. */
  ghost predicate OnTheirWay(s: State, asked: multiset<string>, handled: multiset<string>) {
    asked == multiset(s.cancelling) + multiset(s.cancels) + handled
  }

  ghost predicate AskedOnce(p: Protocol.State, asked: multiset<string>) {
    forall id :: id in asked ==> asked[id] == 1 && id in p.inserted && id !in p.db.tasks
  }

  lemma StepRevivesNothing(c: Config, s: State, s': State, e: Event)
    requires Step(c, s, s', e)
    ensures forall id :: id in s.p.inserted ==> id in s'.p.inserted
    ensures forall id :: id in s'.p.db.tasks && id in s.p.inserted ==> id in s.p.db.tasks
    ensures e.CancelRow? ==> e.id in s.p.db.tasks && e.id !in s'.p.db.tasks
  {
    hide Waiting.Step, Protocol.Step, Sender.Step;
    match e
    case Store(p) => ProtocolTimes.NothingRevives(c.protocol, s.p, s'.p, p);
    case Send(x) => SendTouchesRows(c, s, s', x);
    case _ =>
  }

  /** What a step does to the cancels on their way. */
  lemma StepMovesCancels(c: Config, s: State, s': State, e: Event)
    requires Step(c, s, s', e) && !e.Crash?
    ensures s'.cancelling == match e
                             case CancelRow(id) => s.cancelling + {id}
                             case CancelSend(id) => s.cancelling - {id}
                             case _ => s.cancelling
    ensures e.CancelRow? ==> e.id in s.p.db.tasks
    ensures e.CancelSend? ==> s.cancelling == s'.cancelling + {e.id} && s'.cancels == s.cancels + [e.id]
    ensures e.CancelRow? || e.CancelSend? ==> HandledBy(e) == multiset{}
    ensures !e.CancelSend? ==> multiset(s.cancels) == HandledBy(e) + multiset(s'.cancels)
  {
    hide Waiting.Step, Protocol.Step, Sender.Step, Protocol.DoDeleteRows, Protocol.DoReceive;
    if e.Wait? && (e.w.Cancelled? || e.w.CancelledMore?) {
      assert s.cancels == [s.cancels[0]] + s.cancels[1..];
    }
  }

  lemma StepKeepsOnTheirWay(c: Config, s: State, s': State, e: Event, asked: multiset<string>,
                            handled: multiset<string>)
    requires Step(c, s, s', e) && OnTheirWay(s, asked, handled) && AskedOnce(s.p, asked)
    ensures OnTheirWay(s', AskedAfter(asked, e), HandledAfter(handled, e))
  {
    hide Step, HandledBy, AskedOnce;
    if e.Crash? {
      CrashForgets(c, s, s');
    } else {
      StepMovesCancels(c, s, s', e);
      var a, a', b, b' := multiset(s.cancelling), multiset(s'.cancelling), multiset(s.cancels), multiset(s'.cancels);
      if e.CancelRow? {
        NotAskedBefore(s, e.id, asked);
        JoinsSet(s.cancelling, e.id);
        Balances(a, b, handled, multiset{e.id});
      } else if e.CancelSend? {
        JoinsSet(s'.cancelling, e.id);
        Balances(a', b, handled, multiset{e.id});
      } else {
        Balances(a, b', handled, HandledBy(e));
      }
    }
  }

  lemma Balances(a: multiset<string>, b: multiset<string>, h: multiset<string>, m: multiset<string>)
    ensures a + b + h + m == (a + m) + b + h == a + (b + m) + h == a + (m + b) + h == a + b + (h + m)
  {
  }

  /** A row that is still stored has not been asked about. */
  lemma NotAskedBefore(s: State, id: string, asked: multiset<string>)
    requires AskedOnce(s.p, asked) && id in s.p.db.tasks && multiset(s.cancelling) <= asked
    ensures id !in s.cancelling
  {
    assert id !in asked;
    assert id !in multiset(s.cancelling);
  }

  lemma JoinsSet(ids: set<string>, id: string)
    requires id !in ids
    ensures multiset(ids + {id}) == multiset(ids) + multiset{id}
  {
  }

  lemma StepKeepsAskedOnce(c: Config, s: State, s': State, e: Event, asked: multiset<string>)
    requires CancelInv(s) && Step(c, s, s', e) && AskedOnce(s.p, asked)
    ensures AskedOnce(s'.p, AskedAfter(asked, e))
  {
    hide Step, DueInv, ReceivedAgree, CancelledOnce, Waiting.OrphanInv;
    StepRevivesNothing(c, s, s', e);
  }

  /**
   Every cancel reaches the loop: in every run, with any crashes, the ids whose rows CancelIfExist has deleted since
   the last crash are those of the calls that have not sent yet, those in the channel and those that the loop has
   handled, and each of them is there once.
   */
  lemma {:induction false} CancelsAreKept(c: Config, tr: seq<State>, evs: seq<Event>, i: nat)
    requires IsRun(c, tr, evs) && i < |tr|
    ensures Asked(evs[..i]) == multiset(tr[i].cancelling) + multiset(tr[i].cancels) + Handled(evs[..i])
    ensures forall id :: id in Asked(evs[..i]) ==> Asked(evs[..i])[id] == 1
    ensures AskedOnce(tr[i].p, Asked(evs[..i]))
  {
    hide Step, CancelInv, AskedAfter, HandledAfter, Init;
    if i > 0 {
      var e := evs[i - 1];
      CancelsAreKept(c, tr, evs, i - 1);
      RunCancels(c, tr, evs, i - 1);
      assert evs[..i][..i - 1] == evs[..i - 1];
      StepKeepsOnTheirWay(c, tr[i - 1], tr[i], e, Asked(evs[..i - 1]), Handled(evs[..i - 1]));
      StepKeepsAskedOnce(c, tr[i - 1], tr[i], e, Asked(evs[..i - 1]));
    } else {
      NothingAsked(tr[0]);
    }
  }

  lemma NothingAsked(s: State)
    requires Init(s)
    ensures s.cancelling == {} && s.cancels == []
  {
    hide Protocol.Init;
  }

  lemma CrashForgets(c: Config, s: State, s': State)
    requires Step(c, s, s', Crash)
    ensures s'.cancelling == {} && s'.cancels == []
  {
    hide Protocol.DoCrash;
  }

  /** A handled id was handled by a step after the last crash. */
  lemma {:induction false} WasHandled(evs: seq<Event>, id: string) returns (k: nat)
    requires id in Handled(evs)
    ensures k < |evs| && Cancels(evs[k], id) && forall m :: k <= m < |evs| ==> !evs[m].Crash?
  {
    var last := |evs| - 1;
    if id in HandledBy(evs[last]) {
      k := last;
    } else {
      k := WasHandled(evs[..last], id);
    }
  }

  /** Of each task of this id that is left in memory there is a copy less than before. */
  ghost predicate Fewer(w: Waiting.State, w': Waiting.State, id: string) {
    forall t :: t in Waiting.Memory(w') && t.id == id ==> Waiting.Memory(w')[t] < Waiting.Memory(w)[t]
  }

  lemma HandledTakesOne(c: Config, s: State, s': State, e: Waiting.Event, id: string)
    requires CancelInv(s) && Step(c, s, s', Wait(e)) && Waiting.IsCancelOf(e, id)
    ensures Fewer(s.w, s'.w, id)
  {
    hide Step, Waiting.Memory, Waiting.Drops, DueInv, CancelledOnce, ProtocolTimes.AgreeInv, Waiting.OrphanInv;
    FindsItsTask(c, s, s', e, id);
    HeldWasReceived(s);
    AgreeingTimes(s);
    forall t | t in Waiting.Memory(s'.w) && t.id == id
      ensures Waiting.Memory(s'.w)[t] < Waiting.Memory(s.w)[t]
    {
      assert t in Waiting.Memory(s.w);
      var d :| d in Waiting.Drops(s.w, e);
      assert d in Waiting.Memory(s.w);
    }
  }

  lemma HeldWasReceived(s: State)
    requires DueInv(s)
    ensures forall t :: t in Waiting.Memory(s.w) ==> t in s.w.received
  {
    hide Waiting.Memory, ReleasedInv, ProtocolTimes.Inv;
  }

  lemma StepBringsNoCopy(c: Config, s: State, s': State, e: Event, id: string)
    requires CancelInv(s) && Step(c, s, s', e) && !BringsIn(e, id)
    ensures forall t: Task :: t.id == id ==> Waiting.Memory(s'.w)[t] <= Waiting.Memory(s.w)[t]
  {
    hide Waiting.Step, Protocol.Step, Sender.Step, Waiting.Memory, CancelledOnce, ReceivedAgree, ProtocolTimes.AgreeInv,
         ProtocolTimes.Inv, Waiting.OrphanInv, ReleasedInv, Waiting.Inv, Waiting.Conserved, Waiting.DueInv,
         Waiting.IdleInv, Waiting.Drops;
    if e.Wait? {
      Waiting.StepKeepsInv(c.greedy, s.w, s'.w, e.w);
      forall t: Task | t.id == id
        ensures Waiting.Memory(s'.w)[t] <= Waiting.Memory(s.w)[t]
      {
        assert t !in Waiting.In(e.w);
        assert (Waiting.Memory(s.w) + Waiting.In(e.w))[t] == Waiting.Memory(s.w)[t];
      }
    } else if e.Crash? {
      IdleHoldsNothing(s.p.clock);
    }
  }

  lemma {:induction false} StaysFewer(c: Config, tr: seq<State>, evs: seq<Event>, k: nat, i: nat, id: string)
    requires IsRun(c, tr, evs) && k < i < |tr| && Cancels(evs[k], id)
    requires forall m :: k < m < i ==> !BringsIn(evs[m], id)
    ensures Fewer(tr[k].w, tr[i].w, id)
    decreases i
  {
    hide Step, Waiting.Memory, CancelInv;
    RunCancels(c, tr, evs, i - 1);
    if k == i - 1 {
      HandledTakesOne(c, tr[k], tr[i], evs[k].w, id);
    } else {
      StaysFewer(c, tr, evs, k, i - 1, id);
      StepBringsNoCopy(c, tr[i - 1], tr[i], evs[i - 1], id);
    }
  }

  /**
   Every cancel has its effect: in every run, an id whose row CancelIfExist has deleted since the last crash, and
   that is no longer in a call or in the channel, was handled by the loop; and of each task of that id the loop
   holds fewer copies than it did when it handled the cancel, until the preload channel brings one in. So a task
   that it held once is gone, and only a task that was pushed twice can be left.
   */
  lemma EveryCancelTakesEffect(c: Config, tr: seq<State>, evs: seq<Event>, i: nat, id: string)
    requires IsRun(c, tr, evs) && i < |tr| && id in Asked(evs[..i])
    requires id !in tr[i].cancelling && id !in tr[i].cancels
    ensures exists k :: 0 <= k < i && Cancels(evs[k], id) && (forall m :: k <= m < i ==> !evs[m].Crash?)
                        && ((forall m :: k < m < i ==> !BringsIn(evs[m], id)) ==> Fewer(tr[k].w, tr[i].w, id))
  {
    hide Step, Asked, Handled, Fewer, Cancels, BringsIn;
    CancelsAreKept(c, tr, evs, i);
    var k := WasHandled(evs[..i], id);
    assert forall m :: 0 <= m < i ==> evs[..i][m] == evs[m];
    if forall m :: k < m < i ==> !BringsIn(evs[m], id) {
      StaysFewer(c, tr, evs, k, i, id);
    }
  }
}
