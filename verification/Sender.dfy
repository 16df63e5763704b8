/**
 The sender service: pooled handles that carry a task from Consume to Confirm or Rollback, the
 rollback buffer, the confirm channel, the batching goroutines, and the confirmation workers.
 Any number of calls of Consume, Confirm and Rollback overlap, and a consumer may call Confirm and
 Rollback on a result of Consume at any time and as often as it likes.
 */
module Sender {
  import opened Tasks
  import Batching
  import RollbackBuffer

  /** History: who is entitled to a handle, if every result of Consume is called at most once. */
  datatype Owner = InPool | WithConsume(c: nat) | WithResult(r: nat)

  /** A pooled taskToSend. */
  datatype Handle = Handle(isProcessed: bool, task: Task, owner: Owner)

  /** History: how far the first call on a result has come. */
  datatype Status = Fresh | Deciding(k: nat) | Finished

  /** What a call of Consume has returned: a handle, at a time when it carried this task. */
  datatype Result = Result(handle: nat, task: Task, status: Status)

  /** A call that found the handle unprocessed: before it marks it, before it reads the task, before its send. */
  datatype Pc = Tested | Marked | Sending(task: Task)

  /** A call of Confirm or of Rollback on result r. */
  datatype Call = Call(r: nat, confirm: bool, pc: Pc)

  /** History: a call on result r has decided about a task. */
  datatype Decision = Decision(r: nat, confirm: bool, task: Task)

  datatype State = State(
    handles: seq<Handle>,
    pool: multiset<nat>,               // taskToSendPool
    consumes: map<nat, nat>,           // calls of Consume that wait in their select, and their handles
    results: seq<Result>,
    calls: map<nat, Call>,
    buffer: RollbackBuffer.State,
    toConfirm: seq<Task>,              // channel tasksToConfirm
    batching: Batching.State,
    unconfirmed: seq<seq<Task>>,       // emitted batches that no worker has finished
    decisions: seq<Decision>,
    taken: multiset<Task>,             // all tasks received from the ready channel
    confirmed: multiset<Task>)         // all tasks of batches whose deletion has finished

  datatype Event =
    | Get(c: nat, h: nat)              // Consume takes a handle from the pool, or a new one
    | ReceiveReady(c: nat, task: Task)
    | ReceiveRolledBack(c: nat)
    | Enter(k: nat, r: nat, confirm: bool) // Confirm or Rollback tests isProcessed
    | Mark(k: nat)
    | Read(k: nat)
    | Put(k: nat)                      // the send, and the handle goes to the pool
    | BufferStep(b: RollbackBuffer.Event)
    | ReadConfirm
    | BatchStep(g: Batching.Event)
    | FinishBatch(i: nat)              // a worker is done with a batch

  const INIT := State([], multiset{}, map[], [], map[], RollbackBuffer.EMPTY, [],
                      Batching.State(Batching.Collecting, Batching.Popping, [], [], false, [], []),
                      [], [], multiset{}, multiset{})

  const NEW_HANDLE := Handle(false, Task("", 0), InPool)

  ghost predicate DoGet(s: State, s': State, c: nat, h: nat) {
    && c !in s.consumes && h <= |s.handles|
    && (h < |s.handles| ==> h in s.pool)
    && var pooled := if h < |s.handles| then s.handles[h] else NEW_HANDLE;
       var issued := pooled.(isProcessed := false, owner := WithConsume(c));
       s' == s.(handles := if h < |s.handles| then s.handles[h := issued] else s.handles + [issued],
                pool := s.pool - multiset{h}, consumes := s.consumes[c := h])
  }

  /** The receive of Consume c, from either channel. */
  function Returned(s: State, c: nat, task: Task): State
    requires c in s.consumes && s.consumes[c] < |s.handles|
  {
    var h := s.consumes[c];
    s.(handles := s.handles[h := s.handles[h].(task := task, owner := WithResult(|s.results|))],
       results := s.results + [Result(h, task, Fresh)], consumes := s.consumes - {c})
  }

  ghost predicate DoReceiveReady(s: State, s': State, c: nat, task: Task) {
    && c in s.consumes && s.consumes[c] < |s.handles|
    && s' == Returned(s, c, task).(taken := s.taken + multiset{task})
  }

  ghost predicate DoReceiveRolledBack(s: State, s': State, c: nat) {
    && c in s.consumes && s.consumes[c] < |s.handles|
    && RollbackBuffer.Step(s.buffer, s'.buffer, RollbackBuffer.Get)
    && s' == Returned(s, c, s.buffer.outbox[0]).(buffer := s'.buffer)
  }

  /** The test of isProcessed; a call that fails it returns at once. */
  ghost predicate DoEnter(s: State, s': State, k: nat, r: nat, confirm: bool) {
    && k !in s.calls && r < |s.results| && s.results[r].handle < |s.handles|
    && var result := s.results[r];
       if s.handles[result.handle].isProcessed
       then s' == s.(results := s.results[r := Called(result, Finished)])
       else s' == s.(results := s.results[r := Called(result, Deciding(k))],
                     calls := s.calls[k := Call(r, confirm, Tested)])
  }

  /** A result keeps track of its first call only. */
  function Called(result: Result, status: Status): Result {
    if result.status.Fresh? then result.(status := status) else result
  }

  /** The handle on which call k works. */
  ghost predicate WorksOn(s: State, k: nat, h: nat) {
    k in s.calls && s.calls[k].r < |s.results| && s.results[s.calls[k].r].handle == h < |s.handles|
  }

  ghost predicate DoMark(s: State, s': State, k: nat, h: nat) {
    && WorksOn(s, k, h) && s.calls[k].pc.Tested?
    && s' == s.(handles := s.handles[h := s.handles[h].(isProcessed := true)],
                calls := s.calls[k := s.calls[k].(pc := Marked)])
  }

  ghost predicate DoRead(s: State, s': State, k: nat, h: nat) {
    && WorksOn(s, k, h) && s.calls[k].pc.Marked?
    && var task := s.handles[h].task;
       s' == s.(calls := s.calls[k := s.calls[k].(pc := Sending(task))],
                decisions := s.decisions + [Decision(s.calls[k].r, s.calls[k].confirm, task)])
  }

  /** The state after the send of call k, apart from the channel. */
  function Released(s: State, k: nat, h: nat): State
    requires k in s.calls && s.calls[k].r < |s.results| && h < |s.handles|
  {
    var r := s.calls[k].r;
    s.(handles := s.handles[h := s.handles[h].(owner := InPool)], pool := s.pool + multiset{h},
       results := s.results[r := s.results[r].(status := Finished)], calls := s.calls - {k})
  }

  ghost predicate DoPut(s: State, s': State, k: nat, h: nat) {
    && WorksOn(s, k, h) && s.calls[k].pc.Sending?
    && var task := s.calls[k].pc.task;
       if s.calls[k].confirm then s' == Released(s, k, h).(toConfirm := s.toConfirm + [task])
       else RollbackBuffer.Step(s.buffer, s'.buffer, RollbackBuffer.Put(task))
            && s' == Released(s, k, h).(buffer := s'.buffer)
  }

  ghost predicate DoReadConfirm(max: nat, s: State, s': State) {
    && s.toConfirm != []
    && Batching.Step(max, s.batching, s'.batching, Batching.Read(s.toConfirm[0]))
    && s' == s.(toConfirm := s.toConfirm[1..], batching := s'.batching)
  }

  ghost predicate DoBatchStep(max: nat, s: State, s': State, b: Batching.Event) {
    && !b.Read? && !b.InputClosed?
    && Batching.Step(max, s.batching, s'.batching, b)
    && s' == s.(batching := s'.batching,
                unconfirmed := if b.Emit? then s.unconfirmed + [s.batching.forwarder.batch] else s.unconfirmed)
  }

  ghost predicate DoFinishBatch(s: State, s': State, i: nat) {
    && i < |s.unconfirmed|
    && s' == s.(unconfirmed := s.unconfirmed[..i] + s.unconfirmed[i + 1..],
                confirmed := s.confirmed + multiset(s.unconfirmed[i]))
  }

  function HandleOf(s: State, k: nat): nat {
    if k in s.calls && s.calls[k].r < |s.results| then s.results[s.calls[k].r].handle else 0
  }

  /** One step of the service; max is the option BatchMaxItems. */
  ghost predicate Step(max: nat, s: State, s': State, e: Event) {
    match e
    case Get(c, h) => DoGet(s, s', c, h)
    case ReceiveReady(c, task) => DoReceiveReady(s, s', c, task)
    case ReceiveRolledBack(c) => DoReceiveRolledBack(s, s', c)
    case Enter(k, r, confirm) => DoEnter(s, s', k, r, confirm)
    case Mark(k) => DoMark(s, s', k, HandleOf(s, k))
    case Read(k) => DoRead(s, s', k, HandleOf(s, k))
    case Put(k) => DoPut(s, s', k, HandleOf(s, k))
    case BufferStep(b) =>
      && (b.Accept? || b.Offer?)
      && RollbackBuffer.Step(s.buffer, s'.buffer, b)
      && s' == s.(buffer := s'.buffer)
    case ReadConfirm => DoReadConfirm(max, s, s')
    case BatchStep(b) => DoBatchStep(max, s, s', b)
    case FinishBatch(i) => DoFinishBatch(s, s', i)
  }

  /** States and the events between them, from any start. */
  ghost predicate IsPath(max: nat, tr: seq<State>, evs: seq<Event>) {
    && |tr| == |evs| + 1
    && forall i :: 0 <= i < |evs| ==> Step(max, tr[i], tr[i + 1], evs[i])
  }

  ghost predicate IsRun(max: nat, tr: seq<State>, evs: seq<Event>) {
    IsPath(max, tr, evs) && tr[0] == INIT
  }

  /**
   What a consumer can keep to: it calls Confirm or Rollback on a result of Consume only if it has called
   neither of them on that result before.
   */
  ghost predicate Once(s: State, e: Event) {
    e.Enter? && e.r < |s.results| ==> s.results[e.r].status.Fresh?
  }

  // ---------- Who has a handle ----------

  ghost predicate HandleInv(s: State, h: nat)
    requires h < |s.handles|
  {
    var handle := s.handles[h];
    match handle.owner
    case InPool => s.pool[h] == 1 && handle.isProcessed
    case WithConsume(c) => s.pool[h] == 0 && c in s.consumes && s.consumes[c] == h && !handle.isProcessed
    case WithResult(r) =>
      && s.pool[h] == 0 && r < |s.results| && s.results[r].handle == h && s.results[r].task == handle.task
      && match s.results[r].status
         case Fresh => !handle.isProcessed
         case Deciding(k) => k in s.calls && (handle.isProcessed <==> !s.calls[k].pc.Tested?)
         case Finished => false
  }

  ghost predicate ResultInv(s: State, r: nat)
    requires r < |s.results|
  {
    var result := s.results[r];
    && result.handle < |s.handles|
    && (!result.status.Finished? ==> s.handles[result.handle].owner == WithResult(r))
    && (result.status.Deciding? ==> result.status.k in s.calls && s.calls[result.status.k].r == r)
  }

  ghost predicate CallInv(s: State, k: nat)
    requires k in s.calls
  {
    var call := s.calls[k];
    && call.r < |s.results| && s.results[call.r].status == Deciding(k)
    && (call.pc.Sending? ==> call.pc.task == s.results[call.r].task)
  }

  ghost predicate HandlesInv(s: State) { forall h :: 0 <= h < |s.handles| ==> HandleInv(s, h) }
  ghost predicate ResultsInv(s: State) { forall r :: 0 <= r < |s.results| ==> ResultInv(s, r) }
  ghost predicate CallsInv(s: State) { forall k :: k in s.calls ==> CallInv(s, k) }

  ghost predicate ConsumesInv(s: State) {
    && (forall c :: c in s.consumes ==> s.consumes[c] < |s.handles| && s.handles[s.consumes[c]].owner == WithConsume(c))
    && (forall h :: h in s.pool ==> h < |s.handles|)
  }

  /** Every handle is in the pool, with one waiting Consume, or with one undecided result. */
  ghost predicate Tidy(s: State) {
    HandlesInv(s) && ResultsInv(s) && CallsInv(s) && ConsumesInv(s)
  }

  lemma GetKeepsHandles(s: State, s': State, c: nat, h: nat)
    requires HandlesInv(s) && ConsumesInv(s) && DoGet(s, s', c, h)
    ensures HandlesInv(s')
  {
    if h < |s.handles| {
      assert HandleInv(s, h);
    } else {
      assert h !in s.pool;
    }
    forall g | 0 <= g < |s'.handles|
      ensures HandleInv(s', g)
    {
      assert g < |s.handles| ==> HandleInv(s, g);
    }
  }

  lemma GetKeepsTidy(s: State, s': State, c: nat, h: nat)
    requires Tidy(s) && DoGet(s, s', c, h)
    ensures Tidy(s')
  {
    GetKeepsHandles(s, s', c, h);
    if h < |s.handles| {
      assert HandleInv(s, h);
    }
    forall r | 0 <= r < |s'.results|
      ensures ResultInv(s', r)
    {
      assert ResultInv(s, r);
    }
    forall k | k in s'.calls
      ensures CallInv(s', k)
    {
      assert CallInv(s, k);
    }
  }

  lemma ReturnKeepsTidy(s: State, c: nat, task: Task)
    requires Tidy(s) && c in s.consumes && s.consumes[c] < |s.handles|
    ensures Tidy(Returned(s, c, task))
  {
    var s' := Returned(s, c, task);
    assert HandleInv(s, s.consumes[c]);
    forall g | 0 <= g < |s'.handles|
      ensures HandleInv(s', g)
    {
      assert HandleInv(s, g);
    }
    forall r | 0 <= r < |s'.results|
      ensures ResultInv(s', r)
    {
      assert r < |s.results| ==> ResultInv(s, r);
    }
    forall k | k in s'.calls
      ensures CallInv(s', k)
    {
      assert CallInv(s, k);
    }
  }

  /** Tidiness does not look at the channels and the books. */
  lemma SameHoldersTidy(s: State, s': State)
    requires Tidy(s) && s'.handles == s.handles && s'.pool == s.pool && s'.consumes == s.consumes
    requires s'.results == s.results && s'.calls == s.calls
    ensures Tidy(s')
  {
    forall h | 0 <= h < |s'.handles|
      ensures HandleInv(s', h)
    {
      assert HandleInv(s, h);
    }
    forall r | 0 <= r < |s'.results|
      ensures ResultInv(s', r)
    {
      assert ResultInv(s, r);
    }
    forall k | k in s'.calls
      ensures CallInv(s', k)
    {
      assert CallInv(s, k);
    }
  }

  lemma ReceiveRolledBackKeepsTidy(s: State, s': State, c: nat)
    requires Tidy(s) && DoReceiveRolledBack(s, s', c)
    ensures Tidy(s')
  {
    hide Tidy;
    ReturnKeepsTidy(s, c, s.buffer.outbox[0]);
    SameHoldersTidy(Returned(s, c, s.buffer.outbox[0]), s');
  }

  /** The first call on a result always gets through. */
  lemma EnterKeepsTidy(s: State, s': State, k: nat, r: nat, confirm: bool)
    requires Tidy(s) && DoEnter(s, s', k, r, confirm) && s.results[r].status.Fresh?
    ensures Tidy(s') && !s.handles[s.results[r].handle].isProcessed
  {
    assert ResultInv(s, r) && HandleInv(s, s.results[r].handle);
    forall h | 0 <= h < |s'.handles|
      ensures HandleInv(s', h)
    {
      assert HandleInv(s, h);
    }
    forall q | 0 <= q < |s'.results|
      ensures ResultInv(s', q)
    {
      assert ResultInv(s, q);
    }
    forall l | l in s'.calls
      ensures CallInv(s', l)
    {
      assert l != k ==> CallInv(s, l);
    }
  }

  /** A call that is under way works on the handle of its result, which carries the task of its result. */
  lemma CallOwns(s: State, k: nat)
    requires Tidy(s) && k in s.calls
    ensures var h := HandleOf(s, k);
            && WorksOn(s, k, h) && s.handles[h].owner == WithResult(s.calls[k].r)
            && s.handles[h].task == s.results[s.calls[k].r].task && s.pool[h] == 0
            && (s.handles[h].isProcessed <==> !s.calls[k].pc.Tested?)
  {
    assert CallInv(s, k);
    assert ResultInv(s, s.calls[k].r);
    assert HandleInv(s, HandleOf(s, k));
  }

  lemma CallMovesKeepTidy(s: State, s': State, k: nat, h: nat)
    requires Tidy(s) && h == HandleOf(s, k) && (DoMark(s, s', k, h) || DoRead(s, s', k, h))
    ensures Tidy(s')
  {
    CallOwns(s, k);
    forall g | 0 <= g < |s'.handles|
      ensures HandleInv(s', g)
    {
      assert HandleInv(s, g);
      if g != h && s.handles[g].owner.WithResult? {
        assert ResultInv(s, s.handles[g].owner.r);
      }
    }
    forall q | 0 <= q < |s'.results|
      ensures ResultInv(s', q)
    {
      assert ResultInv(s, q);
    }
    forall l | l in s'.calls
      ensures CallInv(s', l)
    {
      assert CallInv(s, l);
    }
  }

  lemma ReleaseKeepsTidy(s: State, k: nat, h: nat)
    requires Tidy(s) && k in s.calls && h == HandleOf(s, k) && WorksOn(s, k, h) && !s.calls[k].pc.Tested?
    ensures Tidy(Released(s, k, h))
  {
    var s' := Released(s, k, h);
    CallOwns(s, k);
    forall g | 0 <= g < |s'.handles|
      ensures HandleInv(s', g)
    {
      assert HandleInv(s, g);
      if g != h && s.handles[g].owner.WithResult? {
        assert s.handles[g].owner.r != s.calls[k].r;
        assert ResultInv(s, s.handles[g].owner.r);
      }
    }
    forall q | 0 <= q < |s'.results|
      ensures ResultInv(s', q)
    {
      assert ResultInv(s, q);
    }
    forall l | l in s'.calls
      ensures CallInv(s', l)
    {
      assert CallInv(s, l) && CallInv(s, k);
    }
  }

  lemma StepKeepsTidy(max: nat, s: State, s': State, e: Event)
    requires Tidy(s) && Step(max, s, s', e) && Once(s, e)
    ensures Tidy(s')
  {
    hide Tidy, RollbackBuffer.Step, Batching.Step, Flatten, HandleOf;
    match e
    case Get(c, h) => GetKeepsTidy(s, s', c, h);
    case ReceiveReady(c, task) =>
      ReturnKeepsTidy(s, c, task);
      SameHoldersTidy(Returned(s, c, task), s');
    case ReceiveRolledBack(c) => ReceiveRolledBackKeepsTidy(s, s', c);
    case Enter(k, r, confirm) => EnterKeepsTidy(s, s', k, r, confirm);
    case Mark(k) => CallMovesKeepTidy(s, s', k, HandleOf(s, k));
    case Read(k) => CallMovesKeepTidy(s, s', k, HandleOf(s, k));
    case Put(k) =>
      ReleaseKeepsTidy(s, k, HandleOf(s, k));
      SameHoldersTidy(Released(s, k, HandleOf(s, k)), s');
    case _ => SameHoldersTidy(s, s');
  }

  // ---------- Conservation ----------

  /** A result carries its task until its first call has returned. */
  function Carried(r: Result): multiset<Task> {
    if r.status.Finished? then multiset{} else multiset{r.task}
  }

  function AllCarried(results: seq<Result>): multiset<Task> {
    if results == [] then multiset{} else Carried(results[0]) + AllCarried(results[1..])
  }

  lemma {:induction false} CarriedAfterUpdate(results: seq<Result>, r: nat, other: Result)
    requires r < |results|
    ensures AllCarried(results[r := other]) + Carried(results[r]) == AllCarried(results) + Carried(other)
  {
    hide Carried;
    var updated := results[r := other];
    if r == 0 {
      assert updated[1..] == results[1..];
    } else {
      CarriedAfterUpdate(results[1..], r - 1, other);
      assert updated[1..] == results[1..][r - 1 := other];
      Deeper(Carried(results[0]), AllCarried(updated[1..]), Carried(results[r]), AllCarried(results[1..]),
             Carried(other));
    }
  }

  lemma Deeper(first: multiset<Task>, a: multiset<Task>, b: multiset<Task>, c: multiset<Task>, d: multiset<Task>)
    requires a + b == c + d
    ensures (first + a) + b == (first + c) + d
  {
    assert (first + a) + b == first + (a + b);
  }

  lemma Cancel(x: multiset<Task>, y: multiset<Task>, c: multiset<Task>)
    requires x + c == y + c
    ensures x == y
  {
    forall t
      ensures x[t] == y[t]
    {
      assert (x + c)[t] == (y + c)[t];
    }
  }

  /** The three ways in which a step changes what a result carries. */
  lemma ResultUpdate(results: seq<Result>, r: nat, other: Result)
    requires r < |results|
    ensures Carried(results[r]) == Carried(other) ==> AllCarried(results[r := other]) == AllCarried(results)
    ensures Carried(results[r]) == multiset{} ==>
              AllCarried(results[r := other]) == AllCarried(results) + Carried(other)
    ensures Carried(other) == multiset{} ==>
              AllCarried(results) == AllCarried(results[r := other]) + Carried(results[r])
  {
    hide AllCarried, Carried;
    CarriedAfterUpdate(results, r, other);
    if Carried(results[r]) == Carried(other) {
      Cancel(AllCarried(results[r := other]), AllCarried(results), Carried(other));
    }
  }

  lemma {:induction false} CarriedAfterAppend(results: seq<Result>, other: Result)
    ensures AllCarried(results + [other]) == AllCarried(results) + Carried(other)
  {
    hide Carried;
    if results == [] {
      assert results + [other] == [other];
      assert AllCarried([other]) == Carried(other) + AllCarried([]);
    } else {
      CarriedAfterAppend(results[1..], other);
      assert (results + [other])[1..] == results[1..] + [other];
    }
  }

  /** The tasks on the way back to consumers. */
  function RollbackPath(s: State): multiset<Task> {
    multiset(RollbackBuffer.Contents(s.buffer))
  }

  /** The tasks on the way to their deletion. */
  function ConfirmPath(s: State): multiset<Task> {
    multiset(s.toConfirm) + Batching.Held(s.batching) + multiset(Flatten(s.unconfirmed))
  }

  /** All tasks inside the sender service. */
  function InFlight(s: State): multiset<Task> {
    AllCarried(s.results) + RollbackPath(s) + ConfirmPath(s)
  }

  function In(e: Event): multiset<Task> {
    if e.ReceiveReady? then multiset{e.task} else multiset{}
  }

  function Out(s: State, e: Event): multiset<Task> {
    if e.FinishBatch? && e.i < |s.unconfirmed| then multiset(s.unconfirmed[e.i]) else multiset{}
  }

  /** An event moves tasks into, through and out of the service without losing any. */
  ghost predicate Moves(s: State, s': State, e: Event) {
    && InFlight(s) + In(e) == InFlight(s') + Out(s, e)
    && s'.taken == s.taken + In(e) && s'.confirmed == s.confirmed + Out(s, e)
  }

  lemma ReturnMoves(s: State, c: nat, task: Task)
    requires c in s.consumes && s.consumes[c] < |s.handles|
    ensures AllCarried(Returned(s, c, task).results) == AllCarried(s.results) + multiset{task}
  {
    hide AllCarried;
    CarriedAfterAppend(s.results, Result(s.consumes[c], task, Fresh));
  }

  lemma ReceiveRolledBackMoves(s: State, s': State, c: nat)
    requires DoReceiveRolledBack(s, s', c)
    ensures AllCarried(s'.results) + RollbackPath(s') == AllCarried(s.results) + RollbackPath(s)
  {
    hide AllCarried, RollbackBuffer.Contents;
    ReturnMoves(s, c, s.buffer.outbox[0]);
    RollbackBuffer.StepKeepsContents(s.buffer, s'.buffer, RollbackBuffer.Get);
    Passed(RollbackPath(s), RollbackPath(s'), AllCarried(s.results), AllCarried(s'.results), s.buffer.outbox[0]);
  }

  lemma EnterMoves(s: State, s': State, k: nat, r: nat, confirm: bool)
    requires Tidy(s) && DoEnter(s, s', k, r, confirm) && s.results[r].status.Fresh?
    ensures AllCarried(s'.results) == AllCarried(s.results)
  {
    hide AllCarried, Tidy;
    EnterKeepsTidy(s, s', k, r, confirm);
    ResultUpdate(s.results, r, s'.results[r]);
  }

  /** One task passes from one store to another. */
  lemma Passed(from: multiset<Task>, from': multiset<Task>, to: multiset<Task>, to': multiset<Task>, t: Task)
    requires from == from' + multiset{t} && to' == to + multiset{t}
    ensures to' + from' == to + from
    ensures from' + to' == from + to
  {
  }

  /** A call takes the task off its result when it sends it. */
  lemma ReleaseMoves(s: State, k: nat, h: nat)
    requires Tidy(s) && h == HandleOf(s, k) && WorksOn(s, k, h) && s.calls[k].pc.Sending?
    ensures AllCarried(s.results) == AllCarried(Released(s, k, h).results) + multiset{s.calls[k].pc.task}
  {
    hide AllCarried;
    assert CallInv(s, k);
    ResultUpdate(s.results, s.calls[k].r, Released(s, k, h).results[s.calls[k].r]);
  }

  lemma PutMoves(s: State, s': State, k: nat, h: nat)
    requires Tidy(s) && h == HandleOf(s, k) && DoPut(s, s', k, h)
    ensures Rearranged(s, s')
  {
    hide AllCarried, RollbackBuffer.Contents, RollbackBuffer.Step, Tidy, HandleOf, Batching.Held, Flatten;
    var task := s.calls[k].pc.task;
    ReleaseMoves(s, k, h);
    if s.calls[k].confirm {
      assert multiset(s'.toConfirm) == multiset(s.toConfirm) + multiset{task};
      Passed(AllCarried(s.results), AllCarried(s'.results), multiset(s.toConfirm), multiset(s'.toConfirm), task);
    } else {
      RollbackBuffer.StepKeepsContents(s.buffer, s'.buffer, RollbackBuffer.Put(task));
      Passed(AllCarried(s.results), AllCarried(s'.results), RollbackPath(s), RollbackPath(s'), task);
    }
  }

  lemma ReadConfirmMoves(max: nat, s: State, s': State)
    requires DoReadConfirm(max, s, s')
    ensures ConfirmPath(s') == ConfirmPath(s)
  {
    hide Batching.Held, Batching.Step, Flatten;
    Batching.StepKeepsHeld(max, s.batching, s'.batching, Batching.Read(s.toConfirm[0]));
    FirstTaskMoves(s.toConfirm, Batching.Held(s.batching), Batching.Held(s'.batching));
  }

  lemma FirstTaskMoves(from: seq<Task>, held: multiset<Task>, held': multiset<Task>)
    requires from != [] && held + multiset{from[0]} == held'
    ensures multiset(from[1..]) + held' == multiset(from) + held
  {
    assert from == [from[0]] + from[1..];
  }

  lemma BatchStepMoves(max: nat, s: State, s': State, b: Batching.Event)
    requires DoBatchStep(max, s, s', b)
    ensures ConfirmPath(s') == ConfirmPath(s)
  {
    hide Batching.Held, Flatten;
    Batching.StepKeepsHeld(max, s.batching, s'.batching, b);
    if b.Emit? {
      FlattenAppend(s.unconfirmed, s.batching.forwarder.batch);
      BatchMoves(multiset(s.toConfirm), Batching.Held(s.batching), Batching.Held(s'.batching),
                 Flatten(s.unconfirmed), s.batching.forwarder.batch);
    }
  }

  lemma BatchMoves(q: multiset<Task>, held: multiset<Task>, held': multiset<Task>, out: seq<Task>, batch: seq<Task>)
    requires held == held' + multiset(batch)
    ensures q + held' + multiset(out + batch) == q + held + multiset(out)
  {
  }

  lemma FinishBatchMoves(s: State, s': State, i: nat)
    requires DoFinishBatch(s, s', i)
    ensures ConfirmPath(s) == ConfirmPath(s') + multiset(s.unconfirmed[i])
  {
    hide Batching.Held, Flatten;
    FlattenWithout(s.unconfirmed, i);
  }

  /** Each step changes only one of the three stores of tasks, or passes tasks between two of them. */
  lemma StepMoves(max: nat, s: State, s': State, e: Event)
    requires Tidy(s) && Step(max, s, s', e) && Once(s, e)
    ensures Moves(s, s', e)
  {
    hide Tidy, Once, AllCarried, RollbackPath, ConfirmPath;
    StoresMove(max, s, s', e);
    BooksMove(max, s, s', e);
  }

  lemma BooksMove(max: nat, s: State, s': State, e: Event)
    requires Step(max, s, s', e)
    ensures s'.taken == s.taken + In(e) && s'.confirmed == s.confirmed + Out(s, e)
  {
    hide RollbackBuffer.Step, Batching.Step, WorksOn, HandleOf;
    if e.Get? || e.ReceiveReady? || e.ReceiveRolledBack? || e.Enter? {
      TakingBooksMove(max, s, s', e);
    }
  }

  lemma TakingBooksMove(max: nat, s: State, s': State, e: Event)
    requires Step(max, s, s', e) && (e.Get? || e.ReceiveReady? || e.ReceiveRolledBack? || e.Enter?)
    ensures s'.taken == s.taken + In(e) && s'.confirmed == s.confirmed
  {
    hide RollbackBuffer.Step, DoMark, DoRead, DoPut, DoReadConfirm, DoBatchStep, DoFinishBatch;
  }

  lemma StoresMove(max: nat, s: State, s': State, e: Event)
    requires Tidy(s) && Step(max, s, s', e) && Once(s, e)
    ensures InFlight(s) + In(e) == InFlight(s') + Out(s, e)
  {
    hide InFlight, Tidy, HandleOf, WorksOn;
    match e
    case ReceiveReady(c, task) =>
      ReturnMoves(s, c, task);
      InFlightSplits(s, s', multiset{task}, multiset{});
    case FinishBatch(i) =>
      FinishBatchMoves(s, s', i);
      InFlightSplits(s, s', multiset{}, multiset(s.unconfirmed[i]));
    case _ =>
      InnerMoves(max, s, s', e);
      InFlightSplits(s, s', multiset{}, multiset{});
  }

  lemma InFlightSplits(s: State, s': State, i: multiset<Task>, o: multiset<Task>)
    requires
      || (AllCarried(s.results) + i == AllCarried(s'.results) && RollbackPath(s) == RollbackPath(s')
          && ConfirmPath(s) == ConfirmPath(s') + o)
      || (i == o == multiset{} && Rearranged(s, s'))
    ensures InFlight(s) + i == InFlight(s') + o
  {
    hide AllCarried, RollbackPath, ConfirmPath;
    if i == o == multiset{} && Rearranged(s, s') {
      RearrangedKeeps(s, s');
    }
  }

  lemma RearrangedKeeps(s: State, s': State)
    requires Rearranged(s, s')
    ensures InFlight(s) == InFlight(s')
  {
    hide AllCarried, RollbackPath, ConfirmPath;
    var c, d := AllCarried(s.results), AllCarried(s'.results);
    if ConfirmPath(s) != ConfirmPath(s') || c + RollbackPath(s) != d + RollbackPath(s') {
      ThroughConfirm(s, s');
      assert c + RollbackPath(s) + ConfirmPath(s) == (c + ConfirmPath(s)) + RollbackPath(s);
      assert d + RollbackPath(s') + ConfirmPath(s') == (d + ConfirmPath(s')) + RollbackPath(s');
    }
  }

  /** Tasks only pass between two neighbouring stores. */
  ghost predicate Rearranged(s: State, s': State) {
    var c, d := AllCarried(s.results), AllCarried(s'.results);
    || (c + RollbackPath(s) == d + RollbackPath(s') && ConfirmPath(s) == ConfirmPath(s'))
    || (d + multiset(s'.toConfirm) == c + multiset(s.toConfirm) && RollbackPath(s) == RollbackPath(s')
        && s'.batching == s.batching && s'.unconfirmed == s.unconfirmed)
  }

  lemma ThroughConfirm(s: State, s': State)
    requires AllCarried(s'.results) + multiset(s'.toConfirm) == AllCarried(s.results) + multiset(s.toConfirm)
    requires s'.batching == s.batching && s'.unconfirmed == s.unconfirmed
    ensures AllCarried(s.results) + ConfirmPath(s) == AllCarried(s'.results) + ConfirmPath(s')
  {
    hide AllCarried, Batching.Held, Flatten;
    var rest := Batching.Held(s.batching) + multiset(Flatten(s.unconfirmed));
    assert AllCarried(s.results) + ConfirmPath(s) == (AllCarried(s.results) + multiset(s.toConfirm)) + rest;
    assert AllCarried(s'.results) + ConfirmPath(s') == (AllCarried(s'.results) + multiset(s'.toConfirm)) + rest;
  }

  lemma InnerMoves(max: nat, s: State, s': State, e: Event)
    requires Tidy(s) && Step(max, s, s', e) && Once(s, e) && !e.ReceiveReady? && !e.FinishBatch?
    ensures Rearranged(s, s')
  {
    hide Tidy, AllCarried, RollbackPath, ConfirmPath, RollbackBuffer.Step, Batching.Step, HandleOf, WorksOn;
    match e
    case ReceiveRolledBack(c) => ReceiveRolledBackMoves(s, s', c); SameStores(s, s');
    case Enter(k, r, confirm) => EnterMoves(s, s', k, r, confirm); SameStores(s, s');
    case Put(k) => PutMoves(s, s', k, HandleOf(s, k));
    case BufferStep(b) => BufferStepMoves(s, s', b); SameStores(s, s');
    case ReadConfirm => ReadConfirmMoves(max, s, s'); SameStores(s, s');
    case BatchStep(b) => BatchStepMoves(max, s, s', b); SameStores(s, s');
    case _ => SameStores(s, s');
  }

  lemma SameStores(s: State, s': State)
    ensures s'.buffer == s.buffer ==> RollbackPath(s') == RollbackPath(s)
    ensures s'.toConfirm == s.toConfirm && s'.batching == s.batching && s'.unconfirmed == s.unconfirmed
            ==> ConfirmPath(s') == ConfirmPath(s)
  {
  }

  lemma BufferStepMoves(s: State, s': State, b: RollbackBuffer.Event)
    requires (b.Accept? || b.Offer?) && RollbackBuffer.Step(s.buffer, s'.buffer, b)
    ensures RollbackPath(s') == RollbackPath(s)
  {
    hide RollbackBuffer.Step, RollbackBuffer.Contents;
    RollbackBuffer.StepKeepsContents(s.buffer, s'.buffer, b);
  }

  // ---------- One fate for every result ----------

  /** Decisions are about the task of their own result, and no result has two. */
  ghost predicate OneFate(s: State) {
    && (forall d :: 0 <= d < |s.decisions| ==>
          && s.decisions[d].r < |s.results|
          && s.decisions[d].task == s.results[s.decisions[d].r].task
          && DecisionTaken(s, s.decisions[d].r))
    && (forall c, d :: 0 <= c < d < |s.decisions| ==> s.decisions[c].r != s.decisions[d].r)
    && (forall r :: 0 <= r < |s.results| && DecisionTaken(s, r) ==> Decides(s, r))
  }

  ghost predicate Decides(s: State, r: nat) {
    exists d :: 0 <= d < |s.decisions| && s.decisions[d].r == r
  }

  /** The first call on result r has come as far as its decision. */
  ghost predicate DecisionTaken(s: State, r: nat) {
    && r < |s.results|
    && match s.results[r].status
       case Fresh => false
       case Deciding(k) => k in s.calls && s.calls[k].pc.Sending?
       case Finished => true
  }

  lemma SameDecisionsKeepOneFate(s: State, s': State)
    requires OneFate(s) && SameDecisions(s, s')
    ensures OneFate(s')
  {
    forall r | 0 <= r < |s'.results| && DecisionTaken(s', r)
      ensures Decides(s', r)
    {
      var d :| 0 <= d < |s.decisions| && s.decisions[d].r == r;
      assert s'.decisions[d].r == r;
    }
  }

  lemma ReadKeepsOneFate(s: State, s': State, k: nat, h: nat)
    requires Tidy(s) && OneFate(s) && h == HandleOf(s, k) && DoRead(s, s', k, h)
    ensures OneFate(s')
  {
    var r := s.calls[k].r;
    CallOwns(s, k);
    assert CallInv(s, k);
    assert !DecisionTaken(s, r);
    assert s'.decisions[|s.decisions|].r == r;
    forall q | 0 <= q < |s'.results| && q != r
      ensures DecisionTaken(s', q) <==> DecisionTaken(s, q)
    {
      assert ResultInv(s, q);
    }
    forall q | 0 <= q < |s'.results| && DecisionTaken(s', q)
      ensures Decides(s', q)
    {
      if q != r {
        var d :| 0 <= d < |s.decisions| && s.decisions[d].r == q;
        assert s'.decisions[d].r == q;
      }
    }
  }

  /** No first call comes to its decision. */
  ghost predicate SameDecisions(s: State, s': State) {
    && s'.decisions == s.decisions && |s.results| <= |s'.results|
    && (forall r :: 0 <= r < |s.results| ==> s'.results[r].task == s.results[r].task)
    && (forall r :: 0 <= r < |s'.results| ==> (DecisionTaken(s', r) <==> DecisionTaken(s, r)))
  }

  lemma ReturnDecidesNothing(s: State, s': State, c: nat, task: Task)
    requires c in s.consumes && s.consumes[c] < |s.handles|
    requires var t := Returned(s, c, task);
             s'.results == t.results && s'.calls == t.calls && s'.decisions == t.decisions
    ensures SameDecisions(s, s')
  {
  }

  lemma ReceiveDecidesNothing(max: nat, s: State, s': State, e: Event)
    requires Step(max, s, s', e) && (e.ReceiveReady? || e.ReceiveRolledBack?)
    ensures SameDecisions(s, s')
  {
    hide SameDecisions;
    ReturnDecidesNothing(s, s', e.c, if e.ReceiveReady? then e.task else s.buffer.outbox[0]);
  }

  lemma FirstCallEnters(s: State, r: nat)
    requires Tidy(s) && r < |s.results| && s.results[r].status.Fresh?
    ensures s.results[r].handle < |s.handles| && !s.handles[s.results[r].handle].isProcessed
  {
    assert ResultInv(s, r) && HandleInv(s, s.results[r].handle);
  }

  lemma EnterDecidesNothing(s: State, s': State, k: nat, r: nat, confirm: bool)
    requires Tidy(s) && DoEnter(s, s', k, r, confirm) && s.results[r].status.Fresh?
    ensures SameDecisions(s, s')
  {
    FirstCallEnters(s, r);
    forall q | 0 <= q < |s'.results|
      ensures DecisionTaken(s', q) <==> DecisionTaken(s, q)
    {
      assert ResultInv(s, q);
    }
  }

  lemma MarkDecidesNothing(s: State, s': State, k: nat, h: nat)
    requires DoMark(s, s', k, h)
    ensures SameDecisions(s, s')
  {
  }

  lemma PutDecidesNothing(s: State, s': State, k: nat, h: nat)
    requires Tidy(s) && DoPut(s, s', k, h)
    ensures SameDecisions(s, s')
  {
    hide RollbackBuffer.Step, HandlesInv, ConsumesInv;
    assert CallInv(s, k);
    forall q | 0 <= q < |s'.results|
      ensures DecisionTaken(s', q) <==> DecisionTaken(s, q)
    {
      assert ResultInv(s, q);
    }
  }

  lemma SameCallsDecideNothing(s: State, s': State)
    requires s'.results == s.results && s'.calls == s.calls && s'.decisions == s.decisions
    ensures SameDecisions(s, s')
  {
  }

  lemma OtherStepsDecideNothing(max: nat, s: State, s': State, e: Event)
    requires Tidy(s) && Step(max, s, s', e) && Once(s, e) && !e.Read?
    ensures SameDecisions(s, s')
  {
    hide Tidy, SameDecisions, RollbackBuffer.Step, Batching.Step, DoReceiveReady, DoReceiveRolledBack, DoMark, DoPut,
         HandleOf;
    match e
    case ReceiveReady(_, _) => ReceiveDecidesNothing(max, s, s', e);
    case ReceiveRolledBack(_) => ReceiveDecidesNothing(max, s, s', e);
    case Enter(k, r, confirm) => EnterDecidesNothing(s, s', k, r, confirm);
    case Mark(k) => MarkDecidesNothing(s, s', k, HandleOf(s, k));
    case Put(k) => PutDecidesNothing(s, s', k, HandleOf(s, k));
    case _ => SameCallsDecideNothing(s, s');
  }

  lemma StepKeepsOneFate(max: nat, s: State, s': State, e: Event)
    requires Tidy(s) && OneFate(s) && Step(max, s, s', e) && Once(s, e)
    ensures OneFate(s')
  {
    hide Tidy, OneFate, Once, SameDecisions, DoGet, DoReceiveReady, DoReceiveRolledBack, DoEnter, DoMark, DoRead, DoPut,
         DoReadConfirm, DoBatchStep, DoFinishBatch, HandleOf;
    if e.Read? {
      ReadKeepsOneFate(s, s', e.k, HandleOf(s, e.k));
    } else {
      OtherStepsDecideNothing(max, s, s', e);
      SameDecisionsKeepOneFate(s, s');
    }
  }

  ghost predicate Balanced(s: State) {
    s.taken == InFlight(s) + s.confirmed
  }

  /** Nobody closes the rollback buffer. */
  ghost predicate BufferOpen(s: State) {
    RollbackBuffer.Bounds(s.buffer) && !s.buffer.inClosed && !s.buffer.inNil && !s.buffer.outClosed
  }

  ghost predicate Inv(s: State) {
    Tidy(s) && OneFate(s) && Balanced(s) && BufferOpen(s)
  }

  lemma StepKeepsBufferOpen(max: nat, s: State, s': State, e: Event)
    requires BufferOpen(s) && Step(max, s, s', e)
    ensures BufferOpen(s')
  {
    hide Batching.Step, Flatten;
  }

  lemma StepKeepsInv(max: nat, s: State, s': State, e: Event)
    requires Inv(s) && Step(max, s, s', e) && Once(s, e)
    ensures Inv(s')
  {
    hide Step, Once, Tidy, OneFate, InFlight, In, Out, BufferOpen;
    StepKeepsTidy(max, s, s', e);
    StepKeepsOneFate(max, s, s', e);
    StepKeepsBufferOpen(max, s, s', e);
    StepMoves(max, s, s', e);
    BooksBalance(InFlight(s), s.confirmed, In(e), InFlight(s'), Out(s, e));
  }

  lemma BooksBalance(f: multiset<Task>, c: multiset<Task>, i: multiset<Task>, f': multiset<Task>, o: multiset<Task>)
    requires f + i == f' + o
    ensures f + c + i == f' + (c + o)
  {
    assert f + c + i == (f + i) + c;
  }

  lemma InitInv()
    ensures Inv(INIT)
  {
  }

  lemma {:induction false} RunInv(max: nat, tr: seq<State>, evs: seq<Event>, i: nat)
    requires IsRun(max, tr, evs) && i < |tr|
    requires forall j :: 0 <= j < i ==> Once(tr[j], evs[j])
    ensures Inv(tr[i])
  {
    hide Inv, Step, Once;
    if i > 0 {
      RunInv(max, tr, evs, i - 1);
      StepKeepsInv(max, tr[i - 1], tr[i], evs[i - 1]);
    } else {
      InitInv();
    }
  }

  /**
   Sender conservation: in every run in which no result of Consume is called twice, the tasks taken from
   the ready channel are exactly those carried by undecided results, those on the rollback path, those on
   the confirm path, and those confirmed.
   */
  lemma SenderConservation(max: nat, tr: seq<State>, evs: seq<Event>, i: nat)
    requires IsRun(max, tr, evs) && i < |tr|
    requires forall j :: 0 <= j < i ==> Once(tr[j], evs[j])
    ensures tr[i].taken == AllCarried(tr[i].results) + RollbackPath(tr[i]) + ConfirmPath(tr[i]) + tr[i].confirmed
  {
    RunInv(max, tr, evs, i);
  }

  /**
   One fate: in such a run every call decides, it decides about the task its consumer got, and about every
   result there is at most one decision; there is one as soon as its call has returned.
   */
  lemma OneFateEach(max: nat, tr: seq<State>, evs: seq<Event>, i: nat)
    requires IsRun(max, tr, evs) && i < |tr|
    requires forall j :: 0 <= j < i ==> Once(tr[j], evs[j])
    ensures var s := tr[i];
            && (forall d :: 0 <= d < |s.decisions| ==>
                  s.decisions[d].r < |s.results| && s.decisions[d].task == s.results[s.decisions[d].r].task)
            && (forall c, d :: 0 <= c < d < |s.decisions| ==> s.decisions[c].r != s.decisions[d].r)
            && (forall r :: 0 <= r < |s.results| && s.results[r].status.Finished? ==> Decides(s, r))
  {
    RunInv(max, tr, evs, i);
    var s := tr[i];
    forall r | 0 <= r < |s.results| && s.results[r].status.Finished?
      ensures Decides(s, r)
    {
      assert DecisionTaken(s, r);
    }
  }

  // ---------- A second call is never safe ----------

  /**
   Another call on a result goes through exactly while somebody else is entitled to its handle: a Consume
   that waits with it, or a result whose own call has not marked it yet.
   */
  lemma SecondCallGoesThroughWhen(s: State, s': State, k: nat, r: nat, confirm: bool)
    requires Tidy(s) && DoEnter(s, s', k, r, confirm) && !s.results[r].status.Fresh?
    ensures s' != s <==> AwaitsDecision(s, s.handles[s.results[r].handle].owner)
  {
    assert HandleInv(s, s.results[r].handle);
    if !s.handles[s.results[r].handle].isProcessed {
      assert k in s'.calls;
    }
  }

  ghost predicate AwaitsDecision(s: State, owner: Owner) {
    match owner
    case InPool => false
    case WithConsume(_) => true
    case WithResult(q) =>
      q < |s.results| && match s.results[q].status
                         case Fresh => true
                         case Deciding(l) => l in s.calls && s.calls[l].pc.Tested?
                         case Finished => false
  }

  lemma {:induction false} Bound(keys: set<nat>) returns (k: nat)
    ensures forall x :: x in keys ==> x < k
    decreases |keys|
  {
    if keys == {} {
      k := 0;
    } else {
      var x :| x in keys;
      k := Bound(keys - {x});
      assert keys == keys - {x} + {x};
      if k <= x {
        k := x + 1;
      }
    }
  }

  /** How far handle h is from being issued again. */
  function Distance(s: State, h: nat): nat
    requires h < |s.handles|
  {
    match s.handles[h].owner
    case InPool => 1
    case WithConsume(_) => 0
    case WithResult(q) =>
      if q < |s.results| && s.results[q].status.Deciding? && s.results[q].status.k in s.calls
      then match s.calls[s.results[q].status.k].pc
           case Tested => 5
           case Marked => 4
           case Sending(_) => 2 + |s.buffer.inbox|
      else 6
  }

  /** Nothing was received, and calls have only come further. */
  ghost predicate GoneOn(s: State, s': State, h: nat) {
    && s'.taken == s.taken && |s'.results| == |s.results| && h < |s.handles| == |s'.handles|
    && s'.handles[h].task == s.handles[h].task
    && forall r :: 0 <= r < |s.results| ==>
         s'.results[r].handle == s.results[r].handle && (!s.results[r].status.Fresh? ==> !s'.results[r].status.Fresh?)
  }

  /** A call under way can always go on, if need be after the rollback buffer has made room. */
  lemma CallGoesOn(max: nat, s: State, k: nat) returns (s': State, e: Event)
    requires Inv(s) && k in s.calls
    ensures Step(max, s, s', e) && Once(s, e)
    ensures var h := HandleOf(s, k); GoneOn(s, s', h) && Distance(s', h) < Distance(s, h)
  {
    hide OneFate, Balanced, HandlesInv, ResultsInv, ConsumesInv, Flatten, Batching.Step;
    CallOwnsToo(s, k);
    var h, call := HandleOf(s, k), s.calls[k];
    match call.pc
    case Tested =>
      e := Mark(k);
      s' := s.(handles := s.handles[h := s.handles[h].(isProcessed := true)],
               calls := s.calls[k := call.(pc := Marked)]);
    case Marked =>
      e := Read(k);
      s' := s.(calls := s.calls[k := call.(pc := Sending(s.handles[h].task))],
               decisions := s.decisions + [Decision(call.r, call.confirm, s.handles[h].task)]);
    case Sending(task) =>
      e := Put(k);
      var b := s.buffer;
      if call.confirm {
        s' := Released(s, k, h).(toConfirm := s.toConfirm + [task]);
      } else if b.inbox == [] {
        s' := Released(s, k, h).(buffer := b.(inbox := b.inbox + [task], accepted := b.accepted + [task]));
      } else {
        e := BufferStep(RollbackBuffer.Accept);
        s' := s.(buffer := b.(inbox := b.inbox[1..], list := b.list + [b.inbox[0]]));
      }
  }

  lemma CallOwnsToo(s: State, k: nat)
    requires Tidy(s) && k in s.calls
    ensures var h := HandleOf(s, k);
            && WorksOn(s, k, h) && s.handles[h].owner == WithResult(s.calls[k].r)
            && s.results[s.calls[k].r].status == Deciding(k)
  {
    CallOwns(s, k);
    assert CallInv(s, k);
  }

  /** The first call on a fresh result begins. */
  lemma FirstCallBegins(max: nat, s: State, q: nat) returns (s': State, e: Event)
    requires Tidy(s) && q < |s.results| && s.results[q].status.Fresh?
    ensures Step(max, s, s', e) && Once(s, e)
    ensures var h := s.results[q].handle; GoneOn(s, s', h) && Distance(s', h) < Distance(s, h)
  {
    FirstCallEnters(s, q);
    assert ResultInv(s, q);
    var k := Bound(s.calls.Keys);
    e := Enter(k, q, true);
    s' := s.(results := s.results[q := Called(s.results[q], Deciding(k))],
             calls := s.calls[k := Call(q, true, Tested)]);
  }

  /** Result r is finished, and a Consume waits with its handle. */
  ghost predicate Awaited(s: State, r: nat) {
    && r < |s.results| && s.results[r].status.Finished?
    && s.results[r].handle < |s.handles| && !s.handles[s.results[r].handle].isProcessed
    && exists c :: c in s.consumes && s.consumes[c] == s.results[r].handle
  }

  lemma Prepend(max: nat, s: State, e: Event, tr: seq<State>, evs: seq<Event>)
    requires IsPath(max, tr, evs) && Step(max, s, tr[0], e) && Once(s, e)
    requires forall i :: 0 <= i < |evs| ==> Once(tr[i], evs[i])
    ensures IsPath(max, [s] + tr, [e] + evs)
    ensures forall i :: 0 <= i < |evs| + 1 ==> Once(([s] + tr)[i], ([e] + evs)[i])
  {
    hide Step, Once;
    var tr', evs' := [s] + tr, [e] + evs;
    forall i | 0 <= i < |evs'|
      ensures Step(max, tr'[i], tr'[i + 1], evs'[i]) && Once(tr'[i], evs'[i])
    {
      if i > 0 {
        assert tr'[i] == tr[i - 1] && evs'[i] == evs[i - 1];
      }
    }
  }

  /** What the present holder of a called result's handle means for that result. */
  lemma HolderIsAnother(s: State, r: nat)
    requires Tidy(s) && r < |s.results| && !s.results[r].status.Fresh?
    ensures var h := s.results[r].handle;
            && h < |s.handles|
            && match s.handles[h].owner
               case InPool => s.results[r].status.Finished? && h in s.pool
               case WithConsume(_) => Awaited(s, r)
               case WithResult(q) =>
                 && q < |s.results| && s.results[q].handle == h
                 && match s.results[q].status
                    case Fresh => true
                    case Deciding(k) => k in s.calls && HandleOf(s, k) == h
                    case Finished => false
  {
    var h := s.results[r].handle;
    assert ResultInv(s, r) && HandleInv(s, h);
    if s.handles[h].owner.WithResult? {
      assert ResultInv(s, s.handles[h].owner.r);
    }
  }

  /** From any state, without a second call, a Consume can come to wait with the handle of a called result. */
  lemma {:induction false} ComesToBeAwaited(max: nat, s: State, r: nat) returns (tr: seq<State>, evs: seq<Event>)
    requires Inv(s) && r < |s.results| && !s.results[r].status.Fresh?
    ensures IsPath(max, tr, evs) && tr[0] == s && forall i :: 0 <= i < |evs| ==> Once(tr[i], evs[i])
    ensures Inv(tr[|evs|]) && Awaited(tr[|evs|], r) && GoneOn(s, tr[|evs|], s.results[r].handle)
    decreases if s.results[r].handle < |s.handles| then Distance(s, s.results[r].handle) else 0
  {
    hide Step, Once, Tidy, OneFate, Balanced, BufferOpen, HandleOf, Awaited;
    HolderIsAnother(s, r);
    var h := s.results[r].handle;
    var s', e;
    match s.handles[h].owner
    case WithConsume(_) =>
      tr, evs := [s], [];
    case InPool =>
      s', e := IsTakenOut(max, s, h, r);
      StepKeepsInv(max, s, s', e);
      tr, evs := [s, s'], [e];
    case WithResult(q) =>
      if s.results[q].status.Fresh? {
        s', e := FirstCallBegins(max, s, q);
      } else {
        s', e := CallGoesOn(max, s, s.results[q].status.k);
      }
      StepKeepsInv(max, s, s', e);
      tr, evs := ComesToBeAwaited(max, s', r);
      Prepend(max, s, e, tr, evs);
      tr, evs := [s] + tr, [e] + evs;
  }

  lemma IsTakenOut(max: nat, s: State, h: nat, r: nat) returns (s': State, e: Event)
    requires h < |s.handles| && h in s.pool
    requires r < |s.results| && s.results[r].status.Finished? && s.results[r].handle == h
    ensures Step(max, s, s', e) && Once(s, e) && GoneOn(s, s', h) && Awaited(s', r)
  {
    var c := Bound(s.consumes.Keys);
    e := Get(c, h);
    s' := s.(handles := s.handles[h := s.handles[h].(isProcessed := false, owner := WithConsume(c))],
             pool := s.pool - multiset{h}, consumes := s.consumes[c := h]);
    assert s'.consumes[c] == h;
  }

  /** The four steps of another Confirm on a finished result, while its handle is unprocessed. */
  lemma AnotherConfirm(max: nat, s: State, r: nat) returns (k: nat, s1: State, s2: State, s3: State, s4: State)
    requires Awaited(s, r)
    ensures Step(max, s, s1, Enter(k, r, true)) && Step(max, s1, s2, Mark(k))
    ensures Step(max, s2, s3, Read(k)) && Step(max, s3, s4, Put(k))
    ensures var h := s.results[r].handle;
            && s4.toConfirm == s.toConfirm + [s.handles[h].task] && s4.results == s.results && s4.buffer == s.buffer
            && s4.batching == s.batching && s4.unconfirmed == s.unconfirmed
            && s4.taken == s.taken && s4.confirmed == s.confirmed
            && s4.consumes == s.consumes && h < |s4.handles| && s4.handles[h].isProcessed
  {
    var h := s.results[r].handle;
    var task := s.handles[h].task;
    k := Bound(s.calls.Keys);
    s1 := s.(results := s.results[r := s.results[r]], calls := s.calls[k := Call(r, true, Tested)]);
    s2 := s1.(handles := s.handles[h := s.handles[h].(isProcessed := true)],
              calls := s.calls[k := Call(r, true, Marked)]);
    s3 := s2.(calls := s.calls[k := Call(r, true, Sending(task))],
              decisions := s.decisions + [Decision(r, true, task)]);
    s4 := Released(s3, k, h).(toConfirm := s.toConfirm + [task]);
    assert s1.results == s.results == s4.results;
    assert s1.calls[k := Call(r, true, Marked)] == s2.calls && s2.calls[k := Call(r, true, Sending(task))] == s3.calls;
  }

  /** The waiting Consume gets its task with a handle that is processed, and the call on it does nothing. */
  lemma IgnoredConsumer(max: nat, s: State, c: nat, b: Task, own: bool) returns (k: nat, s1: State, s2: State)
    requires c in s.consumes && s.consumes[c] < |s.handles| && s.handles[s.consumes[c]].isProcessed
    ensures Step(max, s, s1, ReceiveReady(c, b)) && Step(max, s1, s2, Enter(k, |s.results|, own))
    ensures Once(s1, Enter(k, |s.results|, own))
    ensures s2.results == s.results + [Result(s.consumes[c], b, Finished)] && s2.taken == s.taken + multiset{b}
    ensures s2.toConfirm == s.toConfirm && s2.buffer == s.buffer && s2.batching == s.batching
    ensures s2.unconfirmed == s.unconfirmed && s2.confirmed == s.confirmed
  {
    var returned := Result(s.consumes[c], b, Fresh);
    s1 := Returned(s, c, b).(taken := s.taken + multiset{b});
    k := Bound(s1.calls.Keys);
    s2 := s1.(results := s1.results[|s.results| := Called(returned, Finished)]);
    assert s1.results[|s.results|] == returned;
  }

  /**
   The rule of one call is exact. In every state of every run that kept to it, and for every result that was called,
   whatever has become of the call: the run can go on, with a second Confirm on that result as its only breach of the
   rule, to a state in which a task is there once more than it was taken; and from there to one in which
   any new task b, received by another consumer, is in nobody's hands, whichever call that consumer makes.
   */
  lemma SecondCallIsNeverSafe(max: nat, s: State, r: nat, b: Task, own: bool)
    returns (tr: seq<State>, evs: seq<Event>, n: nat)
    requires Inv(s) && HoldersKnown(s) && r < |s.results| && !s.results[r].status.Fresh? && b !in s.taken
    ensures IsPath(max, tr, evs) && tr[0] == s && |evs| == n + 6
    ensures evs[n].Enter? && evs[n].r == r && evs[n].confirm
    ensures forall i :: 0 <= i < |evs| && i != n ==> Once(tr[i], evs[i])
    ensures exists t :: tr[n + 4].taken + multiset{t} == InFlight(tr[n + 4]) + tr[n + 4].confirmed
    ensures evs[n + 4].ReceiveReady? && evs[n + 4].task == b
    ensures evs[n + 5].Enter? && evs[n + 5].r == |tr[n + 4].results| && evs[n + 5].confirm == own
    ensures b in tr[n + 6].taken && b !in InFlight(tr[n + 6]) + tr[n + 6].confirmed
  {
    hide Step, Tidy, OneFate, BufferOpen, InFlight, HoldersKnown;
    var tr0, evs0 := ComesToBeAwaited(max, s, r);
    n := |evs0|;
    var z := tr0[n];
    var task := z.handles[z.results[r].handle].task;
    OldTaskIsKnown(s, r);
    var k, s1, s2, s3, s4 := AnotherConfirm(max, z, r);
    OneMoreToConfirm(z, s4, task);
    var c :| c in z.consumes && z.consumes[c] == z.results[r].handle;
    var l, s5, s6 := IgnoredConsumer(max, s4, c, b, own);
    FinishedCarriesNothing(s4, s6);
    NotThere(z.taken, InFlight(z), z.confirmed, task, b);
    tr := tr0 + [s1, s2, s3, s4, s5, s6];
    evs := evs0 + [Enter(k, r, true), Mark(k), Read(k), Put(k), ReceiveReady(c, b), Enter(l, |s4.results|, own)];
    forall i | 0 <= i < |evs|
      ensures Step(max, tr[i], tr[i + 1], evs[i])
    {
      if i < n {
        assert tr[i] == tr0[i] && tr[i + 1] == tr0[i + 1] && evs[i] == evs0[i];
      } else {
        assert i == n || i == n + 1 || i == n + 2 || i == n + 3 || i == n + 4 || i == n + 5;
      }
    }
  }

  lemma OldTaskIsKnown(s: State, r: nat)
    requires HoldersKnown(s) && r < |s.results|
    ensures s.results[r].handle < |s.handles| && s.handles[s.results[r].handle].task in s.taken
  {
  }

  lemma FinishedCarriesNothing(s: State, s': State)
    requires exists r: Result :: r.status.Finished? && s'.results == s.results + [r]
    requires s'.toConfirm == s.toConfirm && s'.buffer == s.buffer && s'.batching == s.batching
    requires s'.unconfirmed == s.unconfirmed
    ensures InFlight(s') == InFlight(s)
  {
    hide AllCarried, RollbackBuffer.Contents, Batching.Held, Flatten;
    var r: Result :| r.status.Finished? && s'.results == s.results + [r];
    CarriedAfterAppend(s.results, r);
  }

  lemma NotThere(taken: multiset<Task>, flight: multiset<Task>, confirmed: multiset<Task>, t: Task, b: Task)
    requires taken == flight + confirmed && b !in taken && t in taken
    ensures taken + multiset{t} == (flight + multiset{t}) + confirmed
    ensures b !in (flight + multiset{t}) + confirmed
  {
  }

  lemma OneMoreToConfirm(s: State, s': State, t: Task)
    requires s'.results == s.results && s'.buffer == s.buffer && s'.toConfirm == s.toConfirm + [t]
    requires s'.batching == s.batching && s'.unconfirmed == s.unconfirmed
    ensures InFlight(s') == InFlight(s) + multiset{t}
  {
    hide AllCarried, RollbackBuffer.Contents, Batching.Held, Flatten;
  }

  // ---------- However often results are called ----------

  /** Some call of Confirm that went through was about this task. */
  ghost predicate Approved(s: State, t: Task) {
    exists d :: 0 <= d < |s.decisions| && s.decisions[d].confirm && s.decisions[d].task == t
  }

  ghost predicate CallsApproved(s: State) {
    forall k :: k in s.calls && s.calls[k].confirm && s.calls[k].pc.Sending? ==> Approved(s, s.calls[k].pc.task)
  }

  ghost predicate PathApproved(s: State) {
    forall t :: t in ConfirmPath(s) ==> Approved(s, t)
  }

  lemma StepKeepsApproved(max: nat, s: State, s': State, e: Event, t: Task)
    requires Step(max, s, s', e) && Approved(s, t)
    ensures Approved(s', t)
  {
    hide RollbackBuffer.Step, Batching.Step, Flatten, HandleOf;
    var d :| 0 <= d < |s.decisions| && s.decisions[d].confirm && s.decisions[d].task == t;
    assert s'.decisions[d] == s.decisions[d];
  }

  /** A call comes to its send only by the decision about the task that it sends. */
  lemma StepKeepsCallsApproved(max: nat, s: State, s': State, e: Event)
    requires CallsApproved(s) && Step(max, s, s', e)
    ensures CallsApproved(s')
  {
    hide RollbackBuffer.Step, Batching.Step, Flatten, Approved, HandleOf;
    forall k | k in s'.calls && s'.calls[k].confirm && s'.calls[k].pc.Sending?
      ensures Approved(s', s'.calls[k].pc.task)
    {
      if k in s.calls && s.calls[k].pc.Sending? {
        StepKeepsApproved(max, s, s', e, s.calls[k].pc.task);
      } else {
        ReadApproves(s, s', k, HandleOf(s, k));
      }
    }
  }

  lemma ReadApproves(s: State, s': State, k: nat, h: nat)
    requires DoRead(s, s', k, h) && s.calls[k].confirm
    ensures Approved(s', s'.calls[k].pc.task)
  {
    assert s'.decisions[|s.decisions|].confirm;
  }

  /** The task that call k is about to send, on the channel of confirmations or on the other one. */
  ghost predicate Sends(s: State, e: Event, confirm: bool, t: Task) {
    e.Put? && e.k in s.calls && s.calls[e.k].confirm == confirm && s.calls[e.k].pc == Sending(t)
  }

  lemma ConfirmPathGrows(max: nat, s: State, s': State, e: Event, t: Task)
    requires Step(max, s, s', e) && t in ConfirmPath(s')
    ensures t in ConfirmPath(s) || Sends(s, e, true, t)
  {
    hide ConfirmPath, RollbackBuffer.Step, Batching.Step, HandleOf;
    match e
    case Put(k) => ConfirmPathTakes(s, s', s.calls[k].pc.task);
    case ReadConfirm => ReadConfirmMoves(max, s, s');
    case BatchStep(b) => BatchStepMoves(max, s, s', b);
    case FinishBatch(i) => FinishBatchMoves(s, s', i);
    case _ => SameStores(s, s');
  }

  lemma ConfirmPathTakes(s: State, s': State, t: Task)
    requires s'.batching == s.batching && s'.unconfirmed == s.unconfirmed
    ensures s'.toConfirm == s.toConfirm + [t] ==> ConfirmPath(s') == ConfirmPath(s) + multiset{t}
    ensures s'.toConfirm == s.toConfirm ==> ConfirmPath(s') == ConfirmPath(s)
  {
    hide Batching.Held, Flatten;
  }

  lemma RollbackPathGrows(max: nat, s: State, s': State, e: Event, t: Task)
    requires Step(max, s, s', e) && t in RollbackPath(s')
    ensures t in RollbackPath(s) || Sends(s, e, false, t)
  {
    hide RollbackPath, RollbackBuffer.Step, Batching.Step, HandleOf;
    match e
    case Put(k) =>
      if s.calls[k].confirm {
        SameStores(s, s');
      } else {
        RollbackPathTakes(s, s', RollbackBuffer.Put(s.calls[k].pc.task));
      }
    case ReceiveRolledBack(c) => RollbackPathTakes(s, s', RollbackBuffer.Get);
    case BufferStep(b) => RollbackPathTakes(s, s', b);
    case _ => SameStores(s, s');
  }

  lemma RollbackPathTakes(s: State, s': State, b: RollbackBuffer.Event)
    requires RollbackBuffer.Step(s.buffer, s'.buffer, b)
    ensures forall t :: t in RollbackPath(s') ==> t in RollbackPath(s) || b == RollbackBuffer.Put(t)
  {
    hide RollbackBuffer.Contents;
    RollbackBuffer.StepKeepsContents(s.buffer, s'.buffer, b);
    if b.Get? {
      assert forall t :: t in RollbackPath(s') ==> t in RollbackPath(s') + multiset{s.buffer.outbox[0]};
    }
  }

  lemma StepKeepsPathApproved(max: nat, s: State, s': State, e: Event)
    requires CallsApproved(s) && PathApproved(s) && Step(max, s, s', e)
    ensures PathApproved(s')
  {
    hide Step, ConfirmPath, Approved;
    forall t | t in ConfirmPath(s')
      ensures Approved(s', t)
    {
      ConfirmPathGrows(max, s, s', e, t);
      StepKeepsApproved(max, s, s', e, t);
    }
  }

  /** What a worker deletes was confirmed. */
  lemma FinishedIsApproved(max: nat, s: State, s': State, i: nat, t: Task)
    requires PathApproved(s) && Step(max, s, s', FinishBatch(i)) && t in s.unconfirmed[i]
    ensures Approved(s, t)
  {
    hide Batching.Held, Flatten, Approved;
    FinishBatchMoves(s, s', i);
    assert t in multiset(s.unconfirmed[i]);
  }

  /** Results and calls carry only tasks that were taken from the ready channel. */
  ghost predicate HoldersKnown(s: State) {
    && (forall r :: 0 <= r < |s.results| ==>
          && s.results[r].task in s.taken
          && s.results[r].handle < |s.handles| && s.handles[s.results[r].handle].task in s.taken)
    && (forall k :: k in s.calls && s.calls[k].pc.Sending? ==> s.calls[k].pc.task in s.taken)
  }

  ghost predicate PathsKnown(s: State) {
    forall t :: t in RollbackPath(s) || t in ConfirmPath(s) ==> t in s.taken
  }

  lemma StepKeepsHoldersKnown(max: nat, s: State, s': State, e: Event)
    requires HoldersKnown(s) && PathsKnown(s) && Step(max, s, s', e)
    ensures HoldersKnown(s')
  {
    hide HoldersKnown, PathsKnown, RollbackBuffer.Step, Batching.Step, DoGet, DoReceiveReady, DoReceiveRolledBack,
         DoEnter, DoMark, DoRead, DoPut, HandleOf;
    match e
    case Get(_, _) => TakingKeepsHoldersKnown(max, s, s', e);
    case ReceiveReady(_, _) => TakingKeepsHoldersKnown(max, s, s', e);
    case ReceiveRolledBack(_) => TakingKeepsHoldersKnown(max, s, s', e);
    case Enter(k, r, confirm) => EnterKeepsHoldersKnown(s, s', k, r, confirm);
    case Mark(k) => CallMovesKeepHoldersKnown(s, s', k, HandleOf(s, k));
    case Read(k) => CallMovesKeepHoldersKnown(s, s', k, HandleOf(s, k));
    case Put(k) => PutKeepsHoldersKnown(s, s', k, HandleOf(s, k));
    case _ => SameHoldersKnown(s, s');
  }

  lemma SameHoldersKnown(s: State, s': State)
    requires HoldersKnown(s) && s'.handles == s.handles && s'.results == s.results && s'.calls == s.calls
    requires s'.taken == s.taken
    ensures HoldersKnown(s')
  {
  }

  lemma TakingKeepsHoldersKnown(max: nat, s: State, s': State, e: Event)
    requires HoldersKnown(s) && PathsKnown(s) && Step(max, s, s', e)
    requires e.Get? || e.ReceiveReady? || e.ReceiveRolledBack?
    ensures HoldersKnown(s')
  {
    hide ConfirmPath, RollbackPath, RollbackBuffer.Step, PathsKnown;
    if e.ReceiveRolledBack? {
      OfferedIsKnown(s, s', e.c);
    }
  }

  lemma EnterKeepsHoldersKnown(s: State, s': State, k: nat, r: nat, confirm: bool)
    requires HoldersKnown(s) && DoEnter(s, s', k, r, confirm)
    ensures HoldersKnown(s')
  {
  }

  lemma CallMovesKeepHoldersKnown(s: State, s': State, k: nat, h: nat)
    requires HoldersKnown(s) && (DoMark(s, s', k, h) || DoRead(s, s', k, h))
    ensures HoldersKnown(s')
  {
  }

  lemma PutKeepsHoldersKnown(s: State, s': State, k: nat, h: nat)
    requires HoldersKnown(s) && DoPut(s, s', k, h)
    ensures HoldersKnown(s')
  {
    hide RollbackBuffer.Step;
  }

  lemma OfferedIsKnown(s: State, s': State, c: nat)
    requires PathsKnown(s) && DoReceiveRolledBack(s, s', c)
    ensures s'.results[|s.results|].task in s.taken
  {
    hide ConfirmPath;
    assert RollbackBuffer.Contents(s.buffer)[0] == s.buffer.outbox[0];
  }

  lemma StepKeepsPathsKnown(max: nat, s: State, s': State, e: Event)
    requires HoldersKnown(s) && PathsKnown(s) && Step(max, s, s', e)
    ensures PathsKnown(s')
  {
    hide Step, ConfirmPath, RollbackPath, In, Out;
    BooksMove(max, s, s', e);
    forall t | t in RollbackPath(s') || t in ConfirmPath(s')
      ensures t in s'.taken
    {
      if t in RollbackPath(s') {
        RollbackPathGrows(max, s, s', e, t);
      } else {
        ConfirmPathGrows(max, s, s', e, t);
      }
      assert t in s.taken;
    }
  }

  lemma {:induction false} CarriedIsTask(results: seq<Result>, t: Task)
    requires t in AllCarried(results)
    ensures exists r :: 0 <= r < |results| && results[r].task == t
  {
    if results[0].task != t || results[0].status.Finished? {
      CarriedIsTask(results[1..], t);
      var r :| 0 <= r < |results[1..]| && results[1..][r].task == t;
      assert results[r + 1].task == t;
    }
  }

  /** Nothing is in the service that was not taken from the ready channel. */
  lemma InFlightIsKnown(s: State, t: Task)
    requires HoldersKnown(s) && PathsKnown(s) && t in InFlight(s)
    ensures t in s.taken
  {
    hide RollbackPath, ConfirmPath;
    if t in AllCarried(s.results) {
      CarriedIsTask(s.results, t);
    }
  }

  // Two runs in which the first consumer calls Rollback and then Confirm, as the quick start does.

  const A := Task("a", 1)
  const B := Task("b", 2)
  const BACK := RollbackBuffer.EMPTY.(inbox := [A], accepted := [A])
  const A_ROLLED_BACK := Decision(0, false, A)

  const Q1 := INIT.(handles := [Handle(false, Task("", 0), WithConsume(0))], consumes := map[0 := 0])
  const Q2 := INIT.(handles := [Handle(false, A, WithResult(0))], results := [Result(0, A, Fresh)],
                    taken := multiset{A})
  const Q3 := Q2.(results := [Result(0, A, Deciding(0))], calls := map[0 := Call(0, false, Tested)])
  const Q4 := Q3.(handles := [Handle(true, A, WithResult(0))], calls := map[0 := Call(0, false, Marked)])
  const Q5 := Q4.(calls := map[0 := Call(0, false, Sending(A))], decisions := [A_ROLLED_BACK])
  const Q6 := Q5.(handles := [Handle(true, A, InPool)], pool := multiset{0}, results := [Result(0, A, Finished)],
                  calls := map[], buffer := BACK)
  const Q7 := Q6.(handles := [Handle(false, A, WithConsume(1))], pool := multiset{}, consumes := map[1 := 0])

  lemma FirstConsumerGetsA()
    ensures Step(1, INIT, Q1, Get(0, 0)) && Step(1, Q1, Q2, ReceiveReady(0, A))
    ensures Step(1, Q2, Q3, Enter(0, 0, false)) && Step(1, Q3, Q4, Mark(0))
  {
    assert Q1.consumes - {0} == map[];
  }

  lemma FirstConsumerRollsBack()
    ensures Step(1, Q4, Q5, Read(0)) && Step(1, Q5, Q6, Put(0)) && Step(1, Q6, Q7, Get(1, 0))
  {
    assert Q5.calls - {0} == map[];
  }

  // The late Confirm comes after the second consumer has got its task.

  const S8 := Q7.(handles := [Handle(false, B, WithResult(1))], consumes := map[], taken := multiset{A, B},
                  results := [Result(0, A, Finished), Result(0, B, Fresh)])
  const S9 := S8.(calls := map[1 := Call(0, true, Tested)])
  const S10 := S9.(handles := [Handle(true, B, WithResult(1))], calls := map[1 := Call(0, true, Marked)])
  const S11 := S10.(calls := map[1 := Call(0, true, Sending(B))], decisions := [A_ROLLED_BACK, Decision(0, true, B)])
  const S12 := S11.(handles := [Handle(true, B, InPool)], pool := multiset{0}, calls := map[], toConfirm := [B])
  const S13 := S12.(results := [Result(0, A, Finished), Result(0, B, Finished)])

  lemma SecondConsumerGetsB()
    ensures Step(1, Q7, S8, ReceiveReady(1, B)) && Step(1, S8, S9, Enter(1, 0, true))
  {
    assert Q7.consumes - {1} == map[];
  }

  lemma LateConfirmTakesB()
    ensures Step(1, S9, S10, Mark(1)) && Step(1, S10, S11, Read(1))
  {
  }

  lemma OwnRollbackIsIgnored()
    ensures Step(1, S11, S12, Put(1)) && Step(1, S12, S13, Enter(2, 1, false))
  {
    assert S11.calls - {1} == map[];
  }

  /**
   The quick start of the project calls Rollback and then Confirm on the same result. When another
   consumer has got the handle in between, the late Confirm sends that consumer's task to deletion, and
   its own Rollback no longer does anything.
   */
  lemma LateConfirmStealsATask() returns (tr: seq<State>, evs: seq<Event>)
    ensures IsRun(1, tr, evs)
    ensures evs == [Get(0, 0), ReceiveReady(0, A), Enter(0, 0, false), Mark(0), Read(0), Put(0), Get(1, 0),
                    ReceiveReady(1, B), Enter(1, 0, true), Mark(1), Read(1), Put(1), Enter(2, 1, false)]
    ensures tr[13].toConfirm == [B] && tr[13].calls == map[]
    ensures tr[13].decisions == [A_ROLLED_BACK, Decision(0, true, B)]
  {
    hide Step;
    tr := [INIT, Q1, Q2, Q3, Q4, Q5, Q6, Q7, S8, S9, S10, S11, S12, S13];
    evs := [Get(0, 0), ReceiveReady(0, A), Enter(0, 0, false), Mark(0), Read(0), Put(0), Get(1, 0),
            ReceiveReady(1, B), Enter(1, 0, true), Mark(1), Read(1), Put(1), Enter(2, 1, false)];
    FirstConsumerGetsA();
    FirstConsumerRollsBack();
    SecondConsumerGetsB();
    LateConfirmTakesB();
    OwnRollbackIsIgnored();
  }

  // The late Confirm comes while another Consume waits with the handle.

  const W8 := Q7.(calls := map[1 := Call(0, true, Tested)])
  const W9 := W8.(handles := [Handle(true, A, WithConsume(1))], calls := map[1 := Call(0, true, Marked)])
  const W10 := W9.(calls := map[1 := Call(0, true, Sending(A))], decisions := [A_ROLLED_BACK, Decision(0, true, A)])
  const W11 := W10.(handles := [Handle(true, A, InPool)], pool := multiset{0}, calls := map[], toConfirm := [A])
  const W12 := W11.(handles := [Handle(true, B, WithResult(1))], consumes := map[], taken := multiset{A, B},
                    results := [Result(0, A, Finished), Result(0, B, Fresh)])
  const W13 := W12.(results := [Result(0, A, Finished), Result(0, B, Finished)])

  lemma LateConfirmTakesA()
    ensures Step(1, Q7, W8, Enter(1, 0, true)) && Step(1, W8, W9, Mark(1)) && Step(1, W9, W10, Read(1))
  {
    assert Q7.results[0 := Q7.results[0]] == Q7.results;
  }

  lemma LateConfirmPools()
    ensures Step(1, W10, W11, Put(1))
  {
    assert W10.calls - {1} == map[];
  }

  lemma SecondConsumerIsIgnored()
    ensures Step(1, W11, W12, ReceiveReady(1, B)) && Step(1, W12, W13, Enter(2, 1, false))
  {
    assert W11.consumes - {1} == map[];
  }

  lemma WhereTheTasksAre()
    ensures RollbackPath(W11) == multiset{A} == ConfirmPath(W11)
    ensures InFlight(W13) == multiset{A, A}
  {
    hide RollbackBuffer.Contents, Batching.Held, Flatten, AllCarried;
    PathsOfA();
  }

  lemma PathsOfA()
    ensures RollbackBuffer.Contents(BACK) == [A] && Batching.Held(INIT.batching) == multiset{}
    ensures Flatten<Task>([]) == [] && AllCarried([Result(0, A, Finished), Result(0, B, Finished)]) == multiset{}
  {
    assert AllCarried([Result(0, A, Finished), Result(0, B, Finished)][1..]) == multiset{};
  }

  /**
   The same calls, but the other Consume still waits for a task: the late Confirm confirms the task that was
   rolled back, and the task that the other consumer then gets is lost, because its handle is processed
   already: whatever that consumer calls, nothing holds its task any more.
   */
  lemma LateConfirmStrandsATask() returns (tr: seq<State>, evs: seq<Event>)
    ensures IsRun(1, tr, evs)
    ensures evs == [Get(0, 0), ReceiveReady(0, A), Enter(0, 0, false), Mark(0), Read(0), Put(0), Get(1, 0),
                    Enter(1, 0, true), Mark(1), Read(1), Put(1), ReceiveReady(1, B), Enter(2, 1, false)]
    ensures tr[11].taken == multiset{A} && A in RollbackPath(tr[11]) && A in ConfirmPath(tr[11])
    ensures B in tr[13].taken && B !in InFlight(tr[13]) + tr[13].confirmed
  {
    hide Step, InFlight, RollbackPath, ConfirmPath;
    tr := [INIT, Q1, Q2, Q3, Q4, Q5, Q6, Q7, W8, W9, W10, W11, W12, W13];
    evs := [Get(0, 0), ReceiveReady(0, A), Enter(0, 0, false), Mark(0), Read(0), Put(0), Get(1, 0),
            Enter(1, 0, true), Mark(1), Read(1), Put(1), ReceiveReady(1, B), Enter(2, 1, false)];
    FirstConsumerGetsA();
    FirstConsumerRollsBack();
    LateConfirmTakesA();
    LateConfirmPools();
    SecondConsumerIsIgnored();
    WhereTheTasksAre();
  }
}
