/**
 The goroutine of the waiting service as a state machine: one step for each point at which it
 reads the clock, touches the waiting list, or communicates. Between a Take and the end of its
 round the loop holds one task in hand.
 */
module Waiting {
  import opened Tasks
  import opened TaskLists
  import opened Time

  datatype Pc =
    | Head                         // about to take the earliest task
    | Blocked(wake: int)           // in the outer select; the timer fires at wake
    | GreedyPreload(left: nat)     // in the inner loop over preloaded tasks
    | GreedyCancel(left: nat)      // in the inner loop over cancels
    | Sending                      // about to send the task in hand
    | Crashed                      // dereferenced a nil task

  datatype State = State(
    list: TaskList,
    hand: Option<Task>,
    pc: Pc,
    clock: int,                    // time of the latest step
    received: multiset<Task>,      // all tasks read from the preload channel
    sent: multiset<Task>,          // all tasks handed to the sender
    removed: multiset<Task>)       // all copies dropped by handled cancels

  datatype Event =
    | Take(taken: Option<Task>)
    | TimerFires
    | Preloaded(task: Task)
    | PreloadedMore(task: Task)
    | Cancelled(id: string)
    | CancelledMore(id: string)
    | GreedyEnds
    | Send

  function HandTasks(hand: Option<Task>): multiset<Task> {
    if hand.Some? then multiset{hand.value} else multiset{}
  }

  /** What the goroutine holds: the list and the task in hand. */
  function Memory(s: State): multiset<Task> {
    s.list.live + HandTasks(s.hand)
  }

  /** The sleep computed at the loop head: the maximal duration without a task. */
  function Sleep(task: Option<Task>, now: int): int {
    if task.Some? then Until(task.value.execTime, now) else MAX_INT64
  }

  /** The task in hand goes back into the list. */
  function PutBack(l: TaskList, hand: Option<Task>): TaskList {
    if hand.Some? then Added(l, hand.value) else l
  }

  /** The first cancel of a round, on the list and the task in hand. */
  function CancelTarget(s: State, id: string): TaskList {
    if s.hand.Some? && id != s.hand.value.id then Added(s.list, s.hand.value) else s.list
  }

  function CancelDrops(s: State, id: string): multiset<Task> {
    Dropped(CancelTarget(s, id), id)
    + if s.hand.Some? && id == s.hand.value.id then multiset{s.hand.value} else multiset{}
  }

  ghost predicate Init(s: State) {
    s == State(EMPTY, None, Head, s.clock, multiset{}, multiset{}, multiset{})
  }

  ghost predicate DoTake(s: State, s': State, taken: Option<Task>) {
    && s.pc.Head?
    && (taken.None? <==> s.list.live == multiset{})
    && (taken.Some? ==> IsEarliest(s.list, taken.value))
    && var sleep := Sleep(taken, s'.clock);
       s' == s.(list := if taken.Some? then Taken(s.list, taken.value) else s.list,
                hand := taken,
                pc := if sleep > 0 then Blocked(s'.clock + sleep) else Sending,
                clock := s'.clock)
  }

  ghost predicate DoTimer(s: State, s': State) {
    && s.pc.Blocked? && s.pc.wake <= s'.clock
    && s' == s.(pc := if s.hand.Some? then Sending else Crashed, clock := s'.clock)
  }

  ghost predicate DoPreload(limit: nat, s: State, s': State, task: Task) {
    && s.pc.Blocked?
    && s' == s.(list := Added(PutBack(s.list, s.hand), task), hand := None,
                pc := GreedyPreload(limit), clock := s'.clock,
                received := s.received + multiset{task})
  }

  ghost predicate DoPreloadMore(s: State, s': State, task: Task) {
    && s.pc.GreedyPreload? && s.pc.left > 0
    && s' == s.(list := Added(s.list, task), pc := GreedyPreload(s.pc.left - 1), clock := s'.clock,
                received := s.received + multiset{task})
  }

  ghost predicate DoCancel(limit: nat, s: State, s': State, id: string) {
    && s.pc.Blocked?
    && s' == s.(list := Deleted(CancelTarget(s, id), id), hand := None,
                pc := GreedyCancel(limit), clock := s'.clock,
                removed := s.removed + CancelDrops(s, id))
  }

  ghost predicate DoCancelMore(s: State, s': State, id: string) {
    && s.pc.GreedyCancel? && s.pc.left > 0
    && s' == s.(list := Deleted(s.list, id), pc := GreedyCancel(s.pc.left - 1), clock := s'.clock,
                removed := s.removed + Dropped(s.list, id))
  }

  ghost predicate DoSend(s: State, s': State) {
    && s.pc.Sending? && s.hand.Some?
    && s' == s.(hand := None, pc := Head, clock := s'.clock,
                sent := s.sent + multiset{s.hand.value})
  }

  ghost predicate Step(limit: nat, s: State, s': State, e: Event) {
    && s.clock <= s'.clock
    && match e
       case Take(taken) => DoTake(s, s', taken)
       case TimerFires => DoTimer(s, s')
       case Preloaded(task) => DoPreload(limit, s, s', task)
       case PreloadedMore(task) => DoPreloadMore(s, s', task)
       case Cancelled(id) => DoCancel(limit, s, s', id)
       case CancelledMore(id) => DoCancelMore(s, s', id)
       case GreedyEnds =>
         && (s.pc.GreedyPreload? || s.pc.GreedyCancel?)
         && s' == s.(pc := Head, clock := s'.clock)
       case Send => DoSend(s, s')
  }

  /** States and the events between them, from any start. */
  ghost predicate IsPath(limit: nat, tr: seq<State>, evs: seq<Event>) {
    && |tr| == |evs| + 1
    && forall i :: 0 <= i < |evs| ==> Step(limit, tr[i], tr[i + 1], evs[i])
  }

  /** A whole run of the goroutine, from the empty list. */
  ghost predicate IsRun(limit: nat, tr: seq<State>, evs: seq<Event>) {
    IsPath(limit, tr, evs) && Init(tr[0])
  }

  // ---------- What every step keeps ----------

  /** The tasks an event brings in, sends out, and drops. */
  function In(e: Event): multiset<Task> {
    if e.Preloaded? || e.PreloadedMore? then multiset{e.task} else multiset{}
  }

  function Out(s: State, e: Event): multiset<Task> {
    if e.Send? then HandTasks(s.hand) else multiset{}
  }

  function Drops(s: State, e: Event): multiset<Task> {
    match e
    case Cancelled(id) => CancelDrops(s, id)
    case CancelledMore(id) => Dropped(s.list, id)
    case _ => multiset{}
  }

  ghost predicate Inv(s: State) {
    && Sound(s.list)
    && (s.pc.Sending? ==> s.hand.Some?)
    && (s.hand.Some? ==> s.pc.Blocked? || s.pc.Sending?)
    && (s.hand.Some? ==> s.hand.value.id !in s.list.indexed)
    && (s.hand.Some? ==> forall t :: t in s.list.live ==> s.hand.value.execTime <= t.execTime)
  }

  /** Event e moves tasks between the books of s and s' without losing any. */
  ghost predicate Moves(s: State, s': State, e: Event) {
    && Memory(s) + In(e) == Memory(s') + Out(s, e) + Drops(s, e)
    && s'.received == s.received + In(e)
    && s'.sent == s.sent + Out(s, e)
    && s'.removed == s.removed + Drops(s, e)
  }

  lemma TakeKeepsInv(s: State, s': State, taken: Option<Task>)
    requires Inv(s) && DoTake(s, s', taken)
    ensures Inv(s') && Moves(s, s', Take(taken))
  {
    hide Moves;
    TakeKeepsBooks(s, s', taken);
    if taken.Some? {
      TakenKeeps(s.list, taken.value);
      forall t | t in s'.list.live
        ensures taken.value.execTime <= t.execTime
      {
        assert t in s.list.live;
      }
    }
  }

  lemma TakeKeepsBooks(s: State, s': State, taken: Option<Task>)
    requires Inv(s) && DoTake(s, s', taken)
    ensures Moves(s, s', Take(taken))
  {
    hide Inv, Sleep, IsEarliest, Taken, Memory;
    TakeKeepsMemory(s, s', taken);
  }

  lemma TakeKeepsMemory(s: State, s': State, taken: Option<Task>)
    requires Inv(s) && DoTake(s, s', taken)
    ensures Memory(s') == Memory(s)
  {
    hide Sleep;
    if taken.Some? {
      assert s'.list.live == s.list.live - multiset{taken.value};
    }
  }

  lemma PutBackSound(s: State)
    requires Inv(s)
    ensures Sound(PutBack(s.list, s.hand)) && PutBack(s.list, s.hand).live == Memory(s)
  {
    if s.hand.Some? {
      AddedKeeps(s.list, s.hand.value);
    }
  }

  lemma PreloadKeepsInv(limit: nat, s: State, s': State, task: Task)
    requires Inv(s) && DoPreload(limit, s, s', task)
    ensures Inv(s') && Moves(s, s', Preloaded(task))
  {
    PutBackSound(s);
    AddedKeeps(PutBack(s.list, s.hand), task);
    assert Memory(s') == Memory(s) + multiset{task};
  }

  lemma PreloadMoreKeepsInv(s: State, s': State, task: Task)
    requires Inv(s) && DoPreloadMore(s, s', task)
    ensures Inv(s') && Moves(s, s', PreloadedMore(task))
  {
    AddedKeeps(s.list, task);
    assert Memory(s') == Memory(s) + multiset{task};
  }

  /** A handled cancel drops the task in hand or an indexed copy, never both. */
  lemma CancelKeepsInv(limit: nat, s: State, s': State, id: string)
    requires Inv(s) && DoCancel(limit, s, s', id)
    ensures Inv(s') && Moves(s, s', Cancelled(id))
  {
    hide Moves;
    CancelKeepsBooks(limit, s, s', id);
    PutBackSound(s);
    DeletedKeeps(CancelTarget(s, id), id);
  }

  lemma CancelKeepsBooks(limit: nat, s: State, s': State, id: string)
    requires Inv(s) && DoCancel(limit, s, s', id)
    ensures Moves(s, s', Cancelled(id))
  {
    CancelDropsFromMemory(limit, s, s', id);
    DropMoves(s, s', Cancelled(id));
  }

  lemma CancelDropsFromMemory(limit: nat, s: State, s': State, id: string)
    requires Inv(s) && DoCancel(limit, s, s', id)
    ensures Memory(s) == Memory(s') + CancelDrops(s, id)
  {
    PutBackSound(s);
    DeletedLive(CancelTarget(s, id), id);
  }

  lemma DropMoves(s: State, s': State, e: Event)
    requires e.Cancelled? || e.CancelledMore?
    requires Memory(s) == Memory(s') + Drops(s, e)
    requires s'.received == s.received && s'.sent == s.sent && s'.removed == s.removed + Drops(s, e)
    ensures Moves(s, s', e)
  {
    hide Memory, Drops;
  }

  lemma CancelMoreKeepsInv(s: State, s': State, id: string)
    requires Inv(s) && DoCancelMore(s, s', id)
    ensures Inv(s') && Moves(s, s', CancelledMore(id))
  {
    hide Moves;
    DeletedKeeps(s.list, id);
    DeletedLive(s.list, id);
    DropMoves(s, s', CancelledMore(id));
  }

  lemma SendKeepsInv(s: State, s': State)
    requires Inv(s) && DoSend(s, s')
    ensures Inv(s') && Moves(s, s', Send)
  {
    assert Memory(s) == Memory(s') + multiset{s.hand.value};
  }

  lemma QuietKeepsInv(s: State, s': State, e: Event)
    requires Inv(s) && (e.TimerFires? || e.GreedyEnds?) && s' == s.(pc := s'.pc, clock := s'.clock)
    requires s'.pc.Head? ==> s.hand.None?
    requires !s'.pc.Head? ==> s'.pc == if s.hand.Some? then Sending else Crashed
    ensures Inv(s') && Moves(s, s', e)
  {
  }

  lemma StepKeepsInv(limit: nat, s: State, s': State, e: Event)
    requires Inv(s) && Step(limit, s, s', e)
    ensures Inv(s') && Moves(s, s', e)
  {
    hide Moves, DoTake, DoPreload, DoPreloadMore, DoCancel, DoCancelMore, DoSend;
    match e
    case Take(taken) => TakeKeepsInv(s, s', taken);
    case Preloaded(task) => PreloadKeepsInv(limit, s, s', task);
    case PreloadedMore(task) => PreloadMoreKeepsInv(s, s', task);
    case Cancelled(id) => CancelKeepsInv(limit, s, s', id);
    case CancelledMore(id) => CancelMoreKeepsInv(s, s', id);
    case Send => SendKeepsInv(s, s');
    case _ => QuietKeepsInv(s, s', e);
  }

  ghost predicate Conserved(s: State) {
    s.received == s.sent + Memory(s) + s.removed
  }

  lemma {:induction false} RunInv(limit: nat, tr: seq<State>, evs: seq<Event>, i: nat)
    requires IsRun(limit, tr, evs) && i < |tr|
    ensures Inv(tr[i]) && Conserved(tr[i])
  {
    if i > 0 {
      RunInv(limit, tr, evs, i - 1);
      StepKeepsBalance(limit, tr[i - 1], tr[i], evs[i - 1]);
    }
  }

  lemma StepKeepsBalance(limit: nat, s: State, s': State, e: Event)
    requires Inv(s) && Conserved(s) && Step(limit, s, s', e)
    ensures Inv(s') && Conserved(s')
  {
    hide Step, Inv, Memory, In, Out, Drops;
    StepKeepsInv(limit, s, s', e);
    Rebalanced(s.sent, Memory(s), s.removed, In(e), Out(s, e), Drops(s, e), Memory(s'));
  }

  lemma Rebalanced(sent: multiset<Task>, mem: multiset<Task>, removed: multiset<Task>, received: multiset<Task>,
                   out: multiset<Task>, drops: multiset<Task>, mem': multiset<Task>)
    requires mem + received == mem' + out + drops
    ensures sent + mem + removed + received == (sent + out) + mem' + (removed + drops)
  {
    assert sent + mem + removed + received == sent + removed + (mem + received);
  }

  /**
   Conservation: in every run, at every point, the tasks received are exactly those sent, those in
   the list or in hand, and those dropped by handled cancels; at a loop head nothing is in hand.
   */
  lemma Conservation(limit: nat, tr: seq<State>, evs: seq<Event>, i: nat)
    requires IsRun(limit, tr, evs) && i < |tr|
    ensures tr[i].received == tr[i].sent + Memory(tr[i]) + tr[i].removed
    ensures tr[i].pc.Head? ==> tr[i].received == tr[i].sent + tr[i].list.live + tr[i].removed
  {
    RunInv(limit, tr, evs, i);
  }

  // ---------- Never early ----------

  /** The timer is never set to fire before the task in hand is due, and a task being sent is due. */
  ghost predicate DueInv(s: State) {
    && (forall t :: t in s.received ==> Near(t.execTime, s.clock))
    && (s.pc.Blocked? && s.hand.Some? ==> Instant(s.hand.value.execTime) <= s.pc.wake)
    && (s.pc.Sending? && s.hand.Some? ==> Instant(s.hand.value.execTime) <= s.clock)
  }

  lemma StepKeepsDueInv(limit: nat, s: State, s': State, e: Event)
    requires Inv(s) && Conserved(s) && DueInv(s) && Step(limit, s, s', e)
    requires forall t :: t in In(e) ==> Near(t.execTime, s'.clock)
    ensures DueInv(s')
  {
    hide Inv, Conserved, Until, Near, IsEarliest, DoPreload, DoPreloadMore, DoCancel, DoCancelMore;
    StaysNear(s.received, s.clock, s'.clock);
    ReceivedIsBooked(limit, s, s', e);
    if e.Take? && e.taken.Some? {
      TakenIsKnown(s, e.taken.value);
      SleepSufficesWhen(e.taken.value.execTime, s'.clock);
    } else {
      TimersStay(limit, s, s', e);
    }
  }

  lemma TakenIsKnown(s: State, t: Task)
    requires Conserved(s) && IsEarliest(s.list, t)
    ensures t in s.received
  {
    assert t in Memory(s);
  }

  lemma ReceivedIsBooked(limit: nat, s: State, s': State, e: Event)
    requires Step(limit, s, s', e)
    ensures s'.received == s.received + In(e)
  {
    hide Added, Deleted, CancelDrops, Until;
  }

  /** Only a Take sets a timer for a task, and only a Take or the timer leads to a send. */
  lemma TimersStay(limit: nat, s: State, s': State, e: Event)
    requires Step(limit, s, s', e) && !(e.Take? && e.taken.Some?)
    ensures !(s'.pc.Blocked? && s'.hand.Some?)
    ensures s'.pc.Sending? && s'.hand.Some? ==>
              e.TimerFires? && s.pc.Blocked? && s.pc.wake <= s'.clock && s'.hand == s.hand
  {
    hide Added, Deleted, CancelDrops, Until;
  }

  lemma StaysNear(ts: multiset<Task>, before: int, after: int)
    requires before <= after && forall t :: t in ts ==> Near(t.execTime, before)
    ensures forall t :: t in ts ==> Near(t.execTime, after)
  {
  }

  lemma {:induction false} RunDueInv(limit: nat, tr: seq<State>, evs: seq<Event>, i: nat)
    requires IsRun(limit, tr, evs) && i < |tr|
    requires forall k, t :: 0 <= k < i && t in In(evs[k]) ==> Near(t.execTime, tr[k + 1].clock)
    ensures DueInv(tr[i])
  {
    hide Step, Inv, Conserved, DueInv, Near, In;
    if i > 0 {
      RunDueInv(limit, tr, evs, i - 1);
      RunInv(limit, tr, evs, i - 1);
      StepKeepsDueInv(limit, tr[i - 1], tr[i], evs[i - 1]);
    } else {
      StartsDue(tr[0]);
    }
  }

  lemma StartsDue(s: State)
    requires Init(s)
    ensures DueInv(s)
  {
  }

  /**
   Never early: if every task is at most MAX_SECONDS ahead when it is read from the preload channel, every
   task is sent at or after the first instant of its exec second.
   */
  lemma NeverEarly(limit: nat, tr: seq<State>, evs: seq<Event>, i: nat)
    requires IsRun(limit, tr, evs) && i < |evs| && evs[i].Send?
    requires forall k, t :: 0 <= k < i && t in In(evs[k]) ==> Near(t.execTime, tr[k + 1].clock)
    ensures tr[i].hand.Some? && Instant(tr[i].hand.value.execTime) <= tr[i + 1].clock
  {
    hide Inv, In, Near, IsEarliest;
    RunDueInv(limit, tr, evs, i);
    assert Step(limit, tr[i], tr[i + 1], evs[i]);
  }

  /**
   The bound is exact: every task that is further ahead when it is read from the channel is sent early in
   some run, whatever the limit, the moment and the task: at once if the computed sleep is not positive,
   and after that sleep otherwise.
   */
  lemma FarTaskIsSentEarly(limit: nat, t: Task, now: int) returns (tr: seq<State>, evs: seq<Event>)
    requires !Near(t.execTime, now)
    ensures IsRun(limit, tr, evs) && |evs| >= 3 && evs[1] == Preloaded(t) && tr[2].clock == now
    ensures var n := |evs| - 1; evs[n].Send? && tr[n].hand == Some(t) && tr[n + 1].clock < Instant(t.execTime)
  {
    hide Near, Until;
    var held := Added(EMPTY, t);
    var sleep := Until(t.execTime, now);
    var s0 := State(EMPTY, None, Head, now, multiset{}, multiset{}, multiset{});
    var s1 := s0.(pc := Blocked(now + MAX_INT64));
    var s2 := s1.(list := held, pc := GreedyPreload(limit), received := multiset{t});
    var s3 := s2.(pc := Head);
    var s4 := s3.(list := Taken(held, t), hand := Some(t), pc := if sleep > 0 then Blocked(now + sleep) else Sending);
    SleepSufficesWhen(t.execTime, now);
    assert Step(limit, s0, s1, Take(None)) && Step(limit, s1, s2, Preloaded(t)) && Step(limit, s2, s3, GreedyEnds);
    assert Step(limit, s3, s4, Take(Some(t)));
    if sleep > 0 {
      var s5 := s4.(pc := Sending, clock := now + sleep);
      var s6 := s5.(hand := None, pc := Head, sent := multiset{t});
      assert Step(limit, s4, s5, TimerFires) && Step(limit, s5, s6, Send);
      tr, evs := [s0, s1, s2, s3, s4, s5, s6], [Take(None), Preloaded(t), GreedyEnds, Take(Some(t)), TimerFires, Send];
    } else {
      var s5 := s4.(hand := None, pc := Head, sent := multiset{t});
      assert Step(limit, s4, s5, Send);
      tr, evs := [s0, s1, s2, s3, s4, s5], [Take(None), Preloaded(t), GreedyEnds, Take(Some(t)), Send];
    }
  }

  // ---------- Never late ----------

  /** The timer of the task in hand fires within its exec second at the latest. */
  ghost predicate PromptInv(s: State) {
    s.pc.Blocked? && s.hand.Some? ==> s.pc.wake < Instant(s.hand.value.execTime) + SECOND
  }

  lemma StepKeepsPromptInv(limit: nat, s: State, s': State, e: Event)
    requires PromptInv(s) && Step(limit, s, s', e)
    requires e.Take? && e.taken.Some? ==> !Ancient(e.taken.value.execTime, s'.clock)
    ensures PromptInv(s')
    ensures e.Take? && e.taken.Some? && e.taken.value.execTime <= Unix(s'.clock) ==>
              s'.pc.Sending? && s'.hand == e.taken
  {
    hide Until, IsEarliest, Ancient, DoPreload, DoPreloadMore, DoCancel, DoCancelMore, Unix;
    if e.Take? && e.taken.Some? {
      SleepIsPromptWhen(e.taken.value.execTime, s'.clock);
      if e.taken.value.execTime <= Unix(s'.clock) {
        BegunIsDue(e.taken.value.execTime, s'.clock);
      }
    } else {
      TimersStay(limit, s, s', e);
    }
  }

  lemma ColumnsAreNotAncient(limit: nat, s: State, s': State, e: Event)
    requires Conserved(s) && Step(limit, s, s', e) && e.Take? && e.taken.Some?
    requires SaneClock(s'.clock) && forall t :: t in s.received ==> FitsColumn(t.execTime)
    ensures !Ancient(e.taken.value.execTime, s'.clock)
  {
    hide Until;
    TakenIsKnown(s, e.taken.value);
  }

  lemma {:induction false} RunPromptInv(limit: nat, tr: seq<State>, evs: seq<Event>, i: nat)
    requires IsRun(limit, tr, evs) && i < |tr|
    requires forall k :: 0 <= k <= i ==> SaneClock(tr[k].clock)
    requires forall t :: t in tr[i].received ==> FitsColumn(t.execTime)
    ensures PromptInv(tr[i])
    ensures i > 0 && evs[i - 1].Take? && evs[i - 1].taken.Some?
            && evs[i - 1].taken.value.execTime <= Unix(tr[i].clock) ==>
              tr[i].pc.Sending? && tr[i].hand == evs[i - 1].taken
  {
    hide Step, Inv, Conserved, PromptInv, SaneClock, FitsColumn, Ancient, Init;
    if i > 0 {
      var e := evs[i - 1];
      ReceivedGrows(limit, tr[i - 1], tr[i], e);
      RunPromptInv(limit, tr, evs, i - 1);
      RunInv(limit, tr, evs, i - 1);
      if e.Take? && e.taken.Some? {
        ColumnsAreNotAncient(limit, tr[i - 1], tr[i], e);
      }
      StepKeepsPromptInv(limit, tr[i - 1], tr[i], e);
    } else {
      StartsPrompt(tr[0]);
    }
  }

  lemma StartsPrompt(s: State)
    requires Init(s)
    ensures PromptInv(s)
  {
  }

  /**
   Never late: for exec times that fit the column, the loop sleeps no longer than into the exec second of any
   task in its memory, and a task whose second has begun when it is taken is sent without a sleep.
   */
  lemma NeverLate(limit: nat, tr: seq<State>, evs: seq<Event>, i: nat)
    requires IsRun(limit, tr, evs) && i < |tr|
    requires forall k :: 0 <= k <= i ==> SaneClock(tr[k].clock)
    requires forall t :: t in tr[i].received ==> FitsColumn(t.execTime)
    ensures tr[i].pc.Blocked? ==>
              forall t :: t in Memory(tr[i]) ==> tr[i].hand.Some? && tr[i].pc.wake < Instant(t.execTime) + SECOND
    ensures i > 0 && evs[i - 1].Take? && evs[i - 1].taken.Some?
            && evs[i - 1].taken.value.execTime <= Unix(tr[i].clock) ==>
              tr[i].pc.Sending? && tr[i].hand == evs[i - 1].taken
  {
    hide Step, Conserved, SaneClock, FitsColumn;
    RunInv(limit, tr, evs, i);
    RunPromptInv(limit, tr, evs, i);
    RunHolds(limit, tr, evs, i);
  }

  /** A loop that blocks without a task has an empty list. */
  ghost predicate HoldsInv(s: State) {
    s.pc.Blocked? && s.hand.None? ==> s.list.live == multiset{}
  }

  lemma StepKeepsHolds(limit: nat, s: State, s': State, e: Event)
    requires Step(limit, s, s', e)
    ensures HoldsInv(s')
  {
    hide Until, IsEarliest, Added, Deleted;
  }

  lemma RunHolds(limit: nat, tr: seq<State>, evs: seq<Event>, i: nat)
    requires IsRun(limit, tr, evs) && i < |tr|
    ensures HoldsInv(tr[i])
  {
    hide Step;
    if i > 0 {
      StepKeepsHolds(limit, tr[i - 1], tr[i], evs[i - 1]);
    }
  }

  /** Whenever the timer of a task may fire, it leads to the send of that task. */
  lemma TimerLeadsToSend(limit: nat, s: State, now: int) returns (s1: State, s2: State)
    requires s.pc.Blocked? && s.hand.Some? && s.pc.wake <= now && s.clock <= now
    ensures Step(limit, s, s1, TimerFires) && Step(limit, s1, s2, Send)
    ensures s2.clock == now && s2.pc.Head? && s2.sent == s.sent + multiset{s.hand.value} && s2.list == s.list
  {
    s1 := s.(pc := Sending, clock := now);
    s2 := s1.(hand := None, pc := Head, sent := s.sent + multiset{s.hand.value});
  }

  /** Whenever the loop is in its select, it accepts any task and any cancel. */
  lemma SelectAccepts(limit: nat, s: State, task: Task, id: string) returns (s1: State, s2: State)
    requires s.pc.Blocked?
    ensures Step(limit, s, s1, Preloaded(task)) && Memory(s1) == Memory(s) + multiset{task}
    ensures Step(limit, s, s2, Cancelled(id))
  {
    s1 := s.(list := Added(PutBack(s.list, s.hand), task), hand := None, pc := GreedyPreload(limit),
             received := s.received + multiset{task});
    s2 := s.(list := Deleted(CancelTarget(s, id), id), hand := None, pc := GreedyCancel(limit),
             removed := s.removed + CancelDrops(s, id));
  }

  /** Anywhere else it can go on at once, without waiting for anybody but the reader of the ready channel. */
  lemma LoopGoesOn(limit: nat, s: State) returns (s': State, e: Event)
    requires Inv(s) && !s.pc.Blocked? && !s.pc.Crashed?
    ensures Step(limit, s, s', e) && s'.clock == s.clock && (e.Take? || e.Send? || e.GreedyEnds?)
  {
    match s.pc
    case Head =>
      if s.list.live == multiset{} {
        e := Take(None);
      } else {
        var t := Earliest(s.list.live);
        e := Take(Some(t));
      }
      var sleep := Sleep(e.taken, s.clock);
      s' := s.(list := if e.taken.Some? then Taken(s.list, e.taken.value) else s.list, hand := e.taken,
               pc := if sleep > 0 then Blocked(s.clock + sleep) else Sending);
    case Sending =>
      e := Send;
      s' := s.(hand := None, pc := Head, sent := s.sent + multiset{s.hand.value});
    case _ =>
      e := GreedyEnds;
      s' := s.(pc := Head);
  }

  lemma {:induction false} Earliest(ts: multiset<Task>) returns (t: Task)
    requires ts != multiset{}
    ensures t in ts && forall u :: u in ts ==> t.execTime <= u.execTime
    decreases |ts|
  {
    t :| t in ts;
    var rest := ts - multiset{t};
    if rest != multiset{} {
      var u := Earliest(rest);
      assert forall v :: v in ts ==> v == t || v in rest;
      if u.execTime < t.execTime {
        t := u;
      }
    } else {
      assert forall v :: v in ts ==> v == t || v in rest;
    }
  }

  // ---------- The idle timer ----------

  /** The timer of a loop without a task fires no earlier than the maximal duration after the start. */
  ghost predicate IdleInv(s: State, start: int) {
    start <= s.clock && !s.pc.Crashed? && (s.pc.Blocked? && s.hand.None? ==> start + MAX_INT64 <= s.pc.wake)
  }

  lemma StepKeepsIdleInv(limit: nat, s: State, s': State, e: Event, start: int)
    requires IdleInv(s, start) && Step(limit, s, s', e) && s'.clock < start + MAX_INT64
    ensures IdleInv(s', start)
  {
    hide Until, IsEarliest;
  }

  /** The loop never sends a nil task, as long as it has run for less than the maximal duration. */
  lemma {:induction false} NoNilTask(limit: nat, tr: seq<State>, evs: seq<Event>, i: nat)
    requires IsRun(limit, tr, evs) && i < |tr|
    requires forall k :: 0 <= k <= i ==> tr[k].clock < tr[0].clock + MAX_INT64
    ensures !tr[i].pc.Crashed? && IdleInv(tr[i], tr[0].clock)
  {
    hide Step;
    if i > 0 {
      NoNilTask(limit, tr, evs, i - 1);
      StepKeepsIdleInv(limit, tr[i - 1], tr[i], evs[i - 1], tr[0].clock);
    }
  }

  /** After that, the maximal idle timer may fire, and the loop dereferences a nil task. */
  lemma IdleTimerCrashes(limit: nat, start: int, end: int) returns (tr: seq<State>, evs: seq<Event>)
    requires start + MAX_INT64 <= end
    ensures IsRun(limit, tr, evs) && tr[0].clock == start && tr[|evs|].clock == end && tr[|evs|].pc.Crashed?
  {
    var s0 := State(EMPTY, None, Head, start, multiset{}, multiset{}, multiset{});
    var s1 := s0.(pc := Blocked(start + MAX_INT64));
    var s2 := s1.(pc := Crashed, clock := end);
    assert Step(limit, s0, s1, Take(None)) && Step(limit, s1, s2, TimerFires);
    tr, evs := [s0, s1, s2], [Take(None), TimerFires];
  }

  lemma ReceivedGrows(limit: nat, s: State, s': State, e: Event)
    requires Step(limit, s, s', e)
    ensures forall t :: t in s.received || t in In(e) ==> t in s'.received
  {
  }

  /** Exec times that fit the column are near at all times since 1970. */
  lemma {:induction false} ColumnsAreNear(limit: nat, tr: seq<State>, evs: seq<Event>, i: nat)
    requires IsRun(limit, tr, evs) && i < |tr|
    requires forall k :: 0 <= k <= i ==> SaneClock(tr[k].clock)
    requires forall t :: t in tr[i].received ==> FitsColumn(t.execTime)
    ensures forall k, t :: 0 <= k < i && t in In(evs[k]) ==> Near(t.execTime, tr[k + 1].clock)
  {
    hide Step, In;
    if i > 0 {
      ReceivedGrows(limit, tr[i - 1], tr[i], evs[i - 1]);
      ColumnsAreNear(limit, tr, evs, i - 1);
    }
  }

  // ---------- Order over whole runs ----------

  /** Task a leaves the memory of the goroutine between points i and j, by a send or by a cancel. */
  ghost predicate LeavesBetween(tr: seq<State>, evs: seq<Event>, i: nat, j: nat, a: Task)
    requires j <= |evs| && |tr| == |evs| + 1
  {
    exists k :: i <= k < j && Leaves(tr[k], evs[k], a)
  }

  predicate Leaves(s: State, e: Event, a: Task) {
    a in Out(s, e) || a in Drops(s, e)
  }

  lemma {:induction false} StaysUntil(limit: nat, tr: seq<State>, evs: seq<Event>, i: nat, j: nat, a: Task)
    requires IsRun(limit, tr, evs) && i <= j <= |evs|
    requires a in Memory(tr[i]) && !LeavesBetween(tr, evs, i, j, a)
    ensures a in Memory(tr[j])
    decreases j
  {
    hide Step, Inv, Conserved, Memory, In, Out, Drops;
    if i < j {
      StaysUntil(limit, tr, evs, i, j - 1, a);
      RunInv(limit, tr, evs, j - 1);
      StepKeepsInv(limit, tr[j - 1], tr[j], evs[j - 1]);
      assert !Leaves(tr[j - 1], evs[j - 1], a);
      assert a in Memory(tr[j - 1]) + In(evs[j - 1]);
    }
  }

  /**
   Order: if task a is in memory at some point of a run and a task with a later exec time is sent
   afterwards, then a was sent or cancelled before that send. This covers tasks that were in memory
   together with a as well as tasks that arrive later.
   */
  lemma SentInOrder(limit: nat, tr: seq<State>, evs: seq<Event>, i: nat, j: nat, a: Task)
    requires IsRun(limit, tr, evs) && i <= j < |evs|
    requires a in Memory(tr[i])
    requires evs[j].Send? && tr[j].hand.Some? && a.execTime < tr[j].hand.value.execTime
    ensures LeavesBetween(tr, evs, i, j, a)
  {
    if !LeavesBetween(tr, evs, i, j, a) {
      StaysUntil(limit, tr, evs, i, j, a);
      RunInv(limit, tr, evs, j);
      assert false;
    }
  }

  // ---------- Bounded inattention ----------

  function GreedyLeft(s: State): nat {
    if s.pc.GreedyPreload? then s.pc.left else 0
  }

  /** How many tasks the loop can still send before it listens again. */
  function Potential(s: State): nat {
    |Memory(s)| + GreedyLeft(s)
  }

  function SendCount(evs: seq<Event>): nat {
    if evs == [] then 0
    else SendCount(evs[..|evs| - 1]) + if evs[|evs| - 1].Send? then 1 else 0
  }

  lemma GreedyLeftShrinks(limit: nat, s: State, s': State, e: Event)
    requires Step(limit, s, s', e) && Inv(s)
    ensures !s.pc.Blocked? ==> GreedyLeft(s') + |In(e)| <= GreedyLeft(s)
    ensures s.pc.Blocked? ==> GreedyLeft(s') <= limit && |In(e)| <= 1
    ensures e.Send? ==> |Out(s, e)| == 1
  {
  }

  lemma StepUsesPotential(limit: nat, s: State, s': State, e: Event)
    requires Inv(s) && Step(limit, s, s', e)
    ensures !s.pc.Blocked? ==> Potential(s') + (if e.Send? then 1 else 0) <= Potential(s)
    ensures s.pc.Blocked? ==> Potential(s') <= Potential(s) + 1 + limit
  {
    hide Step, Inv, GreedyLeft, Memory, In, Out, Drops;
    GreedyLeftShrinks(limit, s, s', e);
    StepKeepsInv(limit, s, s', e);
    assert |Memory(s)| + |In(e)| == |Memory(s) + In(e)|;
    assert |Memory(s')| + |Out(s, e)| + |Drops(s, e)| == |Memory(s') + Out(s, e) + Drops(s, e)|;
  }

  /**
   Bounded inattention: along any stretch of a run in which the loop does not reach the select
   that listens for preloads and cancels, it sends at most as many tasks as it holds at the start
   of the stretch (plus those a greedy loop under way may still read).
   */
  lemma {:induction false} BoundedInattention(limit: nat, tr: seq<State>, evs: seq<Event>)
    requires IsPath(limit, tr, evs) && Inv(tr[0])
    requires forall k :: 0 <= k < |evs| ==> !tr[k].pc.Blocked?
    ensures SendCount(evs) + Potential(tr[|evs|]) <= Potential(tr[0])
    ensures Inv(tr[|evs|])
  {
    hide Step, Inv, Moves, Potential;
    if evs != [] {
      var n := |evs| - 1;
      var tr', evs' := tr[..|tr| - 1], evs[..n];
      assert forall i :: 0 <= i < |evs'| ==> Step(limit, tr[i], tr[i + 1], evs[i]);
      BoundedInattention(limit, tr', evs');
      StepUsesPotential(limit, tr[n], tr[n + 1], evs[n]);
      StepKeepsInv(limit, tr[n], tr[n + 1], evs[n]);
    }
  }

  /** A select adds at most one task, and its greedy loop at most limit more. */
  lemma SelectAddsBounded(limit: nat, s: State, s': State, e: Event)
    requires Inv(s) && Step(limit, s, s', e) && s.pc.Blocked?
    ensures Potential(s') <= Potential(s) + 1 + limit
  {
    StepUsesPotential(limit, s, s', e);
  }

  // ---------- Cancels ----------

  /** Some copy of id is in the list or in hand. */
  ghost predicate InMemory(s: State, id: string) {
    exists t :: t in Memory(s) && t.id == id
  }

  /** A cancel of id handled in state s finds a copy to drop. */
  ghost predicate Findable(s: State, id: string) {
    id in s.list.indexed || (s.hand.Some? && s.hand.value.id == id)
  }

  ghost predicate IsCancelOf(e: Event, id: string) {
    e == Cancelled(id) || e == CancelledMore(id)
  }

  /**
   What a handled cancel does: it drops exactly one copy of the id if one is findable and nothing
   otherwise. No other task is dropped.
   */
  lemma CancelIsExact(limit: nat, s: State, s': State, e: Event, id: string)
    requires Inv(s) && Step(limit, s, s', e) && IsCancelOf(e, id)
    ensures Memory(s) == Memory(s') + Drops(s, e) && s'.removed == s.removed + Drops(s, e)
    ensures forall t :: t in Drops(s, e) ==> t.id == id
    ensures |Drops(s, e)| == if Findable(s, id) then 1 else 0
  {
    hide Drops, Memory, Findable;
    CancelDropsOne(s, e, id);
    StepKeepsInv(limit, s, s', e);
    assert In(e) == multiset{} && Out(s, e) == multiset{};
    assert Memory(s) + In(e) == Memory(s) && Memory(s') + Out(s, e) == Memory(s');
  }

  lemma CancelDropsOne(s: State, e: Event, id: string)
    requires Inv(s) && IsCancelOf(e, id) && (e.CancelledMore? ==> s.hand.None?)
    ensures forall t :: t in Drops(s, e) ==> t.id == id
    ensures |Drops(s, e)| == if Findable(s, id) then 1 else 0
  {
  }

  /** Equal ids mean equal tasks: the id of a task is not used again with another exec time. */
  ghost predicate SameTimes(ts: multiset<Task>) {
    forall t, u :: t in ts && u in ts && t.id == u.id ==> t == u
  }

  /**
   A copy in the list that its id no longer leads to is either a twin of the task in hand, or due,
   or a twin of a copy that an earlier cancel has dropped. While the loop listens it is not due.
   */
  ghost predicate OrphanInv(s: State) {
    forall t :: t in s.list.live ==>
      || Findable(s, t.id)
      || t in s.removed
      || ((s.pc.Head? || s.pc.Sending?) && Instant(t.execTime) <= s.clock)
  }

  lemma TakeKeepsOrphanInv(s: State, s': State, task: Option<Task>)
    requires Inv(s) && Conserved(s) && OrphanInv(s) && Step(0, s, s', Take(task)) && SaneClock(s'.clock)
    requires forall t :: t in s.received ==> FitsColumn(t.execTime)
    ensures OrphanInv(s')
  {
    if task.Some? {
      assert task.value in s.received;
      ColumnsNeverOverflow(task.value.execTime, s'.clock);
      forall t | t in s'.list.live
        ensures Findable(s', t.id) || t in s'.removed || (s'.pc.Sending? && Instant(t.execTime) <= s'.clock)
      {
        assert t in s.list.live;
        if !Findable(s', t.id) && t !in s'.removed {
          BegunBy(t.execTime, s'.clock);
          BegunBy(task.value.execTime, s'.clock);
        }
      }
    }
  }

  lemma CancelKeepsOrphanInv(limit: nat, s: State, s': State, e: Event, id: string)
    requires Inv(s) && Conserved(s) && OrphanInv(s) && SameTimes(s.received)
    requires Step(limit, s, s', e) && IsCancelOf(e, id)
    ensures OrphanInv(s')
  {
    CancelIsExact(limit, s, s', e, id);
    forall t | t in s'.list.live
      ensures Findable(s', t.id) || t in s'.removed
    {
      if t.id == id {
        CancelLeavesTwins(s, s', e, t);
      } else {
        CancelLeavesOthers(limit, s, s', e, id, t);
      }
    }
  }

  /** A copy of the cancelled id that stays is a twin of the one dropped. */
  lemma CancelLeavesTwins(s: State, s': State, e: Event, t: Task)
    requires Conserved(s) && OrphanInv(s) && SameTimes(s.received) && !s.pc.Head? && !s.pc.Sending?
    requires Memory(s) == Memory(s') + Drops(s, e) && s'.removed == s.removed + Drops(s, e)
    requires forall d :: d in Drops(s, e) ==> d.id == t.id
    requires |Drops(s, e)| == if Findable(s, t.id) then 1 else 0
    requires t in s'.list.live
    ensures t in s'.removed
  {
    hide Drops;
    assert t in Memory(s') && t in Memory(s) && t in s.received;
    if Findable(s, t.id) {
      var d :| d in Drops(s, e);
      assert d in Memory(s) && d in s.received;
    } else {
      assert t in s.list.live;
    }
  }

  lemma CancelLeavesOthers(limit: nat, s: State, s': State, e: Event, id: string, t: Task)
    requires OrphanInv(s) && Step(limit, s, s', e) && IsCancelOf(e, id)
    requires s.pc.GreedyCancel? ==> s.hand.None?
    requires t in s'.list.live && t.id != id
    ensures Findable(s', t.id) || t in s'.removed
  {
    hide Step, Findable;
    OthersFindable(limit, s, s', e, id, t.id);
    CancelBringsNothing(limit, s, s', e, id, t);
  }

  lemma CancelBringsNothing(limit: nat, s: State, s': State, e: Event, id: string, t: Task)
    requires Step(limit, s, s', e) && IsCancelOf(e, id) && t in s'.list.live
    ensures t in s.list.live || Findable(s, t.id)
    ensures s.pc.Blocked? || s.pc.GreedyCancel?
    ensures forall u :: u in s.removed ==> u in s'.removed
  {
  }

  lemma OthersFindable(limit: nat, s: State, s': State, e: Event, id: string, other: string)
    requires Step(limit, s, s', e) && IsCancelOf(e, id) && other != id
    requires s.pc.GreedyCancel? ==> s.hand.None?
    ensures Findable(s, other) ==> Findable(s', other)
  {
    hide DoTake, DoTimer, DoPreload, DoPreloadMore, DoSend;
  }

  lemma PreloadKeepsOrphanInv(limit: nat, s: State, s': State, task: Task)
    requires Inv(s) && OrphanInv(s) && (DoPreload(limit, s, s', task) || DoPreloadMore(s, s', task))
    ensures OrphanInv(s')
  {
    forall t | t in s'.list.live
      ensures Findable(s', t.id) || t in s'.removed
    {
      assert t in s.list.live || t.id in s'.list.indexed;
    }
  }

  lemma SendKeepsOrphanInv(s: State, s': State)
    requires Conserved(s) && DueInv(s) && OrphanInv(s) && DoSend(s, s') && SameTimes(s.received)
    requires s.clock <= s'.clock
    ensures OrphanInv(s')
  {
    forall t | t in s'.list.live
      ensures Findable(s', t.id) || t in s'.removed || Instant(t.execTime) <= s'.clock
    {
      assert s.hand.value in Memory(s) && t in Memory(s);
      assert s.hand.value in s.received && t in s.received;
    }
  }

  lemma StepKeepsOrphanInv(limit: nat, s: State, s': State, e: Event)
    requires Inv(s) && Conserved(s) && DueInv(s) && OrphanInv(s) && Step(limit, s, s', e)
    requires SaneClock(s'.clock) && SameTimes(s.received) && forall t :: t in s.received ==> FitsColumn(t.execTime)
    ensures OrphanInv(s')
  {
    hide Conserved, SameTimes, SaneClock, DueInv;
    match e
    case Take(taken) => TakeKeepsOrphanInv(s, s', taken);
    case Cancelled(id) => CancelKeepsOrphanInv(limit, s, s', e, id);
    case CancelledMore(id) => CancelKeepsOrphanInv(limit, s, s', e, id);
    case Preloaded(task) => PreloadKeepsOrphanInv(limit, s, s', task);
    case PreloadedMore(task) => PreloadKeepsOrphanInv(limit, s, s', task);
    case Send => SendKeepsOrphanInv(s, s');
    case _ => QuietKeepsOrphanInv(s, s', e);
  }

  lemma QuietKeepsOrphanInv(s: State, s': State, e: Event)
    requires OrphanInv(s) && s' == s.(pc := s'.pc, clock := s'.clock) && s.clock <= s'.clock
    requires !s.pc.Head? && !s.pc.Sending?
    ensures OrphanInv(s')
  {
  }

  lemma StartsWithoutOrphans(s: State)
    ensures Init(s) ==> OrphanInv(s)
  {
  }

  lemma {:induction false} RunOrphanInv(limit: nat, tr: seq<State>, evs: seq<Event>, i: nat)
    requires IsRun(limit, tr, evs) && i < |tr|
    requires forall k :: 0 <= k <= i ==> SaneClock(tr[k].clock)
    requires SameTimes(tr[i].received) && forall t :: t in tr[i].received ==> FitsColumn(t.execTime)
    ensures OrphanInv(tr[i])
  {
    hide Step, OrphanInv, SaneClock, FitsColumn, In;
    StartsWithoutOrphans(tr[0]);
    if i > 0 {
      ReceivedGrows(limit, tr[i - 1], tr[i], evs[i - 1]);
      RunOrphanInv(limit, tr, evs, i - 1);
      OrphanInvNext(limit, tr, evs, i - 1);
    }
  }

  lemma OrphanInvNext(limit: nat, tr: seq<State>, evs: seq<Event>, i: nat)
    requires IsRun(limit, tr, evs) && i < |evs| && OrphanInv(tr[i])
    requires forall k :: 0 <= k <= i + 1 ==> SaneClock(tr[k].clock)
    requires SameTimes(tr[i].received) && forall t :: t in tr[i].received ==> FitsColumn(t.execTime)
    ensures OrphanInv(tr[i + 1])
  {
    hide Step, Inv, Conserved, DueInv, OrphanInv, Init, SaneClock, FitsColumn, SameTimes, Near, In;
    RunInv(limit, tr, evs, i);
    ColumnsAreNear(limit, tr, evs, i);
    RunDueInv(limit, tr, evs, i);
    StepKeepsOrphanInv(limit, tr[i], tr[i + 1], evs[i]);
  }

  /**
   While the loop listens, every id that is in memory and was not cancelled before is findable, even
   when the same task was preloaded twice and one copy has already been sent.
   */
  lemma CancelFinds(limit: nat, tr: seq<State>, evs: seq<Event>, i: nat, id: string)
    requires IsRun(limit, tr, evs) && i < |evs| && IsCancelOf(evs[i], id)
    requires forall k :: 0 <= k <= i ==> SaneClock(tr[k].clock)
    requires SameTimes(tr[i].received) && forall t :: t in tr[i].received ==> FitsColumn(t.execTime)
    requires forall t :: t in tr[i].removed ==> t.id != id
    ensures Findable(tr[i], id) <==> InMemory(tr[i], id)
  {
    hide Step, Inv, Conserved, OrphanInv, Findable, InMemory, SaneClock, FitsColumn, SameTimes;
    RunInv(limit, tr, evs, i);
    RunOrphanInv(limit, tr, evs, i);
    ListeningFinds(limit, tr[i], tr[i + 1], evs[i], id);
  }

  lemma ListeningFinds(limit: nat, s: State, s': State, e: Event, id: string)
    requires Inv(s) && OrphanInv(s) && Step(limit, s, s', e) && IsCancelOf(e, id)
    requires forall t :: t in s.removed ==> t.id != id
    ensures Findable(s, id) <==> InMemory(s, id)
  {
    hide DoTake, DoTimer, DoPreload, DoPreloadMore, DoSend;
    if Findable(s, id) {
      var t := if id in s.list.indexed then Task(id, s.list.indexed[id]) else s.hand.value;
      assert t in Memory(s) && t.id == id;
    }
  }

  ghost predicate BringsIn(e: Event, id: string) {
    (e.Preloaded? || e.PreloadedMore?) && e.task.id == id
  }

  lemma {:induction false} AbsentUntilPreloaded(limit: nat, tr: seq<State>, evs: seq<Event>, i: nat, j: nat, id: string)
    requires IsRun(limit, tr, evs) && i <= j < |tr|
    requires !InMemory(tr[i], id) && forall k :: i <= k < j ==> !BringsIn(evs[k], id)
    ensures !InMemory(tr[j], id)
    decreases j
  {
    if i < j {
      AbsentUntilPreloaded(limit, tr, evs, i, j - 1, id);
      RunInv(limit, tr, evs, j - 1);
      StepKeepsInv(limit, tr[j - 1], tr[j], evs[j - 1]);
      forall t | t in Memory(tr[j])
        ensures t.id != id
      {
        assert t in Memory(tr[j - 1]) + In(evs[j - 1]);
      }
    }
  }

  /** Task t is in memory, and nothing else of its id is. */
  ghost predicate SingleCopy(s: State, t: Task) {
    Memory(s)[t] == 1 && forall u :: u in Memory(s) && u.id == t.id ==> u == t
  }

  /**
   Effective cancel: when a cancel is handled for an id whose single copy is in memory, and the id leads to it,
   no later step sends that id unless it is preloaded again; if the id does not lead to it, it stays in
   memory. CancelFinds says when an id leads to its copy.
   */
  lemma EffectiveCancel(limit: nat, tr: seq<State>, evs: seq<Event>, i: nat, j: nat, t: Task)
    requires IsRun(limit, tr, evs) && i < j < |evs| && IsCancelOf(evs[i], t.id) && SingleCopy(tr[i], t)
    requires forall k :: i < k < j ==> !BringsIn(evs[k], t.id)
    ensures Findable(tr[i], t.id) ==> !(evs[j].Send? && tr[j].hand.Some? && tr[j].hand.value.id == t.id)
    ensures InMemory(tr[i + 1], t.id) <==> !Findable(tr[i], t.id)
  {
    hide Step, Findable, Inv, Conserved, Drops;
    RunInv(limit, tr, evs, i);
    assert Step(limit, tr[i], tr[i + 1], evs[i]);
    CancelIsExact(limit, tr[i], tr[i + 1], evs[i], t.id);
    if Findable(tr[i], t.id) {
      SingleCopyGoes(tr[i], tr[i + 1], Drops(tr[i], evs[i]), t);
      AbsentUntilPreloaded(limit, tr, evs, i + 1, j, t.id);
      if tr[j].hand.Some? {
        assert tr[j].hand.value in Memory(tr[j]);
      }
    } else {
      assert t in Memory(tr[i]);
      assert t in Memory(tr[i + 1]);
    }
  }

  lemma SingleCopyGoes(s: State, s': State, drops: multiset<Task>, t: Task)
    requires SingleCopy(s, t) && Memory(s) == Memory(s') + drops && |drops| == 1
    requires forall d :: d in drops ==> d.id == t.id
    ensures !InMemory(s', t.id)
  {
    hide Memory;
    var d :| d in drops;
    assert d in Memory(s);
    forall u | u in Memory(s')
      ensures u.id != t.id
    {
      assert u in Memory(s);
      assert u == t ==> Memory(s)[t] >= 2;
    }
  }

  // A run in which the id of a sent task is used again while both copies are in memory.

  const FIRST := Task("x", 1)
  const AGAIN := Task("x", 100)
  const OTHER := Task("u", 50)
  const NONE: multiset<Task> := multiset{}

  const R0 := State(EMPTY, None, Head, 2 * SECOND, NONE, NONE, NONE)
  const R1 := R0.(pc := Blocked(2 * SECOND + MAX_INT64))
  const R2 := R1.(list := TaskList(multiset{FIRST}, map["x" := 1]), pc := GreedyPreload(2),
                  received := multiset{FIRST})
  const R3 := R2.(list := TaskList(multiset{FIRST, AGAIN}, map["x" := 100]), pc := GreedyPreload(1),
                  received := multiset{FIRST, AGAIN})
  const R4 := R3.(list := TaskList(multiset{FIRST, AGAIN, OTHER}, map["x" := 100, "u" := 50]),
                  pc := GreedyPreload(0), received := multiset{FIRST, AGAIN, OTHER})
  const R5 := R4.(pc := Head)
  const R6 := R5.(list := TaskList(multiset{AGAIN, OTHER}, map["u" := 50]), hand := Some(FIRST), pc := Sending)
  const R7 := R6.(hand := None, pc := Head, sent := multiset{FIRST})
  const R8 := R7.(list := TaskList(multiset{AGAIN}, map[]), hand := Some(OTHER), pc := Blocked(50 * SECOND))
  const R9 := R8.(list := TaskList(multiset{AGAIN, OTHER}, map["u" := 50]), hand := None, pc := GreedyCancel(2))

  lemma ReusedIdArrives()
    ensures Step(2, R0, R1, Take(None)) && Step(2, R1, R2, Preloaded(FIRST))
    ensures Step(2, R2, R3, PreloadedMore(AGAIN))
  {
    assert R2.list == Added(EMPTY, FIRST);
    assert R3.list == Added(R2.list, AGAIN);
  }

  lemma AnotherArrives()
    ensures Step(2, R3, R4, PreloadedMore(OTHER))
  {
    assert R4.list == Added(R3.list, OTHER);
  }

  lemma FirstCopyIsSent()
    ensures Step(2, R4, R5, GreedyEnds) && Step(2, R5, R6, Take(Some(FIRST))) && Step(2, R6, R7, Send)
  {
    assert R6.list == Taken(R5.list, FIRST);
  }

  lemma SecondCopyIsMissed()
    ensures Step(2, R7, R8, Take(Some(OTHER)))
  {
    assert R8.list == Taken(R7.list, OTHER);
  }

  lemma CancelMissesIt()
    ensures Step(2, R8, R9, Cancelled("x"))
  {
    assert R9.list == Added(R8.list, OTHER) == Deleted(Added(R8.list, OTHER), "x");
    assert CancelDrops(R8, "x") == NONE;
  }

  /**
   When an id is used again with another exec time the property fails: this run handles a cancel
   for an id whose single copy is in the list, and the copy stays.
   */
  lemma ReusedIdHidesItsCopy() returns (tr: seq<State>, evs: seq<Event>)
    ensures IsRun(2, tr, evs) && |evs| == 9 && evs[8] == Cancelled("x")
    ensures Memory(tr[8]) == multiset{AGAIN, OTHER} && tr[8].removed == multiset{}
    ensures AGAIN in Memory(tr[9])
  {
    hide Step;
    tr := [R0, R1, R2, R3, R4, R5, R6, R7, R8, R9];
    evs := [Take(None), Preloaded(FIRST), PreloadedMore(AGAIN), PreloadedMore(OTHER), GreedyEnds,
            Take(Some(FIRST)), Send, Take(Some(OTHER)), Cancelled("x")];
    ReusedIdArrives();
    AnotherArrives();
    FirstCopyIsSent();
    SecondCopyIsMissed();
    CancelMissesIt();
    assert Memory(R8) == multiset{AGAIN, OTHER};
  }
}
