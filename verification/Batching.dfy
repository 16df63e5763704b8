/**
 generateBatch: a producer goroutine that cuts the stream of tasks to confirm into batches, a
 forwarder goroutine that passes the batches on, a queue between them, and a wakeup channel that
 can hold one token.
 */
module Batching {
  import opened Tasks

  /** Where the producer is: in its select, about to push, testing the channel, about to send, or gone. */
  datatype Producer = Collecting | Pushing | Testing | Signalling | Stopped

  /** Where the forwarder is: about to pop, waiting for a token, sending a batch, or gone. */
  datatype Forwarder = Popping | Receiving | Emitting(batch: seq<Task>) | Finished

  datatype State = State(
    producer: Producer,
    forwarder: Forwarder,
    batch: seq<Task>,              // the partial batch
    queue: seq<seq<Task>>,
    token: bool,                   // updateQueue holds its one token
    emitted: seq<seq<Task>>,       // all batches sent on the outgoing channel
    read: seq<Task>)               // all tasks read from the incoming channel

  datatype Event =
    | Read(task: Task)
    | Expire
    | InputClosed
    | Push
    | Test
    | Signal
    | Pop
    | Receive
    | Finish
    | Emit

  ghost predicate Init(s: State) {
    s == State(Collecting, Popping, [], [], false, [], [])
  }

  ghost predicate ProducerStep(max: nat, s: State, s': State, e: Event) {
    match e
    case Read(task) =>
      && s.producer.Collecting?
      && var batch := s.batch + [task];
         s' == s.(batch := batch, read := s.read + [task],
                  producer := if |batch| == max then Pushing else Collecting)
    case Expire =>
      && s.producer.Collecting?
      && s' == s.(producer := if |s.batch| > 0 then Pushing else Collecting)
    case InputClosed =>
      && s.producer.Collecting?
      && s' == s.(producer := Stopped)
    case Push =>
      && s.producer.Pushing?
      && s' == s.(producer := Testing, queue := s.queue + [s.batch], batch := [])
    case Test =>
      && s.producer.Testing?
      && s' == s.(producer := if s.token then Collecting else Signalling)
    case Signal =>
      && s.producer.Signalling? && !s.token
      && s' == s.(producer := Collecting, token := true)
    case _ => false
  }

  ghost predicate ForwarderStep(s: State, s': State, e: Event) {
    match e
    case Pop =>
      && s.forwarder.Popping?
      && s' == if s.queue == [] then s.(forwarder := Receiving)
               else s.(forwarder := Emitting(s.queue[0]), queue := s.queue[1..])
    case Receive =>
      && s.forwarder.Receiving? && s.token
      && s' == s.(forwarder := Popping, token := false)
    case Finish =>
      && s.forwarder.Receiving? && !s.token && s.producer.Stopped?
      && s' == s.(forwarder := Finished)
    case Emit =>
      && s.forwarder.Emitting?
      && s' == s.(forwarder := Popping, emitted := s.emitted + [s.forwarder.batch])
    case _ => false
  }

  /** The queue between the two goroutines; its operations are the steps Push and Pop of a run. */
  class BatchTaskQueue {
    var queue: seq<seq<Task>>

    constructor ()
      ensures queue == []
    {
      queue := [];
    }

    /** The producer pushes its batch; s is the state of the two goroutines at that moment. */
    method Push(tasks: seq<Task>, ghost max: nat, ghost s: State) returns (ghost s': State)
      requires s.queue == queue && s.producer.Pushing? && s.batch == tasks
      modifies this
      ensures ProducerStep(max, s, s', Event.Push) && s'.queue == queue
    {
      queue := queue + [tasks];
      s' := s.(producer := Testing, queue := queue, batch := []);
    }

    /** The forwarder pops; None stands for the error QueueIsEmpty, on which it goes on to its receive. */
    method Pop(ghost s: State) returns (tasks: Option<seq<Task>>, ghost s': State)
      requires s.queue == queue && s.forwarder.Popping?
      modifies this
      ensures ForwarderStep(s, s', Event.Pop) && s'.queue == queue
      ensures tasks.None? <==> old(queue) == []
      ensures s'.forwarder == if tasks.Some? then Emitting(tasks.value) else Receiving
    {
      if |queue| > 0 {
        tasks, queue := Some(queue[0]), queue[1..];
        s' := s.(forwarder := Emitting(tasks.value), queue := queue);
      } else {
        tasks := None;
        s' := s.(forwarder := Receiving);
      }
    }
  }

  ghost predicate Step(max: nat, s: State, s': State, e: Event) {
    ProducerStep(max, s, s', e) || ForwarderStep(s, s', e)
  }

  ghost predicate IsRun(max: nat, tr: seq<State>, evs: seq<Event>) {
    && |tr| == |evs| + 1 && Init(tr[0])
    && forall i :: 0 <= i < |evs| ==> Step(max, tr[i], tr[i + 1], evs[i])
  }

  // ---------- The batches partition the stream in order ----------

  function InHand(s: State): seq<seq<Task>> {
    if s.forwarder.Emitting? then [s.forwarder.batch] else []
  }

  /** All batches that were pushed, in order. */
  function Pushed(s: State): seq<seq<Task>> {
    s.emitted + InHand(s) + s.queue
  }

  ghost predicate PartitionInv(max: nat, s: State) {
    && s.read == Flatten(Pushed(s)) + s.batch
    && (forall i :: 0 <= i < |Pushed(s)| ==> 0 < |Pushed(s)[i]| <= max)
    && (s.producer.Pushing? ==> 0 < |s.batch| <= max)
    && (s.producer.Collecting? || s.producer.Stopped? ==> |s.batch| < max)
    && (s.producer.Testing? || s.producer.Signalling? ==> s.batch == [])
  }

  /** No lost wakeup; and the only producer never finds the channel full when it sends. */
  ghost predicate WakeupInv(s: State) {
    && (s.forwarder.Receiving? && s.queue != [] ==> s.token || s.producer.Testing? || s.producer.Signalling?)
    && (s.producer.Signalling? ==> !s.token)
    && (s.forwarder.Finished? ==> s.producer.Stopped? && s.queue == [])
  }

  lemma ForwardingKeepsPushed(s: State, s': State, e: Event)
    requires ForwarderStep(s, s', e)
    ensures Pushed(s') == Pushed(s)
  {
  }

  lemma PushKeepsPartition(max: nat, s: State, s': State)
    requires PartitionInv(max, s) && ProducerStep(max, s, s', Push)
    ensures PartitionInv(max, s')
  {
    hide Flatten;
    assert Pushed(s') == Pushed(s) + [s.batch];
    FlattenAppend(Pushed(s), s.batch);
    assert s.read == Flatten(Pushed(s')) + [];
  }

  lemma ForwarderKeepsPartition(max: nat, s: State, s': State, e: Event)
    requires PartitionInv(max, s) && ForwarderStep(s, s', e)
    ensures PartitionInv(max, s')
  {
    hide Flatten, Pushed;
    ForwardingKeepsPushed(s, s', e);
  }

  lemma CollectingKeepsPartition(max: nat, s: State, s': State, e: Event)
    requires 1 <= max && PartitionInv(max, s) && ProducerStep(max, s, s', e) && !e.Push?
    ensures PartitionInv(max, s')
  {
    hide Flatten, Pushed;
    assert Pushed(s') == Pushed(s) by {
      SameBatches(s, s');
    }
    if e.Read? {
      assert s'.read == Flatten(Pushed(s)) + (s.batch + [e.task]);
    }
  }

  lemma SameBatches(s: State, s': State)
    requires s'.emitted == s.emitted && s'.forwarder == s.forwarder && s'.queue == s.queue
    ensures Pushed(s') == Pushed(s)
  {
  }

  lemma StepKeepsPartition(max: nat, s: State, s': State, e: Event)
    requires 1 <= max && PartitionInv(max, s) && Step(max, s, s', e)
    ensures PartitionInv(max, s')
  {
    hide PartitionInv;
    if ForwarderStep(s, s', e) {
      ForwarderKeepsPartition(max, s, s', e);
    } else if e.Push? {
      PushKeepsPartition(max, s, s');
    } else {
      CollectingKeepsPartition(max, s, s', e);
    }
  }

  lemma StepKeepsWakeup(max: nat, s: State, s': State, e: Event)
    requires WakeupInv(s) && Step(max, s, s', e)
    ensures WakeupInv(s')
  {
  }

  lemma {:induction false} RunInv(max: nat, tr: seq<State>, evs: seq<Event>, i: nat)
    requires 1 <= max && IsRun(max, tr, evs) && i < |tr|
    ensures PartitionInv(max, tr[i]) && WakeupInv(tr[i])
  {
    if i > 0 {
      RunInv(max, tr, evs, i - 1);
      StepKeepsPartition(max, tr[i - 1], tr[i], evs[i - 1]);
      StepKeepsWakeup(max, tr[i - 1], tr[i], evs[i - 1]);
    }
  }

  /**
   In-order partition: at every point of every run the tasks read are, in order, those of the batches
   emitted, of the batch the forwarder holds, of the queued batches, and of the partial batch; and
   every pushed batch has between 1 and max tasks.
   */
  lemma InOrderPartition(max: nat, tr: seq<State>, evs: seq<Event>, i: nat)
    requires 1 <= max && IsRun(max, tr, evs) && i < |tr|
    ensures tr[i].read == Flatten(tr[i].emitted + InHand(tr[i]) + tr[i].queue) + tr[i].batch
    ensures forall k :: 0 <= k < |Pushed(tr[i])| ==> 0 < |Pushed(tr[i])[k]| <= max
    ensures tr[i].producer.Collecting? ==> |tr[i].batch| < max
  {
    RunInv(max, tr, evs, i);
  }

  /**
   Batches are as large as the timer lets them be: a batch that is about to be pushed is full, or the timer expired
   while it was collected and nothing has been added since.
   */
  lemma {:induction false} ShortOnlyByTimer(max: nat, tr: seq<State>, evs: seq<Event>, i: nat)
    requires IsRun(max, tr, evs) && i < |tr| && tr[i].producer.Pushing?
    ensures |tr[i].batch| == max
            || exists k :: 0 <= k < i && evs[k].Expire? && tr[k].producer.Collecting? && tr[k].batch == tr[i].batch
                           && forall m :: k < m <= i ==> tr[m].producer.Pushing?
  {
    hide Step;
    var s, e := tr[i - 1], evs[i - 1];
    StartsPushing(max, s, tr[i], e);
    if s.producer.Pushing? {
      ShortOnlyByTimer(max, tr, evs, i - 1);
    }
  }

  lemma StartsPushing(max: nat, s: State, s': State, e: Event)
    requires Step(max, s, s', e) && s'.producer.Pushing?
    ensures
      || (s.producer.Pushing? && s'.batch == s.batch)
      || (s.producer.Collecting? && e.Read? && |s'.batch| == max)
      || (s.producer.Collecting? && e.Expire? && s'.batch == s.batch)
  {
  }

  /**
   No lost wakeup: while the forwarder waits for a token and the queue is not empty, the token is
   there or the producer is on its way to send it, and then its send does not block.
   */
  lemma NoLostWakeup(max: nat, tr: seq<State>, evs: seq<Event>, i: nat)
    requires 1 <= max && IsRun(max, tr, evs) && i < |tr|
    ensures tr[i].forwarder.Receiving? && tr[i].queue != [] ==>
              tr[i].token || tr[i].producer.Testing? || (tr[i].producer.Signalling? && !tr[i].token)
    ensures tr[i].producer.Signalling? ==> exists s' :: Step(max, tr[i], s', Signal)
  {
    RunInv(max, tr, evs, i);
    if tr[i].producer.Signalling? {
      assert Step(max, tr[i], tr[i].(producer := Collecting, token := true), Signal);
    }
  }

  /**
   Closing the input: the outgoing channel is closed only after every pushed batch was emitted, so
   that exactly the partial batch of that moment, of fewer than max tasks, is dropped.
   */
  lemma ClosingDrains(max: nat, tr: seq<State>, evs: seq<Event>, i: nat)
    requires 1 <= max && IsRun(max, tr, evs) && i < |tr|
    requires tr[i].forwarder.Finished?
    ensures tr[i].read == Flatten(tr[i].emitted) + tr[i].batch && |tr[i].batch| < max
  {
    RunInv(max, tr, evs, i);
    assert tr[i].emitted + InHand(tr[i]) + tr[i].queue == tr[i].emitted;
  }

  /** How much the forwarder still has to do once the producer has stopped. */
  function Work(s: State): nat {
    3 * |s.queue| + (if s.token then 2 else 0)
    + match s.forwarder
      case Emitting(_) => 3
      case Popping => 2
      case Receiving => 1
      case Finished => 0
  }

  /**
   After the input is closed the outgoing channel gets closed: every step of the two goroutines brings the
   forwarder closer to its end, and until then it has a next step.
   */
  lemma ClosingIsReached(max: nat, tr: seq<State>, evs: seq<Event>, i: nat)
    requires 1 <= max && IsRun(max, tr, evs) && i < |tr| && tr[i].producer.Stopped?
    ensures forall s', e :: Step(max, tr[i], s', e) ==> s'.producer.Stopped? && Work(s') < Work(tr[i])
    ensures !tr[i].forwarder.Finished? ==> exists s', e :: ForwarderStep(tr[i], s', e)
    ensures Work(tr[i]) == 0 ==> tr[i].forwarder.Finished?
  {
    hide PartitionInv, Step, Work, IsRun;
    RunInv(max, tr, evs, i);
    var s := tr[i];
    forall s', e | Step(max, s, s', e)
      ensures s'.producer.Stopped? && Work(s') < Work(s)
    {
      StepUsesWork(max, s, s', e);
    }
    WorkIsLeft(s);
    if !s.forwarder.Finished? {
      GoesOn(s);
    }
  }

  lemma StepUsesWork(max: nat, s: State, s': State, e: Event)
    requires WakeupInv(s) && s.producer.Stopped? && Step(max, s, s', e)
    ensures s'.producer.Stopped? && Work(s') < Work(s)
  {
  }

  lemma WorkIsLeft(s: State)
    ensures Work(s) == 0 ==> s.forwarder.Finished?
  {
  }

  lemma GoesOn(s: State)
    requires s.producer.Stopped? && !s.forwarder.Finished?
    ensures exists s', e :: ForwarderStep(s, s', e)
  {
    match s.forwarder
    case Popping =>
      assert ForwarderStep(s, if s.queue == [] then s.(forwarder := Receiving)
                              else s.(forwarder := Emitting(s.queue[0]), queue := s.queue[1..]), Pop);
    case Receiving =>
      if s.token {
        assert ForwarderStep(s, s.(forwarder := Popping, token := false), Receive);
      } else {
        assert ForwarderStep(s, s.(forwarder := Finished), Finish);
      }
    case Emitting(batch) =>
      assert ForwarderStep(s, s.(forwarder := Popping, emitted := s.emitted + [batch]), Emit);
  }

  // ---------- The batch timer ----------

  /** Between the steps by which the producer pushes, its batch is empty, and nobody has stopped. */
  ghost predicate OpenInv(s: State) {
    && WakeupInv(s) && !s.producer.Stopped? && !s.forwarder.Finished?
    && (s.producer.Pushing? ==> s.batch != [])
    && (s.producer.Testing? || s.producer.Signalling? ==> s.batch == [])
  }

  lemma StepKeepsOpen(max: nat, s: State, s': State, e: Event)
    requires OpenInv(s) && Step(max, s, s', e) && !e.InputClosed?
    ensures OpenInv(s')
  {
  }

  /** A step by which the two goroutines pass on what was pushed, or is about to be. */
  predicate PassesOn(e: Event) {
    !e.Read? && !e.Expire? && !e.InputClosed?
  }

  /** How far the two goroutines are from having passed on everything that was pushed, or is about to be. */
  function Backlog(s: State): nat {
    4 * |s.queue| + (if s.token then 2 else 0)
    + (match s.producer
       case Pushing => 9 + 10 * |s.batch|
       case Testing => 4
       case Signalling => 3
       case _ => 20 * |s.batch|)
    + match s.forwarder
      case Emitting(_) => 4
      case Popping => 2
      case _ => 1
  }

  /** All that was read has been emitted, or is in the partial batch. */
  ghost predicate Settled(s: State) {
    s.producer.Collecting? && s.queue == [] && s.forwarder.Receiving? && !s.token
  }

  lemma PassingOnShrinksBacklog(max: nat, s: State, s': State, e: Event)
    requires OpenInv(s) && Step(max, s, s', e) && PassesOn(e)
    ensures Backlog(s') < Backlog(s) && s'.read == s.read
  {
  }

  /** Until everything is passed on, one of the goroutines can go on. */
  lemma BacklogMoves(max: nat, s: State) returns (s': State, e: Event)
    requires OpenInv(s) && !Settled(s)
    ensures Step(max, s, s', e) && PassesOn(e)
  {
    match s.forwarder
    case Popping =>
      e := Pop;
      s' := if s.queue == [] then s.(forwarder := Receiving)
            else s.(forwarder := Emitting(s.queue[0]), queue := s.queue[1..]);
    case Emitting(batch) =>
      e, s' := Emit, s.(forwarder := Popping, emitted := s.emitted + [batch]);
    case Receiving =>
      if s.token {
        e, s' := Receive, s.(forwarder := Popping, token := false);
      } else {
        match s.producer
        case Pushing => e, s' := Push, s.(producer := Testing, queue := s.queue + [s.batch], batch := []);
        case Testing => e, s' := Test, s.(producer := Signalling);
        case Signalling => e, s' := Signal, s.(producer := Collecting, token := true);
      }
  }

  lemma ExpiryStartsPush(max: nat, s: State, s': State)
    requires OpenInv(s) && Step(max, s, s', Expire)
    ensures s'.read == s.read && s'.batch == s.batch
    ensures s'.producer == if s.batch == [] then Collecting else Pushing
    ensures Flushing(s')
  {
  }

  /** Everything that was read is pushed, or is about to be. */
  ghost predicate Flushing(s: State) {
    s.producer.Collecting? ==> s.batch == []
  }

  lemma PassingOnKeepsFlushing(max: nat, s: State, s': State, e: Event)
    requires OpenInv(s) && Flushing(s) && Step(max, s, s', e) && PassesOn(e)
    ensures Flushing(s')
  {
  }

  lemma {:induction false} RunOpen(max: nat, tr: seq<State>, evs: seq<Event>, i: nat)
    requires IsRun(max, tr, evs) && i < |tr| && forall k :: 0 <= k < i ==> !evs[k].InputClosed?
    ensures OpenInv(tr[i])
  {
    hide Step, OpenInv;
    if i > 0 {
      RunOpen(max, tr, evs, i - 1);
      StepKeepsOpen(max, tr[i - 1], tr[i], evs[i - 1]);
    } else {
      StartsOpen(tr[0]);
    }
  }

  lemma StartsOpen(s: State)
    requires Init(s)
    ensures OpenInv(s)
  {
  }

  lemma {:induction false} StaysFlushing(max: nat, tr: seq<State>, evs: seq<Event>, i: nat, j: nat)
    requires 1 <= max && IsRun(max, tr, evs) && i < j < |tr| && evs[i].Expire?
    requires forall k :: 0 <= k < j ==> !evs[k].InputClosed?
    requires forall k :: i < k < j ==> PassesOn(evs[k])
    ensures Flushing(tr[j]) && tr[j].read == tr[i].read && Backlog(tr[j]) + (j - i - 1) <= Backlog(tr[i + 1])
    decreases j
  {
    hide Step, OpenInv, Flushing, Backlog, Init;
    RunOpen(max, tr, evs, j - 1);
    if j == i + 1 {
      ExpiryStartsPush(max, tr[i], tr[j]);
    } else {
      StaysFlushing(max, tr, evs, i, j - 1);
      PassingOnKeepsFlushing(max, tr[j - 1], tr[j], evs[j - 1]);
      PassingOnShrinksBacklog(max, tr[j - 1], tr[j], evs[j - 1]);
    }
  }

  /**
   The batch timer: once it has expired, and as long as no further task is read, every step of the two goroutines
   brings all tasks that were read closer to being emitted, the partial batch included, and until they are
   emitted one of the goroutines can step.
   */
  lemma ExpiryFlushes(max: nat, tr: seq<State>, evs: seq<Event>, i: nat, j: nat)
    requires 1 <= max && IsRun(max, tr, evs) && i < j < |tr| && evs[i].Expire?
    requires forall k :: 0 <= k < j ==> !evs[k].InputClosed?
    requires forall k :: i < k < j ==> PassesOn(evs[k])
    ensures Backlog(tr[j]) + (j - i - 1) <= Backlog(tr[i + 1])
    ensures Flatten(tr[j].emitted) == tr[i].read || exists s', e :: Step(max, tr[j], s', e) && PassesOn(e)
  {
    hide Step, Init, WakeupInv, Backlog, Flatten, Pushed;
    StaysFlushing(max, tr, evs, i, j);
    RunOpen(max, tr, evs, j);
    RunInv(max, tr, evs, j);
    if Settled(tr[j]) {
      SettledHasEmitted(max, tr[j]);
    } else {
      var s', e := BacklogMoves(max, tr[j]);
    }
  }

  lemma SettledHasEmitted(max: nat, s: State)
    requires PartitionInv(max, s) && Settled(s) && Flushing(s)
    ensures Flatten(s.emitted) == s.read
  {
    assert s.emitted + InHand(s) + s.queue == s.emitted;
  }

  // ---------- What the two goroutines hold ----------

  /** The tasks read and not yet emitted. */
  function Held(s: State): multiset<Task> {
    multiset(Flatten(InHand(s))) + multiset(Flatten(s.queue)) + multiset(s.batch)
  }

  lemma PopKeepsHeld(s: State, s': State)
    requires ForwarderStep(s, s', Pop)
    ensures Held(s) == Held(s')
  {
    if s.queue != [] {
      assert Flatten(InHand(s')) == s.queue[0];
      assert Flatten(s.queue) == s.queue[0] + Flatten(s.queue[1..]);
    }
  }

  lemma EmitKeepsHeld(s: State, s': State)
    requires ForwarderStep(s, s', Emit)
    ensures Held(s) == Held(s') + multiset(s.forwarder.batch)
  {
    assert Flatten(InHand(s)) == s.forwarder.batch;
  }

  lemma PushKeepsHeld(max: nat, s: State, s': State)
    requires ProducerStep(max, s, s', Push)
    ensures Held(s) == Held(s')
  {
    FlattenAppend(s.queue, s.batch);
  }

  lemma QuietKeepsHeld(s: State, s': State)
    requires s'.queue == s.queue && InHand(s') == InHand(s)
    ensures s'.batch == s.batch ==> Held(s') == Held(s)
    ensures forall t :: s'.batch == s.batch + [t] ==> Held(s') == Held(s) + multiset{t}
  {
    hide InHand, Flatten;
  }

  /** Each step takes in what it reads and gives out what it emits, and loses nothing. */
  lemma StepKeepsHeld(max: nat, s: State, s': State, e: Event)
    requires Step(max, s, s', e)
    ensures e.Read? ==> Held(s') == Held(s) + multiset{e.task}
    ensures e.Emit? ==> s.forwarder.Emitting? && Held(s) == Held(s') + multiset(s.forwarder.batch)
    ensures !e.Read? && !e.Emit? ==> Held(s') == Held(s)
  {
    hide Held;
    match e
    case Push => PushKeepsHeld(max, s, s');
    case Pop => PopKeepsHeld(s, s');
    case Emit => EmitKeepsHeld(s, s');
    case _ => QuietKeepsHeld(s, s');
  }
}
