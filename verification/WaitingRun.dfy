/**
 The loop of the waiting service itself, over the real heap. Its environment, the clock and the two
 channels, is an input; every iteration is proved to be a sequence of steps of the state machine in
 Waiting.dfy, so that what is proved there of every run holds of this loop.
 */
module WaitingRun {
  import opened Tasks
  import opened TaskLists
  import opened TaskHeaps
  import opened Time
  import opened Waiting

  /** Which case of the outer select is taken, how long after the clock was read. */
  datatype Outcome =
    | Fires(late: nat)
    | PreloadReady(task: Task, more: seq<Task>, after: nat)
    | CancelReady(id: string, moreIds: seq<string>, after: nat)

  /** The environment of one round: delays before the clock is read and before the send. */
  datatype Round = Round(delay: nat, outcome: Outcome, sendDelay: nat)

  function Preloads(more: seq<Task>): (evs: seq<Event>)
    ensures |evs| == |more|
  {
    seq(|more|, i requires 0 <= i < |more| => PreloadedMore(more[i]))
  }

  function Cancels(more: seq<string>): (evs: seq<Event>)
    ensures |evs| == |more|
  {
    seq(|more|, i requires 0 <= i < |more| => CancelledMore(more[i]))
  }

  /** The part of a channel's backlog that the greedy loop reads. */
  function Greedily<T>(limit: nat, more: seq<T>): seq<T> {
    if |more| < limit then more else more[..limit]
  }

  /** It reads as much as there is, up to the limit, from the front. */
  lemma GreedilyReads<T>(limit: nat, more: seq<T>)
    ensures Greedily(limit, more) <= more && (|Greedily(limit, more)| == limit || Greedily(limit, more) == more)
    ensures |Greedily(limit, more)| <= limit
  {
  }

  lemma OneMore(preloads: seq<Task>, cancels: seq<string>, k: nat)
    ensures k < |preloads| ==>
              Preloads(preloads[..k + 1]) == Preloads(preloads[..k]) + [PreloadedMore(preloads[k])]
              && multiset(preloads[..k + 1]) == multiset(preloads[..k]) + multiset{preloads[k]}
    ensures k < |cancels| ==> Cancels(cancels[..k + 1]) == Cancels(cancels[..k]) + [CancelledMore(cancels[k])]
  {
    if k < |preloads| {
      assert preloads[..k + 1] == preloads[..k] + [preloads[k]];
    }
  }

  /** What the loop does once it blocks with the task it has taken. */
  function SelectEvents(limit: nat, taken: Option<Task>, outcome: Outcome): seq<Event> {
    match outcome
    case Fires(_) => [TimerFires] + if taken.Some? then [Send] else []
    case PreloadReady(task, more, _) => [Preloaded(task)] + Preloads(Greedily(limit, more)) + [GreedyEnds]
    case CancelReady(id, more, _) => [Cancelled(id)] + Cancels(Greedily(limit, more)) + [GreedyEnds]
  }

  /** What one round does, given the task taken at its head and whether the loop then blocks. */
  function RoundEvents(limit: nat, taken: Option<Task>, blocks: bool, outcome: Outcome): seq<Event> {
    [Take(taken)] + if blocks then SelectEvents(limit, taken, outcome) else [Send]
  }

  lemma RunExtends(limit: nat, tr: seq<State>, evs: seq<Event>, s': State, e: Event)
    requires IsRun(limit, tr, evs) && Step(limit, tr[|evs|], s', e)
    ensures IsRun(limit, tr + [s'], evs + [e])
  {
    hide Step, Init;
    var tr', evs' := tr + [s'], evs + [e];
    forall i | 0 <= i < |evs'|
      ensures Step(limit, tr'[i], tr'[i + 1], evs'[i])
    {
      if i < |evs| {
        assert tr'[i] == tr[i] && tr'[i + 1] == tr[i + 1] && evs'[i] == evs[i];
      }
    }
  }

  class WaitingService {
    const list: HeapPrioritizedTaskList
    const limit: nat
    var clock: int                 // the latest instant this goroutine has seen
    ghost var trace: seq<State>
    ghost var events: seq<Event>

    /** The recorded trace is a run, and its last state agrees with the heap. */
    ghost predicate Recorded()
      reads this, list, list.repr
    {
      && list.Valid() && |trace| > 0 && IsRun(limit, trace, events)
      && Now().list == list.Model()
    }

    ghost function Now(): State
      requires |trace| > 0
      reads this
    {
      trace[|trace| - 1]
    }

    ghost predicate AtHead()
      reads this, list, list.repr
    {
      Recorded() && Now().pc.Head? && Now().hand.None? && Now().clock == clock
    }

    /** The recorded run is tr continued by the events evs. */
    ghost predicate Grown(tr: seq<State>, before: seq<Event>, evs: seq<Event>)
      reads this
    {
      tr <= trace && events == before + evs
    }

    constructor (limit: nat, clock: int)
      ensures AtHead() && fresh(list) && fresh(list.repr)
      ensures this.limit == limit && trace == [State(EMPTY, None, Head, clock, multiset{}, multiset{}, multiset{})]
    {
      this.limit := limit;
      this.clock := clock;
      this.list := new HeapPrioritizedTaskList([]);
      this.trace := [State(EMPTY, None, Head, clock, multiset{}, multiset{}, multiset{})];
      this.events := [];
    }

    ghost method Record(s': State, e: Event)
      requires list.Valid() && |trace| > 0 && IsRun(limit, trace, events)
      requires Step(limit, Now(), s', e) && s'.list == list.Model()
      modifies this`trace, this`events
      ensures trace == old(trace) + [s'] && Grown(old(trace), old(events), [e])
      ensures Recorded() && Now() == s'
    {
      hide Step, Init;
      RunExtends(limit, trace, events, s', e);
      trace := trace + [s'];
      events := events + [e];
    }

    /** One task read in the greedy loop over preloaded tasks. */
    method AddMore(task: Task)
      requires Recorded() && Now().pc.GreedyPreload? && Now().pc.left > 0
      modifies this`trace, this`events, list, list.repr`index
      ensures Recorded() && fresh(list.repr - old(list.repr)) && Grown(old(trace), old(events), [PreloadedMore(task)])
      ensures Now() == old(Now()).(list := Added(old(Now()).list, task),
                                   pc := GreedyPreload(old(Now()).pc.left - 1),
                                   received := old(Now()).received + multiset{task})
    {
      hide IsRun;
      ghost var s := Now();
      list.Add(task);
      Record(s.(list := Added(s.list, task), pc := GreedyPreload(s.pc.left - 1),
                received := s.received + multiset{task}), PreloadedMore(task));
    }

    /** One id read in the greedy loop over cancels. */
    method DeleteMore(taskId: string)
      requires Recorded() && Now().pc.GreedyCancel? && Now().pc.left > 0
      modifies this`trace, this`events, list, list.repr`index
      ensures Recorded() && list.repr == old(list.repr) && Grown(old(trace), old(events), [CancelledMore(taskId)])
      ensures Now() == old(Now()).(list := Deleted(old(Now()).list, taskId),
                                   pc := GreedyCancel(old(Now()).pc.left - 1),
                                   removed := old(Now()).removed + Dropped(old(Now()).list, taskId))
    {
      hide IsRun;
      ghost var s := Now();
      var _ := list.DeleteIfExist(taskId);
      Record(s.(list := Deleted(s.list, taskId), pc := GreedyCancel(s.pc.left - 1),
                removed := s.removed + Dropped(s.list, taskId)), CancelledMore(taskId));
    }

    /** A greedy loop is over. */
    ghost method EndGreedy()
      requires Recorded() && (Now().pc.GreedyPreload? || Now().pc.GreedyCancel?)
      requires Now().hand.None? && Now().clock == clock
      modifies this`trace, this`events
      ensures AtHead() && Grown(old(trace), old(events), [GreedyEnds]) && Now() == old(Now()).(pc := Head)
    {
      hide IsRun;
      Record(Now().(pc := Head), GreedyEnds);
    }

    /** The greedy loop over preloaded tasks; more is what the channel can deliver without blocking. */
    method DrainPreloaded(more: seq<Task>) returns (read: nat)
      requires Recorded() && Now().pc == GreedyPreload(limit) && Now().hand.None? && Now().clock == clock
      modifies this`clock, this`trace, this`events, list, list.repr`index
      ensures read == if |more| < limit then |more| else limit
      ensures AtHead() && fresh(list.repr - old(list.repr))
      ensures Grown(old(trace), old(events), Preloads(more[..read]) + [GreedyEnds])
      ensures Now().received == old(Now()).received + multiset(more[..read])
      ensures Now().sent == old(Now()).sent && Now().removed == old(Now()).removed
    {
      hide IsRun, Added, Deleted, Dropped, Preloads, Cancels, HeapPrioritizedTaskList.Valid,
           HeapPrioritizedTaskList.Model;
      var i, empty := 0, false;
      read := 0;
      while i < limit && !empty
        invariant 0 <= i <= limit && read <= |more|
        invariant if empty then read == |more| < i else read == i
        invariant Recorded() && Now().pc == GreedyPreload(limit - read) && Now().hand.None? && Now().clock == clock
        invariant fresh(list.repr - old(list.repr)) && Grown(old(trace), old(events), Preloads(more[..read]))
        invariant Now().received == old(Now()).received + multiset(more[..read])
        invariant Now().sent == old(Now()).sent && Now().removed == old(Now()).removed
      {
        if read < |more| {
          var task := more[read];
          AddMore(task);
          OneMore(more, [], read);
          read := read + 1;
        } else {
          empty := true;
        }
        i := i + 1;
      }
      EndGreedy();
    }

    /** The greedy loop over cancels. */
    method DrainCancels(more: seq<string>) returns (read: nat)
      requires Recorded() && Now().pc == GreedyCancel(limit) && Now().hand.None? && Now().clock == clock
      modifies this`clock, this`trace, this`events, list, list.repr`index
      ensures read == if |more| < limit then |more| else limit
      ensures AtHead() && list.repr == old(list.repr)
      ensures Grown(old(trace), old(events), Cancels(more[..read]) + [GreedyEnds])
      ensures Now().received == old(Now()).received && Now().sent == old(Now()).sent
    {
      hide IsRun, Added, Deleted, Dropped, Preloads, Cancels, HeapPrioritizedTaskList.Valid,
           HeapPrioritizedTaskList.Model;
      var i, empty := 0, false;
      read := 0;
      while i < limit && !empty
        invariant 0 <= i <= limit && read <= |more|
        invariant if empty then read == |more| < i else read == i
        invariant Recorded() && Now().pc == GreedyCancel(limit - read) && Now().hand.None? && Now().clock == clock
        invariant list.repr == old(list.repr) && Grown(old(trace), old(events), Cancels(more[..read]))
        invariant Now().received == old(Now()).received && Now().sent == old(Now()).sent
      {
        if read < |more| {
          var taskId := more[read];
          DeleteMore(taskId);
          OneMore([], more, read);
          read := read + 1;
        } else {
          empty := true;
        }
        i := i + 1;
      }
      EndGreedy();
    }

    /** The preload case of the outer select. */
    method OnPreload(hand: Option<Task>, newTask: Task, at: int)
      requires Recorded() && Now().pc.Blocked? && Now().hand == hand && Now().clock <= at
      modifies this`clock, this`trace, this`events, list, list.repr`index
      ensures Recorded() && Now().pc == GreedyPreload(limit) && Now().hand.None? && Now().clock == clock
      ensures fresh(list.repr - old(list.repr)) && Grown(old(trace), old(events), [Preloaded(newTask)])
      ensures Now().received == old(Now()).received + multiset{newTask}
      ensures Now().sent == old(Now()).sent && Now().removed == old(Now()).removed
    {
      hide IsRun, HeapPrioritizedTaskList.Model, Deleted, Added, Dropped;
      ghost var s := Now();
      clock := at;
      if hand.Some? {
        list.Add(hand.value);
      }
      list.Add(newTask);
      Record(s.(list := Added(PutBack(s.list, s.hand), newTask), hand := None, pc := GreedyPreload(limit),
                clock := at, received := s.received + multiset{newTask}), Preloaded(newTask));
    }

    /** The cancel case of the outer select. */
    method OnCancel(hand: Option<Task>, taskId: string, at: int)
      requires Recorded() && Now().pc.Blocked? && Now().hand == hand && Now().clock <= at
      modifies this`clock, this`trace, this`events, list, list.repr`index
      ensures Recorded() && Now().pc == GreedyCancel(limit) && Now().hand.None? && Now().clock == clock
      ensures fresh(list.repr - old(list.repr)) && Grown(old(trace), old(events), [Cancelled(taskId)])
      ensures Now().received == old(Now()).received && Now().sent == old(Now()).sent
    {
      hide IsRun, HeapPrioritizedTaskList.Model, Deleted, Added, Dropped;
      ghost var s := Now();
      clock := at;
      if hand.Some? && taskId != hand.value.id {
        list.Add(hand.value);
      }
      var _ := list.DeleteIfExist(taskId);
      Record(s.(list := Deleted(CancelTarget(s, taskId), taskId), hand := None, pc := GreedyCancel(limit),
                clock := at, removed := s.removed + CancelDrops(s, taskId)), Cancelled(taskId));
    }

    method PreloadCase(hand: Option<Task>, newTask: Task, more: seq<Task>, at: int) returns (ghost got: seq<Task>)
      requires Recorded() && Now().pc.Blocked? && Now().hand == hand && Now().clock <= at
      modifies this`clock, this`trace, this`events, list, list.repr`index
      ensures AtHead() && fresh(list.repr - old(list.repr))
      ensures Grown(old(trace), old(events), [Preloaded(newTask)] + Preloads(Greedily(limit, more)) + [GreedyEnds])
      ensures got == [newTask] + Greedily(limit, more) && Now().received == old(Now()).received + multiset(got)
      ensures Now().sent == old(Now()).sent
    {
      hide IsRun, Preloads, HeapPrioritizedTaskList.Valid, HeapPrioritizedTaskList.Model;
      OnPreload(hand, newTask, at);
      var read := DrainPreloaded(more);
      assert more[..read] == Greedily(limit, more);
      got := [newTask] + more[..read];
    }

    method CancelCase(hand: Option<Task>, taskId: string, more: seq<string>, at: int)
      requires Recorded() && Now().pc.Blocked? && Now().hand == hand && Now().clock <= at
      modifies this`clock, this`trace, this`events, list, list.repr`index
      ensures AtHead() && fresh(list.repr - old(list.repr))
      ensures Grown(old(trace), old(events), [Cancelled(taskId)] + Cancels(Greedily(limit, more)) + [GreedyEnds])
      ensures Now().received == old(Now()).received && Now().sent == old(Now()).sent
    {
      hide IsRun, Cancels, HeapPrioritizedTaskList.Valid, HeapPrioritizedTaskList.Model;
      OnCancel(hand, taskId, at);
      var read := DrainCancels(more);
      assert more[..read] == Greedily(limit, more);
    }

    /** The head of the loop: take the earliest task and compute how long to sleep. */
    method TakeEarliest(now: int) returns (task: Option<Task>, sleep: int)
      requires AtHead() && Now().clock <= now
      modifies this`clock, this`trace, this`events, list, list.repr`index
      ensures Recorded() && Now().hand == task && sleep == Sleep(task, now) && Now().clock == now == clock
      ensures task.None? ==> sleep > 0
      ensures task.Some? && !Ancient(task.value.execTime, now) && sleep > 0 ==>
                now + sleep < Instant(task.value.execTime) + SECOND
      ensures task.Some? && !Ancient(task.value.execTime, now) && task.value.execTime <= Unix(now) ==> sleep <= 0
      ensures task.Some? && Near(task.value.execTime, now) ==>
                Instant(task.value.execTime) <= if sleep > 0 then now + sleep else now
      ensures Now().pc == if sleep > 0 then Blocked(now + sleep) else Sending
      ensures list.repr == old(list.repr) && Grown(old(trace), old(events), [Take(task)])
      ensures Now().received == old(Now()).received && Now().sent == old(Now()).sent
      ensures Now().removed == old(Now()).removed
    {
      hide IsRun, IsEarliest, Taken, Until, Near, Ancient, HeapPrioritizedTaskList.Valid;
      ghost var s := Now();
      clock := now;
      task := list.Take();
      sleep := MAX_INT64;
      if task.Some? {
        sleep := Until(task.value.execTime, now);
        SleepSufficesWhen(task.value.execTime, now);
        SleepIsPromptWhen(task.value.execTime, now);
        if task.value.execTime <= Unix(now) && !Ancient(task.value.execTime, now) {
          BegunIsDue(task.value.execTime, now);
        }
      }
      Record(s.(list := if task.Some? then Taken(s.list, task.value) else s.list, hand := task,
                pc := if sleep > 0 then Blocked(now + sleep) else Sending, clock := now), Take(task));
    }

    method Fire(hand: Option<Task>, at: int)
      requires Recorded() && Now().pc.Blocked? && Now().hand == hand && Now().pc.wake <= at && Now().clock <= at
      modifies this`clock, this`trace, this`events
      ensures Recorded() && Now().pc == (if hand.Some? then Sending else Crashed) && Now().hand == hand
      ensures Now().clock == clock == at
      ensures Grown(old(trace), old(events), [TimerFires])
      ensures Now().received == old(Now()).received && Now().sent == old(Now()).sent
      ensures Now().removed == old(Now()).removed
    {
      ghost var s := Now();
      clock := at;
      Record(s.(pc := if s.hand.Some? then Sending else Crashed, clock := at), TimerFires);
    }

    method SendHand(task: Task, at: int)
      requires Recorded() && Now().pc.Sending? && Now().hand == Some(task) && Now().clock <= at
      modifies this`clock, this`trace, this`events
      ensures AtHead() && Grown(old(trace), old(events), [Send])
      ensures Now().sent == old(Now()).sent + multiset{task}
      ensures Now().received == old(Now()).received && Now().removed == old(Now()).removed
    {
      ghost var s := Now();
      clock := at;
      Record(s.(hand := None, pc := Head, clock := at, sent := s.sent + multiset{task}), Send);
    }

    /** The outer select: due means that the timer has fired and the task in hand is to be sent. */
    method Select(task: Option<Task>, sleep: int, outcome: Outcome)
      returns (due: bool, crashed: bool, ghost got: seq<Task>)
      requires Recorded() && Now().hand == task && Now().pc == Blocked(clock + sleep) && Now().clock == clock
      requires sleep > 0
      modifies this`clock, this`trace, this`events, list, list.repr`index
      ensures Recorded() && fresh(list.repr - old(list.repr)) && Now().clock == clock
      ensures Now().sent == old(Now()).sent && Now().received == old(Now()).received + multiset(got)
      ensures got == [] || (outcome.PreloadReady? && got == [outcome.task] + Greedily(limit, outcome.more))
      ensures due ==> task.Some? && Now().hand == task && Now().pc.Sending? && !crashed
      ensures !due ==> if crashed then Now().pc.Crashed? else AtHead()
      ensures Grown(old(trace), old(events), if due then [TimerFires] else SelectEvents(limit, task, outcome))
      ensures due ==> SelectEvents(limit, task, outcome) == [TimerFires, Send]
    {
      hide IsRun, Preloads, Cancels, Greedily, HeapPrioritizedTaskList.Valid, HeapPrioritizedTaskList.Model;
      due, crashed, got := false, false, [];
      match outcome
      case Fires(late) =>
        Fire(task, clock + sleep + late);
        due, crashed := task.Some?, task.None?;
      case PreloadReady(newTask, more, after) =>
        got := PreloadCase(task, newTask, more, clock + after);
      case CancelReady(taskId, more, after) =>
        CancelCase(task, taskId, more, clock + after);
    }

    /**
     One round of the loop. It extends the recorded run by exactly the events of such a round; it
     hands out at most one task, the one the run sends, and reads what the run receives.
     */
    method Turn(now: int, round: Round) returns (sent: Option<Task>, crashed: bool, ghost got: seq<Task>)
      requires AtHead() && Now().clock <= now
      modifies this`clock, this`trace, this`events, list, list.repr`index
      ensures Recorded() && fresh(list.repr - old(list.repr))
      ensures |old(events)| < |events| && events[|old(events)|].Take?
      ensures var taken := events[|old(events)|].taken;
              Grown(old(trace), old(events), RoundEvents(limit, taken, Sleep(taken, now) > 0, round.outcome))
      ensures if crashed then Now().pc.Crashed? else AtHead()
      ensures Now().sent == old(Now()).sent + HandTasks(sent)
      ensures Now().received == old(Now()).received + multiset(got)
      ensures got == []
              || (round.outcome.PreloadReady? && got == [round.outcome.task] + Greedily(limit, round.outcome.more))
    {
      hide IsRun, Sleep, SelectEvents, Greedily, HeapPrioritizedTaskList.Valid, HeapPrioritizedTaskList.Model;
      sent, crashed, got := None, false, [];
      var task, sleep := TakeEarliest(now);
      if sleep > 0 {
        var due;
        due, crashed, got := Select(task, sleep, round.outcome);
        if !due {
          return;
        }
      }
      SendHand(task.value, clock + round.sendDelay);
      sent := task;
    }

    /**
     The loop over any finite script of rounds: the tasks handed out and the tasks read are those of
     the recorded run, and nothing is lost: what was read is what was handed out, what the heap still
     holds, and what handled cancels dropped.
     */
    method Run(rounds: seq<Round>) returns (out: seq<Task>, crashed: bool, ghost got: seq<Task>)
      requires AtHead() && |trace| == 1
      modifies this`clock, this`trace, this`events, list, list.repr`index
      ensures Recorded() && (!crashed ==> AtHead())
      ensures multiset(out) == Now().sent && multiset(got) == Now().received
      ensures !crashed ==> multiset(got) == multiset(out) + list.Model().live + Now().removed
    {
      out, crashed, got := [], false, [];
      var i := 0;
      while i < |rounds| && !crashed
        invariant 0 <= i <= |rounds|
        invariant Recorded() && (!crashed ==> AtHead()) && fresh(list.repr - old(list.repr))
        invariant multiset(out) == Now().sent && multiset(got) == Now().received
      {
        var sent, failed, read := Turn(clock + rounds[i].delay, rounds[i]);
        if sent.Some? {
          out := out + [sent.value];
        }
        crashed := failed;
        got := got + read;
        i := i + 1;
      }
      Conservation(limit, trace, events, |trace| - 1);
    }
  }
}
