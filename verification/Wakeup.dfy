/**
 The hand-off of the error service: any number of goroutines call New, which pushes an event and
 then wakes the handler through a channel that can hold one token; Run pops, handles, and waits.
 */
module Wakeup {
  import opened Tasks
  import opened EventQueues

  /** A call of New under way: before its push, before it tests the channel, before it sends. */
  datatype Caller = Pushing(e: Event) | Testing | Signalling

  /** The handler goroutine: popping, waiting at the channel, or returned after a fatal event. */
  datatype Handler = Popping | Waiting | Returned

  datatype State = State(
    queue: seq<Event>,
    token: bool,
    callers: map<nat, Caller>,
    handler: Handler,
    handled: seq<Event>)           // the events given to a user's handler

  datatype Config = Config(cap: nat, debug: bool, levels: set<Level>)

  datatype Action =
    | Call(p: nat, e: Event)
    | PushEvent(p: nat)
    | Test(p: nat)
    | Signal(p: nat)
    | PopEvent
    | Receive

  const INIT := State([], false, map[], Popping, [])

  ghost predicate CallerStep(c: Config, s: State, s': State, e: Action)
    requires c.cap >= 2
  {
    match e
    case Call(p, event) =>
      && p !in s.callers && (c.debug || !event.level.LevelDebug?)
      && s' == s.(callers := s.callers[p := Pushing(event)])
    case PushEvent(p) =>
      && p in s.callers && s.callers[p].Pushing?
      && s' == s.(queue := Enqueued(c.cap, s.queue, s.callers[p].e), callers := s.callers[p := Testing])
    case Test(p) =>
      && p in s.callers && s.callers[p].Testing?
      && s' == s.(callers := if s.token then s.callers - {p} else s.callers[p := Signalling])
    case Signal(p) =>
      && p in s.callers && s.callers[p].Signalling? && !s.token
      && s' == s.(token := true, callers := s.callers - {p})
    case _ => false
  }

  ghost predicate HandlerStep(c: Config, s: State, s': State, e: Action) {
    match e
    case PopEvent =>
      && s.handler.Popping?
      && (if s.queue == [] then s' == s.(handler := Waiting)
          else
            var event := s.queue[0];
            if event.level !in c.levels then s' == s.(queue := s.queue[1..])
            else s' == s.(queue := s.queue[1..], handled := s.handled + [event],
                          handler := if event.level.LevelFatal? then Returned else Popping))
    case Receive =>
      && s.handler.Waiting? && s.token
      && s' == s.(handler := Popping, token := false)
    case _ => false
  }

  ghost predicate Step(c: Config, s: State, s': State, e: Action)
    requires c.cap >= 2
  {
    CallerStep(c, s, s', e) || HandlerStep(c, s, s', e)
  }

  ghost predicate IsRun(c: Config, tr: seq<State>, evs: seq<Action>)
    requires c.cap >= 2
  {
    && |tr| == |evs| + 1 && tr[0] == INIT
    && forall i :: 0 <= i < |evs| ==> Step(c, tr[i], tr[i + 1], evs[i])
  }

  /** Some call of New has pushed its event and has not yet seen or sent a token. */
  ghost predicate SomeoneWakes(s: State) {
    exists p :: p in s.callers && !s.callers[p].Pushing?
  }

  ghost predicate Inv(c: Config, s: State) {
    && |s.queue| <= c.cap
    && (s.handler.Waiting? && s.queue != [] ==> s.token || SomeoneWakes(s))
  }

  lemma CallerKeepsInv(c: Config, s: State, s': State, e: Action)
    requires c.cap >= 2 && Inv(c, s) && CallerStep(c, s, s', e)
    ensures Inv(c, s')
  {
    match e
    case Call(p, event) =>
      if SomeoneWakes(s) {
        var q :| q in s.callers && !s.callers[q].Pushing?;
        assert q in s'.callers && s'.callers[q] == s.callers[q];
      }
    case PushEvent(p) =>
      assert p in s'.callers && s'.callers[p].Testing?;
    case Test(p) =>
      assert s.token || (p in s'.callers && s'.callers[p].Signalling?);
    case Signal(p) =>
  }

  lemma StepKeepsInv(c: Config, s: State, s': State, e: Action)
    requires c.cap >= 2 && Inv(c, s) && Step(c, s, s', e)
    ensures Inv(c, s')
  {
    if CallerStep(c, s, s', e) {
      CallerKeepsInv(c, s, s', e);
    }
  }

  lemma {:induction false} RunInv(c: Config, tr: seq<State>, evs: seq<Action>, i: nat)
    requires c.cap >= 2 && IsRun(c, tr, evs) && i < |tr|
    ensures Inv(c, tr[i])
  {
    if i > 0 {
      RunInv(c, tr, evs, i - 1);
      StepKeepsInv(c, tr[i - 1], tr[i], evs[i - 1]);
    }
  }

  /**
   No lost wakeup, for any number of goroutines: whenever the handler waits and the queue is not empty,
   the token is there, or some call is between its push and the end of New; and then one of these calls
   can take its next step or the handler can, so that the system is not stuck.
   */
  lemma NoLostWakeup(c: Config, tr: seq<State>, evs: seq<Action>, i: nat)
    requires c.cap >= 2 && IsRun(c, tr, evs) && i < |tr|
    requires tr[i].handler.Waiting? && tr[i].queue != []
    ensures tr[i].token || SomeoneWakes(tr[i])
    ensures exists s', e :: Step(c, tr[i], s', e) && (e.Receive? || e.Test? || e.Signal?)
  {
    RunInv(c, tr, evs, i);
    var s := tr[i];
    if s.token {
      assert Step(c, s, s.(handler := Popping, token := false), Receive);
    } else {
      var p :| p in s.callers && !s.callers[p].Pushing?;
      if s.callers[p].Testing? {
        assert Step(c, s, s.(callers := s.callers[p := Signalling]), Test(p));
      } else {
        assert Step(c, s, s.(token := true, callers := s.callers - {p}), Signal(p));
      }
    }
  }

  // ---------- What is handled ----------

  /** The operation of a step on the event queue. */
  function OperationOf(s: State, e: Action): Option<Operation> {
    match e
    case PushEvent(p) => if p in s.callers && s.callers[p].Pushing? then Some(Push(s.callers[p].e)) else None
    case PopEvent => Some(Pop)
    case _ => None
  }

  /** The operations on the event queue up to point i of a run. */
  function Operations(tr: seq<State>, evs: seq<Action>, i: nat): seq<Operation>
    requires i <= |evs| && |tr| == |evs| + 1
  {
    if i == 0 then []
    else
      var op := OperationOf(tr[i - 1], evs[i - 1]);
      Operations(tr, evs, i - 1) + if op.Some? then [op.value] else []
  }

  /** The events for whose level there is a handler. */
  function Handleable(levels: set<Level>, events: seq<Event>): seq<Event> {
    if events == [] then []
    else
      Handleable(levels, events[..|events| - 1])
      + if events[|events| - 1].level in levels then [events[|events| - 1]] else []
  }

  lemma HandleableAppend(levels: set<Level>, events: seq<Event>, e: Event)
    ensures Handleable(levels, events + [e]) == Handleable(levels, events) + if e.level in levels then [e] else []
  {
    assert (events + [e])[..|events|] == events;
  }

  /** The handler has returned exactly if the last event handled is fatal, and none before it is. */
  ghost predicate FatalEnds(s: State) {
    && (forall k :: 0 <= k < |s.handled| - 1 ==> !s.handled[k].level.LevelFatal?)
    && (s.handler.Returned? <==> s.handled != [] && s.handled[|s.handled| - 1].level.LevelFatal?)
  }

  lemma NextOperation(cap: nat, ops: seq<Operation>, op: Operation)
    requires cap >= 2
    ensures Run(cap, ops + [op]) == Apply(cap, Run(cap, ops), op)
    ensures var before := Run(cap, ops);
            Answers(cap, ops + [op]) == Answers(cap, ops)
                                        + if op.Pop? && before.queue != [] then [before.queue[0]] else []
  {
    hide Apply;
    assert (ops + [op])[..|ops|] == ops && (ops + [op])[|ops|] == op;
  }

  /**
   Handled are, in order, exactly the popped events for whose level there is a handler; the queue is the one
   whose history EventQueue.dfy speaks of; and nothing is handled after a fatal event, on which the handler
   returns.
   */
  lemma {:induction false} HandledInOrder(c: Config, tr: seq<State>, evs: seq<Action>, i: nat)
    requires c.cap >= 2 && IsRun(c, tr, evs) && i < |tr|
    ensures var ops := Operations(tr, evs, i);
            && tr[i].queue == Run(c.cap, ops).queue
            && tr[i].handled == Handleable(c.levels, Answers(c.cap, ops))
            && FatalEnds(tr[i])
  {
    hide Run, Answers, Handleable, Apply, Operations;
    if i > 0 {
      HandledInOrder(c, tr, evs, i - 1);
      var s, ops, op := tr[i - 1], Operations(tr, evs, i - 1), OperationOf(tr[i - 1], evs[i - 1]);
      assert Step(c, s, tr[i], evs[i - 1]);
      LastOperation(tr, evs, i);
      if op.Some? {
        NextOperation(c.cap, ops, op.value);
        assert Answers(c.cap, ops) + [] == Answers(c.cap, ops);
        QueueFollows(c, s, tr[i], evs[i - 1], Run(c.cap, ops), op.value);
        if s.queue != [] {
          HandleableAppend(c.levels, Answers(c.cap, ops), s.queue[0]);
        }
      }
      HandlingStep(c, s, tr[i], evs[i - 1]);
    } else {
      NothingYet(c.cap, c.levels);
      assert Operations(tr, evs, 0) == [] by {
        FirstOperation(tr, evs);
      }
    }
  }

  lemma FirstOperation(tr: seq<State>, evs: seq<Action>)
    requires |tr| == |evs| + 1
    ensures Operations(tr, evs, 0) == []
  {
  }

  lemma LastOperation(tr: seq<State>, evs: seq<Action>, i: nat)
    requires 0 < i <= |evs| && |tr| == |evs| + 1
    ensures var op := OperationOf(tr[i - 1], evs[i - 1]);
            && (op.Some? ==> Operations(tr, evs, i) == Operations(tr, evs, i - 1) + [op.value])
            && (op.None? ==> Operations(tr, evs, i) == Operations(tr, evs, i - 1))
  {
  }

  /** One step's effect on the queue and on what is handled. */
  lemma QueueFollows(c: Config, s: State, s': State, e: Action, h: History, op: Operation)
    requires c.cap >= 2 && Step(c, s, s', e) && OperationOf(s, e) == Some(op)
    requires |h.queue| <= |h.log| && h.queue == s.queue
    ensures s'.queue == Apply(c.cap, h, op).queue
  {
    match op
    case Push(event) => PushEnqueues(c.cap, h, event);
    case Pop => PopDequeues(c.cap, h);
  }

  lemma HandlingStep(c: Config, s: State, s': State, e: Action)
    requires c.cap >= 2 && Step(c, s, s', e) && FatalEnds(s)
    ensures FatalEnds(s')
    ensures s'.handled == s.handled + if e.PopEvent? && s.queue != [] && s.queue[0].level in c.levels
                                      then [s.queue[0]] else []
    ensures OperationOf(s, e).None? ==> s'.queue == s.queue
    ensures e.PushEvent? ==> OperationOf(s, e).Some?
  {
  }

  lemma NothingYet(cap: nat, levels: set<Level>)
    requires cap >= 2
    ensures Run(cap, []) == EMPTY && Answers(cap, []) == [] && Handleable(levels, []) == []
  {
  }

  lemma PushEnqueues(cap: nat, h: History, e: Event)
    requires cap >= 2 && |h.queue| <= |h.log|
    ensures Apply(cap, h, Push(e)).queue == Enqueued(cap, h.queue, e)
  {
  }

  lemma PopDequeues(cap: nat, h: History)
    requires cap >= 2 && |h.queue| <= |h.log|
    ensures Apply(cap, h, Pop).queue == if h.queue == [] then [] else h.queue[1..]
  {
  }

  /** How far the system is from waking the handler. */
  function Distance(s: State): nat {
    if s.handler.Popping? || s.handler.Returned? then 0
    else if s.token then 1
    else if exists p :: p in s.callers && s.callers[p].Signalling? then 2
    else 3
  }

  /** Every step that such a call or the handler takes brings the wakeup closer or keeps it as close. */
  lemma WakeupComesCloser(c: Config, s: State, s': State, e: Action)
    requires c.cap >= 2 && Inv(c, s) && Step(c, s, s', e)
    requires s.handler.Waiting? && s.queue != [] && (e.Receive? || e.Test? || e.Signal?)
    ensures Distance(s') <= Distance(s)
    ensures s.token && e.Receive? ==> Distance(s') == 0
    ensures !s.token && e.Signal? ==> Distance(s') == 1
    ensures !s.token && e.Test? ==> Distance(s') == 2
  {
    if !s.token && e.Test? {
      assert e.p in s'.callers && s'.callers[e.p].Signalling?;
    }
  }

  // ---------- Every event can be handled ----------

  ghost predicate IsPath(c: Config, tr: seq<State>, evs: seq<Action>)
    requires c.cap >= 2
  {
    && |tr| == |evs| + 1
    && forall i :: 0 <= i < |evs| ==> Step(c, tr[i], tr[i + 1], evs[i])
  }

  lemma Prepend(c: Config, s: State, e: Action, tr: seq<State>, evs: seq<Action>)
    requires c.cap >= 2 && IsPath(c, tr, evs) && Step(c, s, tr[0], e)
    ensures IsPath(c, [s] + tr, [e] + evs)
  {
    hide Step;
    var tr', evs' := [s] + tr, [e] + evs;
    forall i | 0 <= i < |evs'|
      ensures Step(c, tr'[i], tr'[i + 1], evs'[i])
    {
      if i > 0 {
        assert tr'[i] == tr[i - 1] && evs'[i] == evs[i - 1];
      }
    }
  }

  /** While the queue is not empty and the handler waits, some step wakes it or brings its wakeup closer. */
  lemma WakesUp(c: Config, s: State) returns (s': State, e: Action)
    requires c.cap >= 2 && Inv(c, s) && s.handler.Waiting? && s.queue != []
    ensures Step(c, s, s', e) && Distance(s') < Distance(s)
    ensures !e.Call? && !e.PushEvent? && s'.queue == s.queue && s'.handled == s.handled && !s'.handler.Returned?
  {
    if s.token {
      e, s' := Receive, s.(handler := Popping, token := false);
    } else if p :| p in s.callers && s.callers[p].Signalling? {
      e, s' := Signal(p), s.(token := true, callers := s.callers - {p});
    } else {
      var p :| p in s.callers && !s.callers[p].Pushing?;
      e, s' := Test(p), s.(callers := s.callers[p := Signalling]);
      assert p in s'.callers && s'.callers[p].Signalling?;
    }
  }

  lemma PopsNext(c: Config, s: State) returns (s': State)
    requires c.cap >= 2 && s.handler.Popping? && s.queue != []
    ensures Step(c, s, s', PopEvent) && s'.queue == s.queue[1..] && !s'.handler.Waiting?
    ensures s'.handled == s.handled + if s.queue[0].level in c.levels then [s.queue[0]] else []
  {
    var event := s.queue[0];
    s' := if event.level !in c.levels then s.(queue := s.queue[1..])
          else s.(queue := s.queue[1..], handled := s.handled + [event],
                  handler := if event.level.LevelFatal? then Returned else Popping);
  }

  lemma {:induction false} HandleableFirst(levels: set<Level>, e: Event, events: seq<Event>)
    ensures Handleable(levels, [e] + events)
         == (if e.level in levels then [e] else []) + Handleable(levels, events)
  {
    var all := [e] + events;
    if events == [] {
      assert all == [] + [e];
      HandleableAppend(levels, [], e);
    } else {
      var rest, last := events[..|events| - 1], events[|events| - 1];
      HandleableFirst(levels, e, rest);
      assert all == ([e] + rest) + [last] && events == rest + [last];
      HandleableAppend(levels, [e] + rest, last);
      HandleableAppend(levels, rest, last);
    }
  }

  /**
   The queue can be emptied: from every state that a run can reach, without a further event, the handler and the calls
   under way can come to a state in which the handler has returned or the queue is empty, and then it has
   handled, in order, what it took from the queue.
   */
  lemma {:induction false} QueueCanBeEmptied(c: Config, s: State)
    returns (tr: seq<State>, evs: seq<Action>, n: nat)
    requires c.cap >= 2 && Inv(c, s)
    ensures IsPath(c, tr, evs) && tr[0] == s && forall i :: 0 <= i < |evs| ==> !evs[i].Call? && !evs[i].PushEvent?
    ensures n <= |s.queue|
    ensures var s' := tr[|evs|];
            && (s'.handler.Returned? || n == |s.queue|)
            && s'.queue == s.queue[n..] && s'.handled == s.handled + Handleable(c.levels, s.queue[..n])
    decreases |s.queue|, Distance(s)
  {
    hide Step, Inv, Distance, Handleable;
    NothingHandleable(c.levels);
    if s.handler.Returned? || s.queue == [] {
      tr, evs, n := [s], [], 0;
      assert s.queue[..0] == [];
    } else if s.handler.Waiting? {
      var s', e := WakesUp(c, s);
      StepKeepsInv(c, s, s', e);
      tr, evs, n := QueueCanBeEmptied(c, s');
      Prepend(c, s, e, tr, evs);
      tr, evs := [s] + tr, [e] + evs;
    } else {
      var s' := PopsNext(c, s);
      StepKeepsInv(c, s, s', PopEvent);
      var m;
      tr, evs, m := QueueCanBeEmptied(c, s');
      n := m + 1;
      assert s.queue[..n] == [s.queue[0]] + s'.queue[..m];
      HandleableFirst(c.levels, s.queue[0], s'.queue[..m]);
      Prepend(c, s, PopEvent, tr, evs);
      tr, evs := [s] + tr, [PopEvent] + evs;
    }
  }

  lemma NothingHandleable(levels: set<Level>)
    ensures Handleable(levels, []) == []
  {
  }

  lemma NewPushes(c: Config, s: State, p: nat, e: Event) returns (s1: State, s2: State)
    requires c.cap >= 2 && p !in s.callers && (c.debug || !e.level.LevelDebug?)
    ensures Step(c, s, s1, Call(p, e)) && Step(c, s1, s2, PushEvent(p))
    ensures s2.queue == Enqueued(c.cap, s.queue, e) && s2.handled == s.handled
  {
    s1 := s.(callers := s.callers[p := Pushing(e)]);
    s2 := s1.(queue := Enqueued(c.cap, s.queue, e), callers := s1.callers[p := Testing]);
  }

  /**
   Every event can be handled: from every state of every run, a new call of New with any event that is not suppressed
   can be followed by steps of the handler and of the calls under way, until the event is the last one handled, if
   there is a handler for its level; unless the handler returns, after a fatal event.
   */
  lemma EventCanBeHandled(c: Config, tr: seq<State>, evs: seq<Action>, i: nat, p: nat, e: Event)
    returns (tr': seq<State>, evs': seq<Action>)
    requires c.cap >= 2 && IsRun(c, tr, evs) && i < |tr|
    requires p !in tr[i].callers && (c.debug || !e.level.LevelDebug?)
    ensures IsPath(c, tr', evs') && tr'[0] == tr[i] && |evs'| >= 2 && evs'[0] == Call(p, e)
    ensures forall k :: 1 <= k < |evs'| ==> !evs'[k].Call?
    ensures var s' := tr'[|evs'|];
            || s'.handler.Returned?
            || (s'.queue == []
                && (e.level in c.levels ==> s'.handled != [] && s'.handled[|s'.handled| - 1] == e))
  {
    hide Step, Inv, Handleable;
    RunInv(c, tr, evs, i);
    var s1, s2 := NewPushes(c, tr[i], p, e);
    StepKeepsInv(c, tr[i], s1, Call(p, e));
    StepKeepsInv(c, s1, s2, PushEvent(p));
    var n;
    tr', evs', n := QueueCanBeEmptied(c, s2);
    if n == |s2.queue| {
      var rest := s2.queue[..n - 1];
      assert s2.queue[..n] == s2.queue == rest + [e];
      HandleableAppend(c.levels, rest, e);
    }
    Prepend(c, s1, PushEvent(p), tr', evs');
    tr', evs' := [s1] + tr', [PushEvent(p)] + evs';
    Prepend(c, tr[i], Call(p, e), tr', evs');
    tr', evs' := [tr[i]] + tr', [Call(p, e)] + evs';
  }

  ghost predicate NoDebug(s: State) {
    && (forall e :: e in s.queue || e in s.handled ==> !e.level.LevelDebug?)
    && forall p :: p in s.callers && s.callers[p].Pushing? ==> !s.callers[p].e.level.LevelDebug?
  }

  /** Debug events are suppressed unless they are asked for. */
  lemma {:induction false} DebugIsSuppressed(c: Config, tr: seq<State>, evs: seq<Action>, i: nat)
    requires c.cap >= 2 && IsRun(c, tr, evs) && i < |tr| && !c.debug
    ensures forall e :: e in tr[i].queue || e in tr[i].handled ==> !e.level.LevelDebug?
    ensures NoDebug(tr[i])
  {
    hide Step;
    if i > 0 {
      DebugIsSuppressed(c, tr, evs, i - 1);
      StepKeepsNoDebug(c, tr[i - 1], tr[i], evs[i - 1]);
    }
  }

  lemma StepKeepsNoDebug(c: Config, s: State, s': State, e: Action)
    requires c.cap >= 2 && !c.debug && NoDebug(s) && Step(c, s, s', e)
    ensures NoDebug(s')
  {
  }
}
