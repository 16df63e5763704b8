/**
 The buffer that takes rolled back tasks in and offers them again: one goroutine between two
 channels of capacity one, with an unbounded list in the middle.
 */
module RollbackBuffer {
  import opened Tasks

  datatype State = State(
    inbox: seq<Task>,              // channel In, capacity 1
    inClosed: bool,
    inNil: bool,                   // b.In was set to nil
    list: seq<Task>,
    outbox: seq<Task>,             // channel Out, capacity 1
    outClosed: bool,
    accepted: seq<Task>,           // all tasks ever sent on In
    delivered: seq<Task>)          // all tasks ever received from Out

  datatype Event =
    | Put(task: Task)              // a client sends on In
    | CloseIn
    | Accept                       // run receives from In and appends to the list
    | SeeClosed                    // run finds In closed while the list is not empty
    | Offer                        // run sends the front of the list on Out
    | CloseOut                     // run closes Out and returns
    | Get                          // a client receives from Out

  const EMPTY := State([], false, false, [], [], false, [], [])

  ghost predicate Step(s: State, s': State, e: Event) {
    match e
    case Put(task) =>
      && !s.inClosed && |s.inbox| < 1
      && s' == s.(inbox := s.inbox + [task], accepted := s.accepted + [task])
    case CloseIn =>
      && !s.inClosed
      && s' == s.(inClosed := true)
    case Accept =>
      && !s.outClosed && !s.inNil && s.inbox != []
      && s' == s.(inbox := s.inbox[1..], list := s.list + [s.inbox[0]])
    case SeeClosed =>
      && !s.outClosed && !s.inNil && s.inbox == [] && s.inClosed && s.list != []
      && s' == s.(inNil := true)
    case Offer =>
      && !s.outClosed && s.list != [] && |s.outbox| < 1
      && s' == s.(list := s.list[1..], outbox := s.outbox + [s.list[0]])
    case CloseOut =>
      && !s.outClosed && s.list == [] && (s.inNil || (s.inbox == [] && s.inClosed))
      && s' == s.(outClosed := true)
    case Get =>
      && s.outbox != []
      && s' == s.(outbox := s.outbox[1..], delivered := s.delivered + [s.outbox[0]])
  }

  ghost predicate IsRun(tr: seq<State>, evs: seq<Event>) {
    && |tr| == |evs| + 1 && tr[0] == EMPTY
    && forall i :: 0 <= i < |evs| ==> Step(tr[i], tr[i + 1], evs[i])
  }

  /** The tasks inside, in the order in which they will come out. */
  function Contents(s: State): seq<Task> {
    s.outbox + s.list + s.inbox
  }

  ghost predicate Inv(s: State) {
    s.accepted == s.delivered + Contents(s) && Bounds(s)
  }

  ghost predicate Bounds(s: State) {
    && |s.inbox| <= 1 && |s.outbox| <= 1
    && (s.inNil ==> s.inClosed && s.inbox == [])
    && (s.outClosed ==> s.inClosed && s.inbox == [] && s.list == [])
  }

  function PutIn(e: Event): seq<Task> {
    if e.Put? then [e.task] else []
  }

  function TakenOut(s: State, e: Event): seq<Task> {
    if e.Get? && s.outbox != [] then [s.outbox[0]] else []
  }

  lemma PutGoesLast(s: State, s': State, task: Task)
    requires Step(s, s', Put(task))
    ensures Contents(s') == Contents(s) + [task]
  {
  }

  lemma AcceptKeepsOrder(s: State, s': State)
    requires Step(s, s', Accept)
    ensures Contents(s') == Contents(s)
  {
    var x, rest := [s.inbox[0]], s.inbox[1..];
    assert s.inbox == x + rest;
    assert s.outbox + (s.list + x) + rest == s.outbox + s.list + (x + rest);
  }

  lemma OfferKeepsOrder(s: State, s': State)
    requires Step(s, s', Offer)
    ensures Contents(s') == Contents(s)
  {
    var x, rest := [s.list[0]], s.list[1..];
    assert s.list == x + rest;
    assert (s.outbox + x) + rest + s.inbox == s.outbox + (x + rest) + s.inbox;
  }

  lemma GetTakesFirst(s: State, s': State)
    requires Step(s, s', Get)
    ensures Contents(s) == [s.outbox[0]] + Contents(s')
  {
    var x, rest := [s.outbox[0]], s.outbox[1..];
    assert s.outbox == x + rest;
    assert (x + rest) + s.list + s.inbox == x + (rest + s.list + s.inbox);
  }

  /** Tasks enter at the back and leave at the front, and keep their order in between. */
  lemma StepMovesInOrder(s: State, s': State, e: Event)
    requires Step(s, s', e)
    ensures Contents(s) + PutIn(e) == TakenOut(s, e) + Contents(s')
    ensures s'.accepted == s.accepted + PutIn(e) && s'.delivered == s.delivered + TakenOut(s, e)
  {
    hide Contents;
    match e
    case Put(task) => PutGoesLast(s, s', task);
    case Accept => AcceptKeepsOrder(s, s');
    case Offer => OfferKeepsOrder(s, s');
    case Get => GetTakesFirst(s, s');
    case _ => SameContents(s, s');
  }

  lemma SameContents(s: State, s': State)
    requires s'.outbox == s.outbox && s'.list == s.list && s'.inbox == s.inbox
    ensures Contents(s') == Contents(s)
  {
  }

  lemma StepKeepsContents(s: State, s': State, e: Event)
    requires Step(s, s', e)
    ensures e.Put? ==> multiset(Contents(s')) == multiset(Contents(s)) + multiset{e.task}
    ensures e.Get? ==> multiset(Contents(s)) == multiset(Contents(s')) + multiset{s.outbox[0]}
    ensures !e.Put? && !e.Get? ==> multiset(Contents(s')) == multiset(Contents(s))
  {
    hide Contents;
    match e
    case Put(task) => PutGoesLast(s, s', task);
    case Accept => AcceptKeepsOrder(s, s');
    case Offer => OfferKeepsOrder(s, s');
    case Get => GetTakesFirst(s, s');
    case _ => SameContents(s, s');
  }

  lemma StepKeepsBounds(s: State, s': State, e: Event)
    requires Bounds(s) && Step(s, s', e)
    ensures Bounds(s')
  {
  }

  lemma StepKeepsInv(s: State, s': State, e: Event)
    requires Inv(s) && Step(s, s', e)
    ensures Inv(s')
  {
    hide Contents, PutIn, TakenOut, Step, Bounds;
    StepMovesInOrder(s, s', e);
    StepKeepsBounds(s, s', e);
    assert s'.accepted == s.delivered + (Contents(s) + PutIn(e));
  }

  lemma {:induction false} RunInv(tr: seq<State>, evs: seq<Event>, i: nat)
    requires IsRun(tr, evs) && i < |tr|
    ensures Inv(tr[i])
  {
    if i > 0 {
      RunInv(tr, evs, i - 1);
      StepKeepsInv(tr[i - 1], tr[i], evs[i - 1]);
    }
  }

  /**
   First in, first out, nothing lost: what was put in is, in order, what came out followed by what is
   inside; and Out is closed only after In was closed and everything was offered.
   */
  lemma FirstInFirstOut(tr: seq<State>, evs: seq<Event>, i: nat)
    requires IsRun(tr, evs) && i < |tr|
    ensures tr[i].accepted == tr[i].delivered + tr[i].outbox + tr[i].list + tr[i].inbox
    ensures tr[i].outClosed ==> tr[i].inClosed && tr[i].accepted == tr[i].delivered + tr[i].outbox
  {
    RunInv(tr, evs, i);
    assert tr[i].delivered + Contents(tr[i]) == tr[i].delivered + tr[i].outbox + tr[i].list + tr[i].inbox;
  }

  /** How much the goroutine still has to do once In is closed. */
  function Work(s: State): nat {
    2 * |s.inbox| + |s.list| + (if s.inNil then 0 else 1) + if s.outClosed then 0 else 1
  }

  /**
   Draining: after In is closed, each step of the goroutine brings it closer to closing Out, and it is
   blocked only while a client has yet to take the task on Out.
   */
  lemma ClosingDrains(s: State, s': State, e: Event)
    requires Inv(s) && s.inClosed
    ensures Step(s, s', e) && !e.Get? ==> Work(s') < Work(s)
    ensures !s.outClosed && s.outbox == [] ==> exists t, f :: Step(s, t, f) && !f.Get? && !f.Put? && !f.CloseIn?
  {
    if !s.outClosed && s.outbox == [] {
      if s.list != [] {
        assert Step(s, s.(list := s.list[1..], outbox := s.outbox + [s.list[0]]), Offer);
      } else if s.inbox != [] {
        assert Step(s, s.(inbox := s.inbox[1..], list := s.list + [s.inbox[0]]), Accept);
      } else {
        assert Step(s, s.(outClosed := true), CloseOut);
      }
    }
  }

  /** What the goroutine has to do before it waits for clients. */
  function Backlog(s: State): nat {
    2 * |s.inbox| + |s.list|
  }

  /**
   The front comes out, whether In is closed or not: while there is something inside and nothing on Out, the goroutine
   can step, without changing the order; and what is on Out is the front.
   */
  lemma FrontComesOut(s: State) returns (s': State, e: Event)
    requires Bounds(s) && s.outbox == [] && Contents(s) != []
    ensures Step(s, s', e) && (e.Accept? || e.Offer?)
    ensures Backlog(s') < Backlog(s) && Contents(s') == Contents(s)
  {
    if s.list != [] {
      e, s' := Offer, s.(list := s.list[1..], outbox := s.outbox + [s.list[0]]);
      OfferKeepsOrder(s, s');
    } else {
      e, s' := Accept, s.(inbox := s.inbox[1..], list := s.list + [s.inbox[0]]);
      AcceptKeepsOrder(s, s');
    }
  }
}
