/**
 The bounded event queue of the error service. When it is full, the two oldest entries make room for
 a marker, which says that events were lost, and for the new event.
 */
module EventQueues {
  import opened Tasks

  datatype Level = LevelFatal | LevelError | LevelDebug

  datatype Event = Event(level: Level, message: string)

  const SLOW_EVENT_HANDLER := Event(LevelError, "event handler is very slow; some messages are lost")

  /** The entries after a push. */
  function Enqueued(cap: int, queue: seq<Event>, e: Event): seq<Event>
    requires |queue| == cap ==> cap >= 2
  {
    if |queue| == cap then queue[2..] + [SLOW_EVENT_HANDLER, e] else queue + [e]
  }

  /**
   The queue together with its history: log holds every entry ever appended, in order; out, dropped
   and markers are positions in the log.
   */
  datatype History = History(
    queue: seq<Event>,
    log: seq<Event>,
    out: seq<nat>,
    dropped: set<nat>,
    markers: set<nat>)

  const EMPTY := History([], [], [], {}, {})

  datatype Operation = Push(e: Event) | Pop

  function Apply(cap: nat, h: History, op: Operation): History
    requires cap >= 2 && |h.queue| <= |h.log|
  {
    var first := |h.log| - |h.queue|;
    match op
    case Push(e) =>
      if |h.queue| == cap
      then h.(queue := Enqueued(cap, h.queue, e), log := h.log + [SLOW_EVENT_HANDLER, e],
              dropped := h.dropped + {first, first + 1}, markers := h.markers + {|h.log|})
      else h.(queue := Enqueued(cap, h.queue, e), log := h.log + [e])
    case Pop =>
      if h.queue == [] then h else h.(queue := h.queue[1..], out := h.out + [first])
  }

  ghost predicate Inv(cap: nat, h: History) {
    && |h.queue| <= cap && |h.queue| <= |h.log|
    && h.queue == h.log[|h.log| - |h.queue|..]
    // every entry that has left was either popped or dropped
    && (forall k :: 0 <= k < |h.log| - |h.queue| ==> (k in h.dropped <==> k !in h.out))
    && (forall k :: k in h.dropped || k in h.out ==> k < |h.log| - |h.queue|)
    && (forall i, j :: 0 <= i < j < |h.out| ==> h.out[i] < h.out[j])
    && (forall m :: m in h.markers ==> m < |h.log| && h.log[m] == SLOW_EVENT_HANDLER)
    // the marker of the latest overflow is later than every drop, and was not dropped
    && (h.dropped != {} ==> exists m :: m in h.markers && LatestLoss(h, m))
  }

  ghost predicate LatestLoss(h: History, m: nat) {
    m !in h.dropped && forall d :: d in h.dropped ==> d < m
  }

  function Run(cap: nat, ops: seq<Operation>): (h: History)
    requires cap >= 2
    ensures |h.queue| <= |h.log|
  {
    if ops == [] then EMPTY else Apply(cap, Run(cap, ops[..|ops| - 1]), ops[|ops| - 1])
  }

  lemma OverflowKeepsInv(cap: nat, h: History, e: Event)
    requires cap >= 2 && Inv(cap, h) && |h.queue| == cap
    ensures Inv(cap, Apply(cap, h, Push(e)))
  {
    var h' := Apply(cap, h, Push(e));
    var first := |h.log| - |h.queue|;
    assert h'.log[|h.log|] == SLOW_EVENT_HANDLER;
    assert h'.log[first + 2..] == h.log[first..][2..] + [SLOW_EVENT_HANDLER, e];
    assert |h.log| in h'.markers && LatestLoss(h', |h.log|);
    forall k | 0 <= k < first + 2
      ensures k in h'.dropped <==> k !in h'.out
    {
      assert k >= first ==> k !in h.out;
    }
  }

  lemma AppendKeepsInv(cap: nat, h: History, e: Event)
    requires cap >= 2 && Inv(cap, h) && |h.queue| < cap
    ensures Inv(cap, Apply(cap, h, Push(e)))
  {
    var h' := Apply(cap, h, Push(e));
    assert h'.log[|h.log| - |h.queue|..] == h.queue + [e];
    if h'.dropped != {} {
      var m :| m in h.markers && LatestLoss(h, m);
      assert LatestLoss(h', m);
    }
  }

  lemma PopKeepsInv(cap: nat, h: History)
    requires cap >= 2 && Inv(cap, h)
    ensures Inv(cap, Apply(cap, h, Pop))
  {
    if h.queue != [] {
      var h' := Apply(cap, h, Pop);
      var first := |h.log| - |h.queue|;
      assert h'.out[|h.out|] == first;
      forall i, j | 0 <= i < j < |h'.out|
        ensures h'.out[i] < h'.out[j]
      {
        assert h.out[i] in h.out;
      }
      forall k | 0 <= k <= first
        ensures k in h'.dropped <==> k !in h'.out
      {
        assert k in h'.out <==> k in h.out || k == first;
      }
      if h'.dropped != {} {
        var m :| m in h.markers && LatestLoss(h, m);
        assert LatestLoss(h', m);
      }
    }
  }

  lemma {:induction false} RunInv(cap: nat, ops: seq<Operation>)
    requires cap >= 2
    ensures Inv(cap, Run(cap, ops))
  {
    if ops != [] {
      var h, op := Run(cap, ops[..|ops| - 1]), ops[|ops| - 1];
      RunInv(cap, ops[..|ops| - 1]);
      match op
      case Push(e) =>
        if |h.queue| == cap {
          OverflowKeepsInv(cap, h, e);
        } else {
          AppendKeepsInv(cap, h, e);
        }
      case Pop =>
        PopKeepsInv(cap, h);
    }
  }

  /**
   Bounded and lossy, but never silently: after any sequence of operations the queue is within its
   capacity and holds the most recent entries in order; what was popped came out in order; every entry
   that has left was popped or dropped, not both; and after every drop there is a marker, appended
   after the dropped entry, that is still queued or was popped.
   */
  lemma BoundedAndNeverSilent(cap: nat, ops: seq<Operation>)
    requires cap >= 2
    ensures var h := Run(cap, ops);
            && |h.queue| <= cap
            && h.queue == h.log[|h.log| - |h.queue|..]
            && (forall i, j :: 0 <= i < j < |h.out| ==> h.out[i] < h.out[j])
            && (forall k :: 0 <= k < |h.log| - |h.queue| ==> (k in h.dropped <==> k !in h.out))
            && (forall d :: d in h.dropped ==>
                  exists m :: m in h.markers && d < m && (m in h.out || |h.log| - |h.queue| <= m < |h.log|))
  {
    RunInv(cap, ops);
    var h := Run(cap, ops);
    if h.dropped != {} {
      var m :| m in h.markers && LatestLoss(h, m);
      assert m in h.out || |h.log| - |h.queue| <= m;
    }
  }

  /** Each overflow drops exactly the two oldest entries, and nothing else ever drops one. */
  lemma OverflowDropsTwoOldest(cap: nat, ops: seq<Operation>, op: Operation)
    requires cap >= 2
    ensures var h, h' := Run(cap, ops), Run(cap, ops + [op]);
            var first := |h.log| - |h.queue|;
            && h' == Apply(cap, h, op)
            && h'.dropped - h.dropped == (if op.Push? && |h.queue| == cap then {first, first + 1} else {})
            && (op.Push? && |h.queue| == cap ==> h'.queue == h.queue[2..] + [SLOW_EVENT_HANDLER, op.e])
  {
    hide Inv, Apply;
    RunInv(cap, ops);
    assert (ops + [op])[..|ops|] == ops && (ops + [op])[|ops|] == op;
    DropsExactly(cap, Run(cap, ops), op);
  }

  lemma DropsExactly(cap: nat, h: History, op: Operation)
    requires cap >= 2 && Inv(cap, h)
    ensures var first := |h.log| - |h.queue|;
            Apply(cap, h, op).dropped - h.dropped
            == if op.Push? && |h.queue| == cap then {first, first + 1} else {}
    ensures op.Push? && |h.queue| == cap ==> Apply(cap, h, op).queue == h.queue[2..] + [SLOW_EVENT_HANDLER, op.e]
  {
    var first := |h.log| - |h.queue|;
    assert first !in h.dropped && first + 1 !in h.dropped;
  }

  // ---------- What goes in and what comes out ----------

  /** The events that were pushed. */
  function Pushes(ops: seq<Operation>): seq<Event> {
    if ops == [] then []
    else Pushes(ops[..|ops| - 1]) + match ops[|ops| - 1]
                                    case Push(e) => [e]
                                    case Pop => []
  }

  /** What the operations Pop have answered. */
  function Answers(cap: nat, ops: seq<Operation>): seq<Event>
    requires cap >= 2
  {
    if ops == [] then []
    else
      var before := Run(cap, ops[..|ops| - 1]);
      Answers(cap, ops[..|ops| - 1])
      + if ops[|ops| - 1].Pop? && before.queue != [] then [before.queue[0]] else []
  }

  /** The log without its markers. */
  function Unmarked(log: seq<Event>, markers: set<nat>): seq<Event> {
    if log == [] then []
    else Unmarked(log[..|log| - 1], markers) + if |log| - 1 in markers then [] else [log[|log| - 1]]
  }

  lemma {:induction false} UnmarkedIgnoresLater(log: seq<Event>, markers: set<nat>, m: nat)
    requires |log| <= m
    ensures Unmarked(log, markers + {m}) == Unmarked(log, markers)
  {
    if log != [] {
      UnmarkedIgnoresLater(log[..|log| - 1], markers, m);
    }
  }

  lemma UnmarkedAppend(log: seq<Event>, markers: set<nat>, e: Event)
    ensures Unmarked(log + [e], markers) == Unmarked(log, markers) + if |log| in markers then [] else [e]
  {
    assert (log + [e])[..|log|] == log;
  }

  lemma PushIsLogged(cap: nat, h: History, e: Event)
    requires cap >= 2 && Inv(cap, h)
    ensures var h' := Apply(cap, h, Push(e));
            Unmarked(h'.log, h'.markers) == Unmarked(h.log, h.markers) + [e]
  {
    var h' := Apply(cap, h, Push(e));
    if |h.queue| == cap {
      var marked := h.log + [SLOW_EVENT_HANDLER];
      UnmarkedAppend(marked, h'.markers, e);
      UnmarkedAppend(h.log, h'.markers, SLOW_EVENT_HANDLER);
      UnmarkedIgnoresLater(h.log, h.markers, |h.log|);
      assert h'.log == marked + [e];
    } else {
      UnmarkedAppend(h.log, h.markers, e);
    }
  }

  /** A Pop of a queue that is not empty answers the oldest entry and takes it, and only it, away. */
  lemma PopTakesOldest(cap: nat, h: History)
    requires cap >= 2 && Inv(cap, h) && h.queue != []
    ensures var h', first := Apply(cap, h, Pop), |h.log| - |h.queue|;
            && h.queue == [h.log[first]] + h'.queue && h'.out == h.out + [first]
            && h'.log == h.log && h'.dropped == h.dropped && h'.markers == h.markers
  {
  }

  lemma {:induction false} LogIsPushes(cap: nat, ops: seq<Operation>)
    requires cap >= 2
    ensures Unmarked(Run(cap, ops).log, Run(cap, ops).markers) == Pushes(ops)
  {
    hide Inv, Unmarked;
    if ops == [] {
      NothingUnmarked();
    } else {
      var before := ops[..|ops| - 1];
      LogIsPushes(cap, before);
      RunInv(cap, before);
      if ops[|ops| - 1].Push? {
        PushIsLogged(cap, Run(cap, before), ops[|ops| - 1].e);
      }
    }
  }

  lemma NothingUnmarked()
    ensures Unmarked([], {}) == []
  {
  }

  /** The k-th answer is the log entry at the k-th position in out. */
  ghost predicate AnswersMatch(h: History, answers: seq<Event>) {
    && |answers| == |h.out|
    && forall k :: 0 <= k < |h.out| ==> h.out[k] < |h.log| && answers[k] == h.log[h.out[k]]
  }

  lemma {:induction false} AnswersAreLogged(cap: nat, ops: seq<Operation>)
    requires cap >= 2
    ensures AnswersMatch(Run(cap, ops), Answers(cap, ops))
  {
    hide Inv, Apply, AnswersMatch;
    if ops == [] {
      NoAnswersYet();
    } else {
      var before, op := ops[..|ops| - 1], ops[|ops| - 1];
      AnswersAreLogged(cap, before);
      RunInv(cap, before);
      ApplyKeepsMatch(cap, Run(cap, before), Answers(cap, before), op);
      assert Answers(cap, before) + [] == Answers(cap, before);
    }
  }

  lemma NoAnswersYet()
    ensures AnswersMatch(EMPTY, [])
  {
  }

  lemma ApplyKeepsMatch(cap: nat, h: History, answers: seq<Event>, op: Operation)
    requires cap >= 2 && Inv(cap, h) && AnswersMatch(h, answers)
    ensures AnswersMatch(Apply(cap, h, op), if op.Pop? && h.queue != [] then answers + [h.queue[0]] else answers)
  {
    match op
    case Push(e) => LogGrows(cap, h, e);
    case Pop =>
      if h.queue != [] {
        PopTakesOldest(cap, h);
      }
  }

  /**
   Nothing is made up and nothing is lost unseen: after any sequence of operations the log is exactly the events
   pushed, in order, with the markers between them; the Pops have answered exactly the entries at the positions
   in out; and every entry of the log was popped, was dropped, or is still queued, and only one of these.
   */
  lemma EverythingIsAccounted(cap: nat, ops: seq<Operation>)
    requires cap >= 2
    ensures var h, first := Run(cap, ops), |Run(cap, ops).log| - |Run(cap, ops).queue|;
            && Unmarked(h.log, h.markers) == Pushes(ops)
            && |Answers(cap, ops)| == |h.out|
            && (forall k :: 0 <= k < |h.out| ==> h.out[k] < first && Answers(cap, ops)[k] == h.log[h.out[k]])
            && h.queue == h.log[first..]
            && forall k :: 0 <= k < first ==> (k in h.dropped <==> k !in h.out)
  {
    hide Run, Answers, Unmarked, Pushes;
    RunInv(cap, ops);
    LogIsPushes(cap, ops);
    AnswersAreLogged(cap, ops);
    PoppedAreGone(cap, Run(cap, ops));
  }

  lemma LogGrows(cap: nat, h: History, e: Event)
    requires cap >= 2 && Inv(cap, h)
    ensures h.log <= Apply(cap, h, Push(e)).log && Apply(cap, h, Push(e)).out == h.out
  {
  }

  lemma PoppedAreGone(cap: nat, h: History)
    requires Inv(cap, h)
    ensures forall k :: 0 <= k < |h.out| ==> h.out[k] < |h.log| - |h.queue|
  {
    forall k | 0 <= k < |h.out|
      ensures h.out[k] < |h.log| - |h.queue|
    {
      assert h.out[k] in h.out;
    }
  }

  class EventQueue {
    const maxQueueCap: int
    var queue: seq<Event>
    ghost var history: History

    /** The queue holds what its history says. */
    ghost predicate Valid()
      reads this
    {
      maxQueueCap >= 2 ==> history.queue == queue && |queue| <= |history.log|
    }

    constructor (maxQueueCap: int)
      ensures Valid() && queue == [] && history == EMPTY && this.maxQueueCap == maxQueueCap
    {
      this.maxQueueCap := maxQueueCap;
      this.queue := [];
      this.history := EMPTY;
    }

    /** With a capacity below two the slice expression on a full queue is out of range. */
    method Push(e: Event) returns (panicked: bool)
      requires Valid()
      modifies this
      ensures Valid()
      ensures panicked <==> |old(queue)| == maxQueueCap < 2
      ensures panicked ==> queue == old(queue)
      ensures !panicked ==>
                queue == if |old(queue)| == maxQueueCap
                         then old(queue)[2..] + [SLOW_EVENT_HANDLER, e] else old(queue) + [e]
      ensures !panicked && maxQueueCap >= 2 ==> history == Apply(maxQueueCap, old(history), Operation.Push(e))
    {
      if |queue| == maxQueueCap {
        if |queue| < 2 {
          return true;
        }
        queue := queue[2..];
        queue := queue + [SLOW_EVENT_HANDLER];
      }
      queue := queue + [e];
      if maxQueueCap >= 2 {
        history := Apply(maxQueueCap, history, Operation.Push(e));
      }
      panicked := false;
    }

    /** None stands for the error EventQueueIsEmpty. */
    method Pop() returns (e: Option<Event>)
      requires Valid()
      modifies this
      ensures Valid()
      ensures e.None? <==> old(queue) == []
      ensures old(queue) == (if e.Some? then [e.value] else []) + queue
      ensures maxQueueCap >= 2 ==> history == Apply(maxQueueCap, old(history), Operation.Pop)
    {
      if |queue| > 0 {
        e := Some(queue[0]);
        queue := queue[1..];
        if maxQueueCap >= 2 {
          history := Apply(maxQueueCap, history, Operation.Pop);
        }
      } else {
        e := None;
      }
    }
  }
}
