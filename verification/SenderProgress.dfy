/**
 The sender service is never stuck: whatever calls are under way, the goroutines can bring every confirmed task to
 its deletion, and every rolled back task to a consumer that waits for one.
 */
module SenderProgress {
  import opened Tasks
  import opened Sender
  import Batching
  import RollbackBuffer

  /** What no call can break, however often the results of Consume are called. */
  ghost predicate OpenInv(s: State) {
    && BufferOpen(s) && Batching.OpenInv(s.batching)
    && forall c :: c in s.consumes ==> s.consumes[c] < |s.handles|
  }

  lemma StepKeepsWaiting(max: nat, s: State, s': State, e: Event)
    requires Step(max, s, s', e) && forall c :: c in s.consumes ==> s.consumes[c] < |s.handles|
    ensures forall c :: c in s'.consumes ==> s'.consumes[c] < |s'.handles|
  {
    hide Batching.Step, RollbackBuffer.Step;
  }

  lemma StepKeepsBatching(max: nat, s: State, s': State, e: Event)
    requires Step(max, s, s', e) && Batching.OpenInv(s.batching)
    ensures Batching.OpenInv(s'.batching)
  {
    hide Batching.Step, RollbackBuffer.Step, Batching.OpenInv;
    if e.ReadConfirm? {
      Batching.StepKeepsOpen(max, s.batching, s'.batching, Batching.Read(s.toConfirm[0]));
    } else if e.BatchStep? {
      Batching.StepKeepsOpen(max, s.batching, s'.batching, e.g);
    }
  }

  lemma {:induction false} RunOpen(max: nat, tr: seq<State>, evs: seq<Event>, i: nat)
    requires IsRun(max, tr, evs) && i < |tr|
    ensures OpenInv(tr[i])
  {
    hide Step, BufferOpen, Batching.OpenInv;
    if i > 0 {
      RunOpen(max, tr, evs, i - 1);
      StepKeepsBufferOpen(max, tr[i - 1], tr[i], evs[i - 1]);
      StepKeepsBatching(max, tr[i - 1], tr[i], evs[i - 1]);
      StepKeepsWaiting(max, tr[i - 1], tr[i], evs[i - 1]);
    } else {
      StartsOpen();
    }
  }

  lemma StartsOpen()
    ensures BufferOpen(INIT) && Batching.OpenInv(INIT.batching)
  {
  }

  // ---------- The confirm path ----------

  /** A step of the batching goroutines or of a confirmation worker. */
  predicate Deletes(e: Event) {
    e.ReadConfirm? || e.BatchStep? || e.FinishBatch?
  }

  ghost predicate Drained(s: State) {
    s.toConfirm == [] && Batching.Settled(s.batching) && s.batching.batch == [] && s.unconfirmed == []
  }

  ghost predicate Closer(s: State, s': State) {
    || |s'.toConfirm| < |s.toConfirm|
    || (s'.toConfirm == s.toConfirm
        && (|| Batching.Backlog(s'.batching) < Batching.Backlog(s.batching)
            || (s'.batching == s.batching && |s'.unconfirmed| < |s.unconfirmed|)))
  }

  /** Nothing but the confirm path has changed, and what has left it was deleted. */
  ghost predicate OnlyConfirms(s: State, s': State) {
    && s' == s.(toConfirm := s'.toConfirm, batching := s'.batching, unconfirmed := s'.unconfirmed,
                confirmed := s'.confirmed)
    && ConfirmPath(s) + s.confirmed == ConfirmPath(s') + s'.confirmed
  }

  lemma BatchStepConfirms(max: nat, s: State, s': State, b: Batching.Event)
    requires DoBatchStep(max, s, s', b)
    ensures Deletes(BatchStep(b)) && Step(max, s, s', BatchStep(b)) && OnlyConfirms(s, s')
  {
    hide Batching.Step, ConfirmPath;
    BatchStepMoves(max, s, s', b);
  }

  lemma BatchingGoesOn(max: nat, s: State) returns (s': State, e: Event)
    requires Batching.OpenInv(s.batching) && !Batching.Settled(s.batching)
    ensures Deletes(e) && Step(max, s, s', e) && OnlyConfirms(s, s') && Closer(s, s')
  {
    hide Batching.OpenInv, Batching.Settled, Batching.Step, Batching.Backlog, Batching.Held, OnlyConfirms, Step,
         ConfirmPath;
    var g', g := Batching.BacklogMoves(max, s.batching);
    Batching.PassingOnShrinksBacklog(max, s.batching, g', g);
    Batching.StepKeepsHeld(max, s.batching, g', g);
    e := BatchStep(g);
    s' := s.(batching := g',
             unconfirmed := if g.Emit? then s.unconfirmed + [s.batching.forwarder.batch] else s.unconfirmed);
    BatchStepConfirms(max, s, s', g);
  }

  lemma ReadGoesOn(max: nat, s: State) returns (s': State)
    requires s.toConfirm != [] && s.batching.producer.Collecting?
    ensures Step(max, s, s', ReadConfirm) && OnlyConfirms(s, s') && Closer(s, s')
  {
    hide ConfirmPath;
    var g, t := s.batching, s.toConfirm[0];
    var batch := g.batch + [t];
    s' := s.(toConfirm := s.toConfirm[1..],
             batching := g.(batch := batch, read := g.read + [t],
                            producer := if |batch| == max then Batching.Pushing else Batching.Collecting));
    ReadConfirmMoves(max, s, s');
  }

  lemma ExpiryGoesOn(max: nat, s: State) returns (s': State, e: Event)
    requires s.batching.producer.Collecting? && s.batching.batch != []
    ensures Deletes(e) && Step(max, s, s', e) && OnlyConfirms(s, s') && Closer(s, s')
  {
    hide ConfirmPath;
    e, s' := BatchStep(Batching.Expire), s.(batching := s.batching.(producer := Batching.Pushing));
    BatchStepConfirms(max, s, s', Batching.Expire);
  }

  lemma WorkerGoesOn(max: nat, s: State) returns (s': State)
    requires s.unconfirmed != []
    ensures Step(max, s, s', FinishBatch(0)) && OnlyConfirms(s, s') && Closer(s, s')
  {
    hide ConfirmPath;
    s' := s.(unconfirmed := s.unconfirmed[..0] + s.unconfirmed[1..],
             confirmed := s.confirmed + multiset(s.unconfirmed[0]));
    FinishBatchMoves(s, s', 0);
  }

  /** Until everything on the confirm path is deleted, some goroutine can bring it closer to that. */
  lemma ConfirmPathGoesOn(max: nat, s: State) returns (s': State, e: Event)
    requires OpenInv(s) && !Drained(s)
    ensures Deletes(e) && Step(max, s, s', e) && OnlyConfirms(s, s') && Closer(s, s')
  {
    hide OnlyConfirms, Closer, Step, Batching.OpenInv, BufferOpen;
    if !Batching.Settled(s.batching) && !(s.toConfirm != [] && s.batching.producer.Collecting?) {
      s', e := BatchingGoesOn(max, s);
    } else if s.toConfirm != [] {
      e := ReadConfirm;
      s' := ReadGoesOn(max, s);
    } else if s.batching.batch != [] {
      s', e := ExpiryGoesOn(max, s);
    } else {
      e := FinishBatch(0);
      s' := WorkerGoesOn(max, s);
    }
  }

  lemma DrainedIsEmpty(s: State)
    requires Drained(s)
    ensures ConfirmPath(s) == multiset{}
  {
  }

  lemma ConfirmsOn(s: State, s1: State, s2: State)
    requires OnlyConfirms(s, s1) && OnlyConfirms(s1, s2)
    ensures OnlyConfirms(s, s2)
  {
    hide ConfirmPath;
  }

  lemma StepKeepsOpen(max: nat, s: State, s': State, e: Event)
    requires OpenInv(s) && Step(max, s, s', e)
    ensures OpenInv(s')
  {
    hide Step, BufferOpen, Batching.OpenInv;
    StepKeepsBufferOpen(max, s, s', e);
    StepKeepsBatching(max, s, s', e);
    StepKeepsWaiting(max, s, s', e);
  }

  lemma {:induction false} Drains(max: nat, s: State) returns (tr: seq<State>, evs: seq<Event>)
    requires OpenInv(s)
    ensures IsPath(max, tr, evs) && tr[0] == s && forall i :: 0 <= i < |evs| ==> Deletes(evs[i])
    ensures OnlyConfirms(s, tr[|evs|]) && Drained(tr[|evs|])
    decreases |s.toConfirm|, Batching.Backlog(s.batching), |s.unconfirmed|
  {
    hide OpenInv, Step, OnlyConfirms, Drained, Batching.Backlog;
    if Drained(s) {
      tr, evs := [s], [];
      ConfirmsNothing(s);
    } else {
      var s', e := ConfirmPathGoesOn(max, s);
      StepKeepsOpen(max, s, s', e);
      tr, evs := Drains(max, s');
      ConfirmsOn(s, s', tr[|evs|]);
      DeletesOnce(s, e, tr, evs);
      Prepend(max, s, e, tr, evs);
      tr, evs := [s] + tr, [e] + evs;
    }
  }

  lemma ConfirmsNothing(s: State)
    ensures OnlyConfirms(s, s)
  {
    hide ConfirmPath;
  }

  lemma DeletesOnce(s: State, e: Event, tr: seq<State>, evs: seq<Event>)
    requires |tr| == |evs| + 1 && Deletes(e) && forall i :: 0 <= i < |evs| ==> Deletes(evs[i])
    ensures Once(s, e) && forall i :: 0 <= i < |evs| ==> Once(tr[i], evs[i])
  {
  }

  /**
   Every confirmed task comes to be deleted: from every state of every run, however often the results of Consume
   were called, the batching goroutines and the workers alone can delete exactly what is on the confirm path, with
   the partial batch, and nothing else changes meanwhile.
   */
  lemma ConfirmedCanBeDeleted(max: nat, tr: seq<State>, evs: seq<Event>, i: nat)
    returns (tr': seq<State>, evs': seq<Event>)
    requires IsRun(max, tr, evs) && i < |tr|
    ensures IsPath(max, tr', evs') && tr'[0] == tr[i] && forall k :: 0 <= k < |evs'| ==> Deletes(evs'[k])
    ensures var s, s' := tr[i], tr'[|evs'|];
            && ConfirmPath(s') == multiset{} && s'.confirmed == s.confirmed + ConfirmPath(s)
            && s' == s.(toConfirm := s'.toConfirm, batching := s'.batching, unconfirmed := s'.unconfirmed,
                        confirmed := s'.confirmed)
  {
    hide OpenInv, Step, Drained, ConfirmPath;
    RunOpen(max, tr, evs, i);
    tr', evs' := Drains(max, tr[i]);
    DrainedIsEmpty(tr'[|evs'|]);
    var path, done, done' := ConfirmPath(tr[i]), tr[i].confirmed, tr'[|evs'|].confirmed;
    assert multiset{} + done' == done' == done + path;
  }

  // ---------- The rollback path ----------

  lemma {:induction false} ServesFront(max: nat, s: State, c: nat) returns (tr: seq<State>, evs: seq<Event>)
    requires BufferOpen(s) && c in s.consumes && s.consumes[c] < |s.handles|
    requires RollbackBuffer.Contents(s.buffer) != []
    ensures IsPath(max, tr, evs) && tr[0] == s && 0 < |evs| && evs[|evs| - 1] == ReceiveRolledBack(c)
    ensures forall i :: 0 <= i < |evs| - 1 ==> evs[i].BufferStep?
    ensures forall i :: 0 <= i < |evs| ==> Once(tr[i], evs[i])
    ensures var s', front := tr[|evs|], RollbackBuffer.Contents(s.buffer);
            && s' == Returned(s, c, front[0]).(buffer := s'.buffer)
            && front == [front[0]] + RollbackBuffer.Contents(s'.buffer)
    decreases RollbackBuffer.Backlog(s.buffer)
  {
    hide RollbackBuffer.Contents, RollbackBuffer.Step, RollbackBuffer.Backlog;
    if s.buffer.outbox != [] {
      var s' := FrontIsServed(max, s, c);
      tr, evs := [s, s'], [ReceiveRolledBack(c)];
    } else {
      var b, g := RollbackBuffer.FrontComesOut(s.buffer);
      var s1 := s.(buffer := b);
      RollbackBuffer.StepKeepsBounds(s.buffer, b, g);
      BufferStaysOpen(s, s1, g);
      tr, evs := ServesFront(max, s1, c);
      Prepend(max, s, BufferStep(g), tr, evs);
      tr, evs := [s] + tr, [BufferStep(g)] + evs;
    }
  }

  lemma BufferStaysOpen(s: State, s1: State, g: RollbackBuffer.Event)
    requires BufferOpen(s) && s1 == s.(buffer := s1.buffer) && RollbackBuffer.Step(s.buffer, s1.buffer, g)
    requires g.Accept? || g.Offer?
    ensures BufferOpen(s1)
  {
  }

  lemma FrontIsServed(max: nat, s: State, c: nat) returns (s': State)
    requires c in s.consumes && s.consumes[c] < |s.handles| && s.buffer.outbox != []
    ensures Step(max, s, s', ReceiveRolledBack(c))
    ensures var front := RollbackBuffer.Contents(s.buffer);
            && front != [] && s' == Returned(s, c, front[0]).(buffer := s'.buffer)
            && front == [front[0]] + RollbackBuffer.Contents(s'.buffer)
  {
    var b := s.buffer;
    var b' := b.(outbox := b.outbox[1..], delivered := b.delivered + [b.outbox[0]]);
    s' := Returned(s, c, b.outbox[0]).(buffer := b');
    RollbackBuffer.GetTakesFirst(b, b');
  }

  /**
   Every rolled back task comes back: in every state of every run in which a Consume waits and a task is on the
   rollback path, the goroutine of the buffer can bring the task that was rolled back first to that Consume.
   */
  lemma RolledBackCanReturn(max: nat, tr: seq<State>, evs: seq<Event>, i: nat, c: nat)
    returns (tr': seq<State>, evs': seq<Event>)
    requires IsRun(max, tr, evs) && i < |tr| && c in tr[i].consumes && RollbackPath(tr[i]) != multiset{}
    ensures IsPath(max, tr', evs') && tr'[0] == tr[i] && 0 < |evs'| && evs'[|evs'| - 1] == ReceiveRolledBack(c)
    ensures forall k :: 0 <= k < |evs'| - 1 ==> evs'[k].BufferStep?
    ensures var s, s' := tr[i], tr'[|evs'|];
            var tasks := s.buffer.outbox + s.buffer.list + s.buffer.inbox;
            && s'.results == s.results + [Result(s.consumes[c], tasks[0], Fresh)]
            && tasks == [tasks[0]] + s'.buffer.outbox + s'.buffer.list + s'.buffer.inbox
  {
    hide Step, BufferOpen, Batching.OpenInv, Once;
    RunOpen(max, tr, evs, i);
    tr', evs' := ServesFront(max, tr[i], c);
    var t, b := RollbackBuffer.Contents(tr[i].buffer)[0], tr'[|evs'|].buffer;
    assert [t] + (b.outbox + b.list + b.inbox) == [t] + b.outbox + b.list + b.inbox;
  }
}
