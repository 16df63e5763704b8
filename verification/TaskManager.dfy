/**
 The task manager: retried calls of the repository, and the metric All, which it keeps up to date by
 publishing differences after the fact.
 */
module TaskManager {
  import opened Tasks

  /** What one call of the repository returns. */
  datatype Outcome = Ok | Deadlock | LockWaitTimeout | TaskExist | OtherError

  /** The attempts that retry makes when attempt i would return results[i]. */
  function Attempts(results: seq<Outcome>, retryable: set<Outcome>, maxRetry: int): (n: nat)
    requires Ok !in retryable && maxRetry <= |results|
    ensures n <= |results| && n <= if maxRetry < 0 then 0 else maxRetry
    decreases |results|
  {
    if maxRetry <= 0 then 0
    else if results[0] !in retryable then 1
    else 1 + Attempts(results[1..], retryable, maxRetry - 1)
  }

  method Retry(results: seq<Outcome>, retryable: set<Outcome>, maxRetry: int) returns (err: Outcome, calls: nat)
    requires Ok !in retryable && maxRetry <= |results|
    ensures calls == Attempts(results, retryable, maxRetry)
    ensures err == if calls == 0 then Ok else results[calls - 1]
  {
    err, calls := Ok, 0;
    var try := 1;
    while try <= maxRetry
      invariant 1 <= try && calls == try - 1 <= |results| && (maxRetry >= 1 ==> calls <= maxRetry)
      invariant err == if calls == 0 then Ok else results[calls - 1]
      invariant Attempts(results, retryable, maxRetry)
             == calls + Attempts(results[calls..], retryable, maxRetry - calls)
    {
      err := results[calls];
      calls := calls + 1;
      assert results[calls - 1..][1..] == results[calls..];
      if err != Ok {
        if err in retryable {
          try := try + 1;
          continue;
        }
      }
      break;
    }
  }

  /** All attempts but the last ended in a retryable error, and retry stops early only for a reason. */
  lemma {:induction false} RetryStopsAtFirstFinal(results: seq<Outcome>, retryable: set<Outcome>, maxRetry: int)
    requires Ok !in retryable && maxRetry <= |results|
    ensures var n := Attempts(results, retryable, maxRetry);
            && (maxRetry >= 1 ==> n >= 1)
            && (forall i :: 0 <= i < n - 1 ==> results[i] in retryable)
            && (n < maxRetry ==> results[n - 1] !in retryable)
    decreases |results|
  {
    if maxRetry > 0 && results[0] in retryable {
      RetryStopsAtFirstFinal(results[1..], retryable, maxRetry - 1);
      var n := Attempts(results, retryable, maxRetry);
      forall i | 0 <= i < n - 1
        ensures results[i] in retryable
      {
        if i > 0 {
          assert results[i] == results[1..][i - 1];
        }
      }
    }
  }

  /**
   At most one attempt succeeds, namely the last one; and retry reports success exactly when one did,
   provided that at least one attempt is allowed. With MaxRetry below one it reports success for nothing.
   */
  lemma SuccessMeansOneEffect(results: seq<Outcome>, retryable: set<Outcome>, maxRetry: int)
    requires Ok !in retryable && maxRetry <= |results|
    ensures var n := Attempts(results, retryable, maxRetry);
            var err := if n == 0 then Ok else results[n - 1];
            && (forall i :: 0 <= i < n && results[i] == Ok ==> i == n - 1)
            && ((err == Ok <==> exists i :: 0 <= i < n && results[i] == Ok) <==> maxRetry >= 1)
  {
    RetryStopsAtFirstFinal(results, retryable, maxRetry);
  }

  // ---------- The metric All ----------

  datatype Kind = Create(id: string) | Delete(id: string) | ConfirmExecution(ids: seq<string>)

  datatype Phase =
    | Attempting                   // about to call the repository
    | Publishing(delta: int)       // the call succeeded, the metric is still to be told
    | Done

  /** An operation with the number of its repository calls, and of those that changed the tables. */
  datatype Operation = Operation(kind: Kind, calls: nat, effects: nat, phase: Phase)

  datatype State = State(rows: set<string>, all: int, ops: seq<Operation>)

  datatype Event =
    | Begin(kind: Kind)
    | Succeed(k: nat)
    | Fail(k: nat, outcome: Outcome)
    | SkipAll(k: nat)              // no attempt is allowed
    | Publish(k: nat)

  function Ids(kind: Kind): set<string> {
    match kind
    case Create(id) => {id}
    case Delete(id) => {id}
    case ConfirmExecution(ids) => set id | id in ids
  }

  function RowsAfter(rows: set<string>, kind: Kind): set<string> {
    if kind.Create? then rows + Ids(kind) else rows - Ids(kind)
  }

  /** New counts the rows, initializes the metric and publishes the count. */
  ghost predicate Init(s: State) {
    s.all == |s.rows| && s.ops == []
  }

  ghost predicate DoSucceed(s: State, s': State, k: nat) {
    && k < |s.ops| && s.ops[k].phase.Attempting?
    && var op := s.ops[k];
       var rows := RowsAfter(s.rows, op.kind);
       var delta := |rows| - |s.rows|;
       && (op.kind.Create? ==> op.kind.id !in s.rows)
       && s' == s.(rows := rows,
                   ops := s.ops[k := op.(calls := op.calls + 1, effects := op.effects + 1,
                                         phase := if op.kind.Delete? && delta == 0 then Done else Publishing(delta))])
  }

  /** A failed call leaves the rows as they are; a deadlock is tried again while attempts are left. */
  ghost predicate DoFail(maxRetry: int, s: State, s': State, k: nat, outcome: Outcome) {
    && k < |s.ops| && s.ops[k].phase.Attempting? && !outcome.Ok?
    && var op := s.ops[k];
       var again := outcome.Deadlock? && op.calls + 1 < maxRetry;
       s' == s.(ops := s.ops[k := op.(calls := op.calls + 1, phase := if again then Attempting else Done)])
  }

  ghost predicate DoSkip(s: State, s': State, k: nat) {
    && k < |s.ops| && s.ops[k].phase.Attempting?
    && var op := s.ops[k];
       var phase := match op.kind
                    case Create(_) => Publishing(1)
                    case Delete(_) => Done
                    case ConfirmExecution(_) => Publishing(0);
       s' == s.(ops := s.ops[k := op.(phase := phase)])
  }

  ghost predicate DoPublish(s: State, s': State, k: nat) {
    && k < |s.ops| && s.ops[k].phase.Publishing?
    && s' == s.(all := s.all + s.ops[k].phase.delta, ops := s.ops[k := s.ops[k].(phase := Done)])
  }

  ghost predicate Step(maxRetry: int, s: State, s': State, e: Event) {
    match e
    case Begin(kind) => s' == s.(ops := s.ops + [Operation(kind, 0, 0, Attempting)])
    case Succeed(k) => maxRetry >= 1 && DoSucceed(s, s', k)
    case Fail(k, outcome) => maxRetry >= 1 && DoFail(maxRetry, s, s', k, outcome)
    case SkipAll(k) => maxRetry < 1 && DoSkip(s, s', k)
    case Publish(k) => DoPublish(s, s', k)
  }

  ghost predicate IsRun(maxRetry: int, tr: seq<State>, evs: seq<Event>) {
    && |tr| == |evs| + 1 && Init(tr[0])
    && forall i :: 0 <= i < |evs| ==> Step(maxRetry, tr[i], tr[i + 1], evs[i])
  }

  function Unpublished(ops: seq<Operation>): int {
    if ops == [] then 0
    else (if ops[0].phase.Publishing? then ops[0].phase.delta else 0) + Unpublished(ops[1..])
  }

  lemma UnpublishedAlone(op: Operation)
    ensures Unpublished([op]) == if op.phase.Publishing? then op.phase.delta else 0
  {
    assert Unpublished([]) == 0;
  }

  lemma {:induction false} UnpublishedAfterUpdate(ops: seq<Operation>, k: nat, op: Operation)
    requires k < |ops|
    ensures Unpublished(ops[k := op]) - Unpublished([op]) == Unpublished(ops) - Unpublished([ops[k]])
  {
    if k == 0 {
      assert ops[0 := op][1..] == ops[1..];
    } else {
      UnpublishedAfterUpdate(ops[1..], k - 1, op);
      assert ops[k := op][1..] == ops[1..][k - 1 := op];
    }
  }

  lemma {:induction false} UnpublishedAfterBegin(ops: seq<Operation>, op: Operation)
    requires op.phase.Attempting?
    ensures Unpublished(ops + [op]) == Unpublished(ops)
  {
    if ops == [] {
      assert ops + [op] == [op];
    } else {
      UnpublishedAfterBegin(ops[1..], op);
      assert (ops + [op])[1..] == ops[1..] + [op];
    }
  }

  ghost predicate Inv(maxRetry: int, s: State) {
    && s.all + Unpublished(s.ops) == |s.rows|
    && forall k :: 0 <= k < |s.ops| ==> OperationInv(maxRetry, s.ops[k])
  }

  ghost predicate OperationInv(maxRetry: int, op: Operation) {
    && op.effects <= 1 && op.calls <= maxRetry
    && (op.phase.Attempting? ==> op.effects == 0 && op.calls < maxRetry)
  }

  lemma StepKeepsInv(maxRetry: int, s: State, s': State, e: Event)
    requires maxRetry >= 1 && Inv(maxRetry, s) && Step(maxRetry, s, s', e)
    ensures Inv(maxRetry, s')
  {
    hide Unpublished, Ids, RowsAfter;
    if e.Succeed? || e.Fail? || e.Publish? {
      UnpublishedAlone(s.ops[e.k]);
      UnpublishedAlone(s'.ops[e.k]);
    }
    match e
    case Begin(kind) => UnpublishedAfterBegin(s.ops, Operation(kind, 0, 0, Attempting));
    case Succeed(k) => UnpublishedAfterUpdate(s.ops, k, s'.ops[k]);
    case Fail(k, outcome) => UnpublishedAfterUpdate(s.ops, k, s'.ops[k]);
    case Publish(k) => UnpublishedAfterUpdate(s.ops, k, s'.ops[k]);
  }

  lemma {:induction false} RunInv(maxRetry: int, tr: seq<State>, evs: seq<Event>, i: nat)
    requires maxRetry >= 1 && IsRun(maxRetry, tr, evs) && i < |tr|
    ensures Inv(maxRetry, tr[i])
  {
    if i > 0 {
      RunInv(maxRetry, tr, evs, i - 1);
      StepKeepsInv(maxRetry, tr[i - 1], tr[i], evs[i - 1]);
    }
  }

  lemma {:induction false} NothingUnpublished(ops: seq<Operation>)
    requires forall k :: 0 <= k < |ops| ==> !ops[k].phase.Publishing?
    ensures Unpublished(ops) == 0
  {
    if ops != [] {
      assert !ops[0].phase.Publishing?;
      NothingUnpublished(ops[1..]);
    }
  }

  /**
   The metric All equals the number of stored rows whenever no operation is between its effect and its
   publication, for any interleaving of creates, deletes and confirmations, duplicate and already
   deleted ids included; and every operation makes at most MaxRetry calls, of which at most one has an
   effect.
   */
  lemma AllCountsRows(maxRetry: int, tr: seq<State>, evs: seq<Event>, i: nat)
    requires maxRetry >= 1 && IsRun(maxRetry, tr, evs) && i < |tr|
    ensures (forall k :: 0 <= k < |tr[i].ops| ==> !tr[i].ops[k].phase.Publishing?) ==> tr[i].all == |tr[i].rows|
    ensures forall k :: 0 <= k < |tr[i].ops| ==> tr[i].ops[k].calls <= maxRetry && tr[i].ops[k].effects <= 1
  {
    RunInv(maxRetry, tr, evs, i);
    if forall k :: 0 <= k < |tr[i].ops| ==> !tr[i].ops[k].phase.Publishing? {
      NothingUnpublished(tr[i].ops);
    }
  }

  /** Without an allowed attempt a create counts a row that does not exist. */
  lemma NoAttemptMiscounts(maxRetry: int) returns (tr: seq<State>, evs: seq<Event>)
    requires maxRetry < 1
    ensures IsRun(maxRetry, tr, evs) && |tr| == 4
    ensures tr[3].all == 1 && tr[3].rows == {} && tr[3].ops == [Operation(Create("x"), 0, 0, Done)]
  {
    var op := Operation(Create("x"), 0, 0, Attempting);
    var s0 := State({}, 0, []);
    var s1 := State({}, 0, [op]);
    var s2 := State({}, 0, [op.(phase := Publishing(1))]);
    var s3 := State({}, 1, [op.(phase := Done)]);
    tr, evs := [s0, s1, s2, s3], [Begin(Create("x")), SkipAll(0), Publish(0)];
    assert Step(maxRetry, s0, s1, evs[0]) && Step(maxRetry, s1, s2, evs[1]) && Step(maxRetry, s2, s3, evs[2]);
  }

  // ---------- The rows ----------

  ghost predicate Creates(s: State, e: Event, id: string) {
    e.Succeed? && e.k < |s.ops| && s.ops[e.k].kind == Create(id)
  }

  ghost predicate Removes(s: State, e: Event, id: string) {
    && e.Succeed? && e.k < |s.ops|
    && var kind := s.ops[e.k].kind;
       kind == Delete(id) || (kind.ConfirmExecution? && id in kind.ids)
  }

  /**
   What a successful call does: a create adds the one row that was absent; a delete or a confirmation leaves no row
   of its ids; all other rows stay; and what is to be published is by how many rows the table has grown, which a
   delete of nothing leaves out.
   */
  lemma SuccessMeans(maxRetry: int, s: State, s': State, k: nat)
    requires Step(maxRetry, s, s', Succeed(k))
    ensures var kind, grown := s.ops[k].kind, |s'.rows| - |s.rows|;
            && s'.ops[k].phase == (if kind.Delete? && s'.rows == s.rows then Done else Publishing(grown))
            && match kind
               case Create(id) => id !in s.rows && grown == 1 && forall x :: x in s'.rows <==> x in s.rows || x == id
               case Delete(id) =>
                 && grown == (if id in s.rows then -1 else 0)
                 && forall x :: x in s'.rows <==> x in s.rows && x != id
               case ConfirmExecution(ids) =>
                 && grown == -|s.rows * set x | x in ids|
                 && forall x :: x in s'.rows <==> x in s.rows && x !in ids
  {
    hide Ids;
    var kind := s.ops[k].kind;
    RowsAfterMeans(s.rows, kind);
    match kind
    case Create(id) => SetGrows(s.rows, id);
    case Delete(id) => SetShrinks(s.rows, Ids(kind));
    case ConfirmExecution(ids) => SetShrinks(s.rows, Ids(kind));
  }

  lemma RowsAfterMeans(rows: set<string>, kind: Kind)
    ensures !kind.ConfirmExecution? ==> Ids(kind) == {kind.id}
    ensures kind.Create? ==> RowsAfter(rows, kind) == rows + {kind.id}
    ensures !kind.Create? ==> RowsAfter(rows, kind) == rows - Ids(kind)
    ensures kind.Delete? ==> rows * Ids(kind) == if kind.id in rows then {kind.id} else {}
    ensures kind.ConfirmExecution? ==> Ids(kind) == set x | x in kind.ids
  {
  }

  lemma SetGrows(rows: set<string>, id: string)
    requires id !in rows
    ensures |rows + {id}| == |rows| + 1
  {
  }

  lemma SetShrinks(rows: set<string>, gone: set<string>)
    ensures |rows - gone| == |rows| - |rows * gone|
    ensures rows * gone == {} ==> rows - gone == rows
  {
    assert rows == (rows - gone) + (rows * gone);
  }

  lemma OnlySuccessTouchesRows(maxRetry: int, s: State, s': State, e: Event, id: string)
    requires Step(maxRetry, s, s', e)
    ensures id in s'.rows <==> Creates(s, e, id) || (id in s.rows && !Removes(s, e, id))
    ensures Creates(s, e, id) ==> id !in s.rows
  {
    if e.Succeed? {
      SuccessMeans(maxRetry, s, s', e.k);
    } else if e.Fail? || e.SkipAll? || e.Publish? {
      assert s'.rows == s.rows;
    }
  }

  /**
   A row is stored if and only if the last successful call about its id was a create, or it was stored at the start
   and no successful call was about it.
   */
  lemma {:induction false} StoredMeans(maxRetry: int, tr: seq<State>, evs: seq<Event>, i: nat, id: string)
    requires IsRun(maxRetry, tr, evs) && i < |tr|
    ensures id in tr[i].rows <==>
              || (exists j :: 0 <= j < i && Creates(tr[j], evs[j], id)
                              && forall m :: j < m < i ==> !Removes(tr[m], evs[m], id))
              || (id in tr[0].rows && forall m :: 0 <= m < i ==> !Removes(tr[m], evs[m], id))
  {
    hide Step, Init, Creates, Removes;
    if i > 0 {
      StoredMeans(maxRetry, tr, evs, i - 1, id);
      CreatesNotRemoves(tr[i - 1], evs[i - 1], id);
      OnlySuccessTouchesRows(maxRetry, tr[i - 1], tr[i], evs[i - 1], id);
    }
  }

  lemma CreatesNotRemoves(s: State, e: Event, id: string)
    ensures !(Creates(s, e, id) && Removes(s, e, id))
  {
  }

  // ---------- The retries of one operation ----------

  /** What the calls of operation k have returned. */
  function Outcomes(evs: seq<Event>, k: nat): seq<Outcome> {
    if evs == [] then []
    else
      var e := evs[|evs| - 1];
      Outcomes(evs[..|evs| - 1], k)
      + if e == Succeed(k) then [Ok] else if e.Fail? && e.k == k then [e.outcome] else []
  }

  /** The operation is where retry is after these results. */
  ghost predicate Retries(maxRetry: int, op: Operation, results: seq<Outcome>) {
    && op.calls == |results| <= maxRetry
    && (op.phase.Attempting? ==> |results| < maxRetry && forall i :: 0 <= i < |results| ==> results[i].Deadlock?)
    && (!op.phase.Attempting? ==>
          && results != [] && (forall i :: 0 <= i < |results| - 1 ==> results[i].Deadlock?)
          && (|results| < maxRetry ==> !results[|results| - 1].Deadlock?))
    && op.effects == if results != [] && results[|results| - 1].Ok? then 1 else 0
  }

  lemma StepKeepsRetries(maxRetry: int, s: State, s': State, e: Event, k: nat, results: seq<Outcome>)
    requires maxRetry >= 1 && Step(maxRetry, s, s', e) && k < |s.ops| && Retries(maxRetry, s.ops[k], results)
    ensures k < |s'.ops|
    ensures Retries(maxRetry, s'.ops[k],
                    results + if e == Succeed(k) then [Ok] else if e.Fail? && e.k == k then [e.outcome] else [])
  {
    hide RowsAfter;
    assert results + [] == results;
  }

  lemma BeginsWithNone(maxRetry: int, s: State, s': State, e: Event)
    requires maxRetry >= 1 && Step(maxRetry, s, s', e)
    ensures |s.ops| <= |s'.ops|
    ensures |s.ops| < |s'.ops| ==> |s'.ops| == |s.ops| + 1 && Retries(maxRetry, s'.ops[|s.ops|], [])
    ensures e.Succeed? || e.Fail? ==> e.k < |s.ops|
  {
    hide RowsAfter;
  }

  /**
   Every operation follows the retry loop: at every point of every run, its calls so far have all ended in deadlocks
   but for the last one; it tries again exactly if that one did too and attempts are left; and it has had its
   effect exactly if the last call succeeded.
   */
  lemma {:induction false} OperationsRetry(maxRetry: int, tr: seq<State>, evs: seq<Event>, i: nat, k: nat)
    requires maxRetry >= 1 && IsRun(maxRetry, tr, evs) && i < |tr|
    ensures k < |tr[i].ops| ==> Retries(maxRetry, tr[i].ops[k], Outcomes(evs[..i], k))
    ensures k >= |tr[i].ops| ==> Outcomes(evs[..i], k) == []
  {
    hide Step, Retries;
    if i > 0 {
      assert evs[..i][..i - 1] == evs[..i - 1];
      OperationsRetry(maxRetry, tr, evs, i - 1, k);
      BeginsWithNone(maxRetry, tr[i - 1], tr[i], evs[i - 1]);
      if k < |tr[i - 1].ops| {
        StepKeepsRetries(maxRetry, tr[i - 1], tr[i], evs[i - 1], k, Outcomes(evs[..i - 1], k));
      } else {
        assert Outcomes(evs[..i], k) == [];
      }
    }
  }
}
