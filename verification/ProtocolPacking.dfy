/**
 How full collections get. The three statements of a create may have anything between them: claims, deletions,
 cleanups, retries, failures and crashes, and the statements of other creates. Only the number of creates that
 overlap there matters.
 */
module ProtocolPacking {
  import opened Tasks
  import opened Time
  import opened Database
  import opened Protocol

  /** The creates that have chosen their collection, or that there is none, and have not inserted their row. */
  function Overlapping(s: State): set<nat> {
    set k | k in s.creators && (s.creators[k].pc.Inserting? || s.creators[k].pc.Landing?)
  }

  /** The creates that are about to insert their row into collection x. */
  function Landers(s: State, x: nat): set<nat> {
    LandersOf(s.creators, x)
  }

  function LandersOf(creators: map<nat, Creator>, x: nat): set<nat> {
    set k | k in creators && creators[k].pc == Landing(x)
  }

  /** At most n creates overlap between their first statement and their last. */
  ghost predicate AtMost(n: nat, s: State, e: Event) {
    e.Select? ==> |Overlapping(s)| < n
  }

  ghost predicate RowsInv(s: State) {
    && Valid(s.db)
    && (forall id :: id in s.db.tasks ==> id in s.inserted)
    && (forall k :: k in s.creators && s.creators[k].pc.Landing? ==> s.creators[k].pc.collection < s.db.nextId)
  }

  /** Those who are about to land are counted as if they had. */
  ghost predicate Packed(c: Config, n: nat, s: State) {
    forall x :: |Rows(s.db, x)| + |Landers(s, x)| < c.max + n
  }

  ghost predicate Inv(c: Config, n: nat, s: State) {
    RowsInv(s) && |Overlapping(s)| <= n && Packed(c, n, s)
  }

  lemma Subset<T>(a: set<T>, b: set<T>)
    requires a <= b
    ensures |a| <= |b|
  {
    SubsetSize(a, b);
  }

  lemma LandersOverlap(s: State, x: nat)
    ensures |Landers(s, x)| <= |Overlapping(s)|
  {
    Subset(Landers(s, x), Overlapping(s));
  }

  /** Steps after which there are no more rows and no more creates between their statements. */
  lemma FewerKeepsInv(c: Config, n: nat, s: State, s': State)
    requires Inv(c, n, s) && RowsInv(s')
    requires forall x :: Rows(s'.db, x) <= Rows(s.db, x) && Landers(s', x) <= Landers(s, x)
    requires Overlapping(s') <= Overlapping(s)
    ensures Inv(c, n, s')
  {
    hide RowsInv, Rows, Landers, Overlapping;
    Subset(Overlapping(s'), Overlapping(s));
    forall x
      ensures |Rows(s'.db, x)| + |Landers(s', x)| < c.max + n
    {
      Subset(Rows(s'.db, x), Rows(s.db, x));
      Subset(Landers(s', x), Landers(s, x));
    }
  }

  /** A create comes to overlap with the others, and perhaps to be about to land in x. */
  lemma OneMore(s: State, s': State, k: nat, cr: Creator)
    requires k in s.creators && s.creators[k].pc.Selecting? && s'.creators == s.creators[k := cr]
    requires cr.pc.Inserting? || cr.pc.Landing?
    ensures |Overlapping(s')| == |Overlapping(s)| + 1
    ensures forall x :: |Landers(s', x)| == |Landers(s, x)| + if cr.pc == Landing(x) then 1 else 0
  {
    assert Overlapping(s') == Overlapping(s) + {k};
    forall x: nat
      ensures |Landers(s', x)| == |Landers(s, x)| + if cr.pc == Landing(x) then 1 else 0
    {
      if cr.pc == Landing(x) {
        assert Landers(s', x) == Landers(s, x) + {k};
      } else {
        assert Landers(s', x) == Landers(s, x);
      }
    }
  }

  lemma SelectKeepsInv(c: Config, n: nat, s: State, s': State, k: nat, found: Option<nat>)
    requires Inv(c, n, s) && DoSelect(c, s, s', k, found) && |Overlapping(s)| < n
    ensures Inv(c, n, s')
  {
    hide Overlapping, Landers, Rows;
    OneMore(s, s', k, s'.creators[k]);
    forall x: nat
      ensures |Rows(s'.db, x)| + |Landers(s', x)| < c.max + n
    {
      LandersOverlap(s, x);
    }
  }

  lemma InsertCollectionKeepsInv(c: Config, n: nat, s: State, s': State, k: nat)
    requires 1 <= c.max && 1 <= n && Inv(c, n, s) && DoInsertCollection(s, s', k)
    ensures Inv(c, n, s')
  {
    assert Overlapping(s') == Overlapping(s);
    forall x
      ensures |Rows(s'.db, x)| + |Landers(s', x)| < c.max + n
    {
      assert Rows(s'.db, x) == Rows(s.db, x);
      if x == s.db.nextId {
        assert Rows(s.db, x) == {};
        assert Landers(s', x) == {k};
      } else {
        assert Landers(s', x) == Landers(s, x);
      }
    }
  }

  /** A landing moves a create from those about to land to the rows. */
  lemma LandMoves(s: State, s': State, k: nat, x: nat)
    requires RowsInv(s) && DoLand(s, s', k)
    ensures |Rows(s'.db, x)| + |Landers(s', x)| <= |Rows(s.db, x)| + |Landers(s, x)|
  {
    hide Rows, RowsInv, DoLand, Landers;
    var y := LandsIn(s, s', k);
    RowsAfterLanding(s, s', k, x, y);
    LandersAfterLanding(s, s', k, x, y);
  }

  lemma LandsIn(s: State, s': State, k: nat) returns (y: nat)
    requires DoLand(s, s', k)
    ensures k in s.creators && s.creators[k].pc == Landing(y)
  {
    y := s.creators[k].pc.collection;
  }

  lemma RowsAfterLanding(s: State, s': State, k: nat, x: nat, y: nat)
    requires RowsInv(s) && DoLand(s, s', k) && s.creators[k].pc == Landing(y)
    ensures |Rows(s'.db, x)| <= |Rows(s.db, x)| + if x == y then 1 else 0
  {
    hide Rows, Valid, WithTask;
    RowsAfterTask(s.db, s.creators[k].id, y, x);
  }

  lemma LandersAfterLanding(s: State, s': State, k: nat, x: nat, y: nat)
    requires DoLand(s, s', k) && s.creators[k].pc == Landing(y)
    ensures |Landers(s, x)| == |Landers(s', x)| + if x == y then 1 else 0
  {
    hide LandersOf, WithTask;
    OneLanderLess(s.creators, s'.creators, k, x, y);
  }

  lemma OneLanderLess(creators: map<nat, Creator>, creators': map<nat, Creator>, k: nat, x: nat, y: nat)
    requires k in creators && creators[k].pc == Landing(y)
    requires creators' == creators - {k} || creators' == creators[k := creators[k].(pc := Announcing)]
    ensures |LandersOf(creators, x)| == |LandersOf(creators', x)| + if x == y then 1 else 0
  {
    if x == y {
      assert LandersOf(creators, x) == LandersOf(creators', x) + {k};
    } else {
      assert LandersOf(creators', x) == LandersOf(creators, x);
    }
  }

  lemma LandKeepsRows(s: State, s': State, k: nat)
    requires RowsInv(s) && DoLand(s, s', k)
    ensures RowsInv(s') && Overlapping(s') <= Overlapping(s)
  {
  }

  lemma LandKeepsInv(c: Config, n: nat, s: State, s': State, k: nat)
    requires Inv(c, n, s) && DoLand(s, s', k)
    ensures Inv(c, n, s')
  {
    hide RowsInv, DoLand, Rows, Landers, Overlapping;
    LandKeepsRows(s, s', k);
    Subset(Overlapping(s'), Overlapping(s));
    forall x
      ensures |Rows(s'.db, x)| + |Landers(s', x)| < c.max + n
    {
      LandMoves(s, s', k, x);
    }
  }

  lemma OtherCreatorStepsKeepInv(c: Config, n: nat, s: State, s': State, e: Event)
    requires Inv(c, n, s) && Step(c, s, s', e)
    requires e.Begin? || e.Clamp? || e.Announce? || e.Retry? || e.Fail?
    ensures Inv(c, n, s')
  {
    hide Packed;
    FewerKeepsInv(c, n, s, s');
  }

  lemma ClaimKeepsInv(c: Config, n: nat, s: State, s': State, order: seq<nat>)
    requires Inv(c, n, s) && DoClaimAll(s, s', order)
    ensures Inv(c, n, s')
  {
    hide Packed, IsOrdered;
    FewerKeepsInv(c, n, s, s');
  }

  lemma DeleteRowsKeepsInv(c: Config, n: nat, s: State, s': State, ids: set<string>)
    requires Inv(c, n, s) && DoDeleteRows(s, s', ids)
    ensures Inv(c, n, s')
  {
    hide Packed;
    FewerKeepsInv(c, n, s, s');
  }

  lemma CleanDeleteKeepsInv(c: Config, n: nat, s: State, s': State, j: nat)
    requires Inv(c, n, s) && DoCleanDelete(s, s', j)
    ensures Inv(c, n, s')
  {
    hide Packed;
    FewerKeepsInv(c, n, s, s');
  }

  lemma CrashKeepsInv(c: Config, n: nat, s: State, s': State)
    requires Inv(c, n, s) && DoCrash(s, s')
    ensures Inv(c, n, s')
  {
    hide Packed;
    FewerKeepsInv(c, n, s, s');
  }

  /** The other steps touch neither the tables nor the creates. */
  lemma QuietKeepsInv(c: Config, n: nat, s: State, s': State)
    requires Inv(c, n, s) && s'.db == s.db && s'.creators == s.creators && s'.inserted == s.inserted
    ensures Inv(c, n, s')
  {
    hide Packed, Rows;
    FewerKeepsInv(c, n, s, s');
  }

  lemma StepKeepsInv(c: Config, n: nat, s: State, s': State, e: Event)
    requires 1 <= c.max && 1 <= n && Inv(c, n, s) && Step(c, s, s', e) && AtMost(n, s, e)
    ensures Inv(c, n, s')
  {
    hide Inv, Overlapping, DoBegin, DoClamp, DoSelect, DoInsertCollection, DoLand, DoAnnounce, DoRetry, DoFail,
         DoClaimAll, DoDeleteRows, DoCleanDelete, DoCrash;
    match e
    case Select(k, found) => SelectKeepsInv(c, n, s, s', k, found);
    case InsertCollection(k) => InsertCollectionKeepsInv(c, n, s, s', k);
    case Land(k) => LandKeepsInv(c, n, s, s', k);
    case Begin(_, _) => OtherCreatorStepsKeepInv(c, n, s, s', e);
    case Clamp(_) => OtherCreatorStepsKeepInv(c, n, s, s', e);
    case Announce(_) => OtherCreatorStepsKeepInv(c, n, s, s', e);
    case Retry(_) => OtherCreatorStepsKeepInv(c, n, s, s', e);
    case Fail(_) => OtherCreatorStepsKeepInv(c, n, s, s', e);
    case ClaimAll(order) => ClaimKeepsInv(c, n, s, s', order);
    case DeleteRows(ids) => DeleteRowsKeepsInv(c, n, s, s', ids);
    case CleanDelete(j) => CleanDeleteKeepsInv(c, n, s, s', j);
    case Crash => CrashKeepsInv(c, n, s, s');
    case _ => QuietKeepsInv(c, n, s, s');
  }

  lemma InitInv(c: Config, n: nat, s: State)
    requires 1 <= c.max && 1 <= n && Init(s)
    ensures Inv(c, n, s)
  {
    assert Overlapping(s) == {};
    assert forall x :: Rows(s.db, x) == {} && Landers(s, x) == {};
  }

  /**
   The packing bound: in every run in which at most n creates overlap between their first and their last
   statement, whatever else happens there, no collection holds more than max - 1 + n tasks.
   */
  lemma {:induction false} OverlapBoundsExcess(c: Config, n: nat, tr: seq<State>, evs: seq<Event>, i: nat)
    requires 1 <= c.max && 1 <= n && IsRun(c, tr, evs) && i < |tr|
    requires forall k :: 0 <= k < i ==> AtMost(n, tr[k], evs[k])
    ensures Inv(c, n, tr[i]) && forall x :: |Rows(tr[i].db, x)| <= c.max - 1 + n
  {
    hide Step, Inv, AtMost, Init, Rows;
    if i > 0 {
      OverlapBoundsExcess(c, n, tr, evs, i - 1);
      StepKeepsInv(c, n, tr[i - 1], tr[i], evs[i - 1]);
    } else {
      InitInv(c, n, tr[0]);
    }
    PackedBoundsRows(c, n, tr[i]);
  }

  lemma PackedBoundsRows(c: Config, n: nat, s: State)
    requires Inv(c, n, s)
    ensures forall x :: |Rows(s.db, x)| <= c.max - 1 + n
  {
    forall x
      ensures |Rows(s.db, x)| <= c.max - 1 + n
    {
      assert |Rows(s.db, x)| + |Landers(s, x)| < c.max + n;
    }
  }

  /**
   Never overfull: while the statements of creates do not interleave with those of other creates, no
   collection ever holds more than the maximum.
   */
  lemma NeverOverfull(c: Config, tr: seq<State>, evs: seq<Event>, i: nat)
    requires 1 <= c.max && IsRun(c, tr, evs) && i < |tr|
    requires forall k :: 0 <= k < i && evs[k].Select? ==> Overlapping(tr[k]) == {}
    ensures Valid(tr[i].db) && forall x :: |Rows(tr[i].db, x)| <= c.max
  {
    hide Step, Init, Overlapping;
    OverlapBoundsExcess(c, 1, tr, evs, i);
  }

  // ---------- The bound is reached ----------

  /** A piece of a run in which at most n creates overlap. */
  ghost predicate IsPath(c: Config, n: nat, tr: seq<State>, evs: seq<Event>) {
    && |tr| == |evs| + 1
    && forall i :: 0 <= i < |evs| ==> Step(c, tr[i], tr[i + 1], evs[i]) && AtMost(n, tr[i], evs[i])
  }

  lemma Joined(c: Config, n: nat, tr: seq<State>, evs: seq<Event>, tr': seq<State>, evs': seq<Event>)
    requires IsPath(c, n, tr, evs) && IsPath(c, n, tr', evs') && tr[|evs|] == tr'[0]
    ensures IsPath(c, n, tr + tr'[1..], evs + evs')
    ensures (tr + tr'[1..])[|evs + evs'|] == tr'[|evs'|]
  {
    hide Step, AtMost;
    var a, b := tr + tr'[1..], evs + evs';
    forall i | 0 <= i < |b|
      ensures Step(c, a[i], a[i + 1], b[i]) && AtMost(n, a[i], b[i])
    {
      if i < |evs| {
        assert a[i] == tr[i] && a[i + 1] == tr[i + 1];
      } else {
        assert a[i] == tr'[i - |evs|] && a[i + 1] == tr'[i - |evs| + 1];
      }
    }
  }

  /** A name for each create. */
  function Id(i: nat): (id: string)
    ensures |id| == i
  {
    if i == 0 then "" else Id(i - 1) + "a"
  }

  function Lander(i: nat, execTime: int, clock: int): Creator {
    Creator(Id(i), execTime, false, clock, clock, Landing(1))
  }

  /** The first j creates have inserted their rows into collection 1. */
  function Stored(j: nat): (tasks: map<string, nat>)
    ensures forall id :: id in tasks ==> |id| < j && tasks[id] == 1
    ensures |tasks| == j
  {
    if j == 0 then map[]
    else
      var before := Stored(j - 1);
      assert Id(j - 1) !in before;
      before[Id(j - 1) := 1]
  }

  function History(j: nat, execTime: int): (inserted: map<string, Insert>)
    ensures forall id :: id in inserted ==> |id| < j
  {
    if j == 0 then map[] else History(j - 1, execTime)[Id(j - 1) := Insert(1, execTime)]
  }

  /** The n creates after the first j are about to insert theirs. */
  function Waiting(j: nat, n: nat, execTime: int, clock: int): (creators: map<nat, Creator>)
    ensures forall k :: k in creators <==> j <= k < j + n
    ensures forall k :: k in creators ==> creators[k] == Lander(k, execTime, clock)
    ensures |creators| == n
  {
    if n == 0 then map[]
    else
      var before := Waiting(j, n - 1, execTime, clock);
      before[j + n - 1 := Lander(j + n - 1, execTime, clock)]
  }

  function Filled(execTime: int, clock: int, j: nat, n: nat): State {
    State(Db(map[1 := Collection(execTime, 0)], Stored(j), 2), clock, 1, Waiting(j, n, execTime, clock), Idle, [],
          map[], map[], [], false, History(j, execTime), {}, {}, multiset{}, multiset{}, {}, {}, {})
  }

  ghost predicate NotTakenNow(c: Config, execTime: int, clock: int) {
    && FitsColumn(execTime) && SaneClock(clock) && Unix(clock) <= execTime && !IsTaken(c, execTime, clock)
  }

  lemma FilledRows(execTime: int, clock: int, j: nat, n: nat)
    ensures |Rows(Filled(execTime, clock, j, n).db, 1)| == j
  {
    assert Rows(Filled(execTime, clock, j, n).db, 1) == Stored(j).Keys;
  }

  lemma FilledOverlap(s: State, execTime: int, clock: int, j: nat, n: nat, cr: Creator)
    requires s.creators == Waiting(j, n, execTime, clock)[j + n := cr] && cr.pc.Selecting?
    ensures |Overlapping(s)| == n
  {
    assert Overlapping(s) == Waiting(j, n, execTime, clock).Keys;
  }

  lemma WaitingNext(j: nat, n: nat, execTime: int, clock: int)
    ensures Waiting(j, n + 1, execTime, clock)
         == Waiting(j, n, execTime, clock)[j + n := Lander(j + n, execTime, clock)]
  {
  }

  lemma WaitingRest(j: nat, n: nat, execTime: int, clock: int)
    requires n >= 1
    ensures Waiting(j + 1, n - 1, execTime, clock) == Waiting(j, n, execTime, clock) - {j}
  {
    hide Waiting;
  }

  lemma StoredNext(j: nat, execTime: int)
    ensures Stored(j + 1) == Stored(j)[Id(j) := 1] && Id(j) !in Stored(j)
    ensures History(j + 1, execTime) == History(j, execTime)[Id(j) := Insert(1, execTime)]
    ensures Id(j) !in History(j, execTime)
  {
  }

  /** One more create chooses the collection while it has room. */
  lemma OneSelects(c: Config, m: nat, execTime: int, clock: int, j: nat, n: nat)
    returns (tr: seq<State>, evs: seq<Event>)
    requires NotTakenNow(c, execTime, clock) && j < c.max && n < m
    ensures IsPath(c, m, tr, evs)
    ensures tr[0] == Filled(execTime, clock, j, n) && tr[|evs|] == Filled(execTime, clock, j, n + 1)
  {
    hide Step, AtMost, IsPath, Stored, History, Waiting, Rows, IsTaken, FitsColumn, SaneClock;
    var k, s0, s3 := j + n, Filled(execTime, clock, j, n), Filled(execTime, clock, j, n + 1);
    var cr := Lander(k, execTime, clock);
    var s1 := s0.(creators := s0.creators[k := cr.(pc := Started)]);
    var s2 := s0.(creators := s0.creators[k := cr.(pc := Selecting)]);
    StartsSelecting(c, m, s0, s1, s2, k, cr);
    Selects(c, m, execTime, clock, j, n, s2);
    ThreeSteps(c, m, s0, s1, s2, s3, Begin(k, Task(cr.id, execTime)), Clamp(k), Select(k, Some(1)));
    tr, evs := [s0, s1, s2, s3], [Begin(k, Task(cr.id, execTime)), Clamp(k), Select(k, Some(1))];
  }

  lemma ThreeSteps(c: Config, n: nat, s0: State, s1: State, s2: State, s3: State, e0: Event, e1: Event, e2: Event)
    requires Step(c, s0, s1, e0) && AtMost(n, s0, e0) && Step(c, s1, s2, e1) && AtMost(n, s1, e1)
    requires Step(c, s2, s3, e2) && AtMost(n, s2, e2)
    ensures IsPath(c, n, [s0, s1, s2, s3], [e0, e1, e2])
  {
    hide Step, AtMost;
  }

  lemma StartsSelecting(c: Config, m: nat, s0: State, s1: State, s2: State, k: nat, cr: Creator)
    requires NotTakenNow(c, cr.execTime, s0.clock) && k !in s0.creators
    requires !cr.isTaken && cr.startedAt == cr.clampedAt == s0.clock
    requires s1 == s0.(creators := s0.creators[k := cr.(pc := Started)])
    requires s2 == s0.(creators := s0.creators[k := cr.(pc := Selecting)])
    ensures Step(c, s0, s1, Begin(k, Task(cr.id, cr.execTime))) && AtMost(m, s0, Begin(k, Task(cr.id, cr.execTime)))
    ensures Step(c, s1, s2, Clamp(k)) && AtMost(m, s1, Clamp(k))
  {
    hide IsTaken, FitsColumn, SaneClock;
  }

  lemma Selects(c: Config, m: nat, execTime: int, clock: int, j: nat, n: nat, s: State)
    requires NotTakenNow(c, execTime, clock) && j < c.max && n < m
    requires var cr := Lander(j + n, execTime, clock).(pc := Selecting);
             s == Filled(execTime, clock, j, n).(creators := Waiting(j, n, execTime, clock)[j + n := cr])
    ensures Step(c, s, Filled(execTime, clock, j, n + 1), Select(j + n, Some(1)))
    ensures AtMost(m, s, Select(j + n, Some(1)))
  {
    hide Overlapping, Waiting, FitsColumn, SaneClock, IsTaken, DoSelect, Step, AtMost, Rows, Filled;
    FilledRows(execTime, clock, j, n);
    FilledFields(execTime, clock, j, n);
    FilledOverlap(s, execTime, clock, j, n, s.creators[j + n]);
    WaitingNext(j, n, execTime, clock);
    SelectsOne(c, s, j + n, Lander(j + n, execTime, clock), Waiting(j, n, execTime, clock));
    SelectIsStep(c, m, s, Filled(execTime, clock, j, n + 1), j + n, Some(1));
  }

  lemma FilledFields(execTime: int, clock: int, j: nat, n: nat)
    ensures var f := Filled(execTime, clock, j, n);
            && f.me == 1 && f.db.collections == map[1 := Collection(execTime, 0)]
            && Filled(execTime, clock, j, n + 1) == f.(creators := Waiting(j, n + 1, execTime, clock))
  {
    hide Waiting, Stored, History;
  }

  lemma SelectIsStep(c: Config, n: nat, s: State, s': State, k: nat, found: Option<nat>)
    requires DoSelect(c, s, s', k, found) && |Overlapping(s)| < n
    ensures Step(c, s, s', Select(k, found)) && AtMost(n, s, Select(k, found))
  {
    hide DoSelect, Overlapping;
  }

  lemma SelectsOne(c: Config, s: State, k: nat, cr: Creator, others: map<nat, Creator>)
    requires s.creators == others[k := cr.(pc := Selecting)] && cr.pc == Landing(1) && !cr.isTaken
    requires FitsColumn(cr.execTime) && s.me == 1
    requires 1 in s.db.collections && s.db.collections[1] == Collection(cr.execTime, 0) && |Rows(s.db, 1)| < c.max
    ensures DoSelect(c, s, s.(creators := others[k := cr]), k, Some(1))
  {
    hide Rows, FitsColumn;
    assert s.creators[k := cr] == others[k := cr];
  }

  lemma OneLands(c: Config, m: nat, execTime: int, clock: int, j: nat, n: nat)
    requires n >= 1
    ensures IsPath(c, m, [Filled(execTime, clock, j, n), Filled(execTime, clock, j + 1, n - 1)], [Land(j)])
  {
    var s, s' := Filled(execTime, clock, j, n), Filled(execTime, clock, j + 1, n - 1);
    hide Step, AtMost, Filled, IsPath;
    Lands(c, m, execTime, clock, j, n);
    OneStep(c, m, Filled(execTime, clock, j, n), Filled(execTime, clock, j + 1, n - 1), Land(j));
  }

  lemma OneStep(c: Config, n: nat, s: State, s': State, e: Event)
    requires Step(c, s, s', e) && AtMost(n, s, e)
    ensures IsPath(c, n, [s, s'], [e])
  {
    hide Step, AtMost;
  }

  lemma Lands(c: Config, m: nat, execTime: int, clock: int, j: nat, n: nat)
    requires n >= 1
    ensures Step(c, Filled(execTime, clock, j, n), Filled(execTime, clock, j + 1, n - 1), Land(j))
    ensures AtMost(m, Filled(execTime, clock, j, n), Land(j))
  {
    hide Stored, History, Waiting, DoLand;
    WaitingRest(j, n, execTime, clock);
    StoredNext(j, execTime);
    LandsOne(Filled(execTime, clock, j, n), j, Lander(j, execTime, clock));
  }

  lemma LandsOne(s: State, k: nat, cr: Creator)
    requires k in s.creators && s.creators[k] == cr && cr.pc == Landing(1) && !cr.isTaken
    requires cr.id !in s.inserted && 1 in s.db.collections && s.claimed == {}
    ensures DoLand(s, s.(db := WithTask(s.db, cr.id, 1), inserted := s.inserted[cr.id := Insert(1, cr.execTime)],
                         creators := s.creators - {k}), k)
  {
  }

  lemma {:induction false} ManySelect(c: Config, m: nat, execTime: int, clock: int, j: nat, n: nat)
    returns (tr: seq<State>, evs: seq<Event>)
    requires NotTakenNow(c, execTime, clock) && j < c.max && n <= m
    ensures IsPath(c, m, tr, evs)
    ensures tr[0] == Filled(execTime, clock, j, 0) && tr[|evs|] == Filled(execTime, clock, j, n)
    decreases n
  {
    hide Step, AtMost, NotTakenNow, Filled;
    if n == 0 {
      return [Filled(execTime, clock, j, 0)], [];
    }
    tr, evs := ManySelect(c, m, execTime, clock, j, n - 1);
    var tr', evs' := OneSelects(c, m, execTime, clock, j, n - 1);
    Joined(c, m, tr, evs, tr', evs');
    tr, evs := tr + tr'[1..], evs + evs';
  }

  lemma {:induction false} ManyLand(c: Config, m: nat, execTime: int, clock: int, j: nat, n: nat)
    returns (tr: seq<State>, evs: seq<Event>)
    ensures IsPath(c, m, tr, evs)
    ensures tr[0] == Filled(execTime, clock, j, n) && tr[|evs|] == Filled(execTime, clock, j + n, 0)
    decreases n
  {
    hide Step, AtMost, Filled;
    if n == 0 {
      return [Filled(execTime, clock, j, 0)], [];
    }
    OneLands(c, m, execTime, clock, j, n);
    tr, evs := ManyLand(c, m, execTime, clock, j + 1, n - 1);
    var first := [Filled(execTime, clock, j, n), Filled(execTime, clock, j + 1, n - 1)];
    Joined(c, m, first, [Land(j)], tr, evs);
    tr, evs := first + tr[1..], [Land(j)] + evs;
  }

  lemma {:induction false} FillsUp(c: Config, m: nat, execTime: int, clock: int, j: nat)
    returns (tr: seq<State>, evs: seq<Event>)
    requires NotTakenNow(c, execTime, clock) && j <= c.max && 1 <= m
    ensures IsPath(c, m, tr, evs)
    ensures tr[0] == Filled(execTime, clock, 0, 0) && tr[|evs|] == Filled(execTime, clock, j, 0)
    decreases j
  {
    hide Step, AtMost, NotTakenNow, Filled;
    if j == 0 {
      return [Filled(execTime, clock, 0, 0)], [];
    }
    tr, evs := FillsUp(c, m, execTime, clock, j - 1);
    var tr1, evs1 := OneSelects(c, m, execTime, clock, j - 1, 0);
    Joined(c, m, tr, evs, tr1, evs1);
    tr, evs := tr + tr1[1..], evs + evs1;
    OneLands(c, m, execTime, clock, j - 1, 1);
    var last := [Filled(execTime, clock, j - 1, 1), Filled(execTime, clock, j, 0)];
    Joined(c, m, tr, evs, last, [Land(j - 1)]);
    tr, evs := tr + last[1..], evs + [Land(j - 1)];
  }

  /** A create that opens the collection and then fails. */
  lemma CollectionIsOpened(c: Config, m: nat, execTime: int, clock: int) returns (tr: seq<State>, evs: seq<Event>)
    requires NotTakenNow(c, execTime, clock) && 1 <= m
    ensures IsPath(c, m, tr, evs) && Init(tr[0]) && tr[|evs|] == Filled(execTime, clock, 0, 0)
  {
    hide Step, AtMost, Rows;
    var cr, s5 := Lander(0, execTime, clock), Filled(execTime, clock, 0, 0);
    var s0 := s5.(db := EMPTY);
    var s1 := s0.(creators := s0.creators[0 := cr.(pc := Started)]);
    var s2 := s0.(creators := s0.creators[0 := cr.(pc := Selecting)]);
    var s3 := s0.(creators := s0.creators[0 := cr.(pc := Inserting)]);
    var s4 := s5.(creators := s5.creators[0 := cr]);
    StartsSelecting(c, m, s0, s1, s2, 0, cr);
    OpensAndFails(c, m, execTime, clock, s2, s3, s4);
    tr := [s0, s1, s2, s3, s4, s5];
    evs := [Begin(0, Task(cr.id, execTime)), Clamp(0), Select(0, None), InsertCollection(0), Fail(0)];
  }

  lemma OpensAndFails(c: Config, m: nat, execTime: int, clock: int, s2: State, s3: State, s4: State)
    requires FitsColumn(execTime) && 1 <= m
    requires var s5, cr := Filled(execTime, clock, 0, 0), Lander(0, execTime, clock);
             && s2 == s5.(db := EMPTY, creators := s5.creators[0 := cr.(pc := Selecting)])
             && s3 == s5.(db := EMPTY, creators := s5.creators[0 := cr.(pc := Inserting)])
             && s4 == s5.(creators := s5.creators[0 := cr])
    ensures Step(c, s2, s3, Select(0, None)) && AtMost(m, s2, Select(0, None))
    ensures Step(c, s3, s4, InsertCollection(0)) && AtMost(m, s3, InsertCollection(0))
    ensures Step(c, s4, Filled(execTime, clock, 0, 0), Fail(0)) && AtMost(m, s4, Fail(0))
  {
    FilledOverlap(s2, execTime, clock, 0, 0, s2.creators[0]);
    assert s2.creators[0 := s3.creators[0]] == s3.creators && s3.creators[0 := s4.creators[0]] == s4.creators;
    assert s4.creators - {0} == Filled(execTime, clock, 0, 0).creators;
  }

  /**
   The bound is reached: for all options, exec times and clocks of creates that are not taken, there is a run in
   which at most n creates overlap and a collection comes to hold max - 1 + n tasks.
   */
  lemma OverlapReachesExcess(c: Config, n: nat, execTime: int, clock: int) returns (tr: seq<State>, evs: seq<Event>)
    requires 1 <= c.max && 1 <= n && NotTakenNow(c, execTime, clock)
    ensures IsRun(c, tr, evs) && forall i :: 0 <= i < |evs| ==> AtMost(n, tr[i], evs[i])
    ensures |Rows(tr[|evs|].db, 1)| == c.max - 1 + n
  {
    hide Step, AtMost, NotTakenNow, Filled, Rows, Init;
    tr, evs := CollectionIsOpened(c, n, execTime, clock);
    var tr1, evs1 := FillsUp(c, n, execTime, clock, c.max - 1);
    Joined(c, n, tr, evs, tr1, evs1);
    tr, evs := tr + tr1[1..], evs + evs1;
    var tr2, evs2 := ManySelect(c, n, execTime, clock, c.max - 1, n);
    Joined(c, n, tr, evs, tr2, evs2);
    tr, evs := tr + tr2[1..], evs + evs2;
    var tr3, evs3 := ManyLand(c, n, execTime, clock, c.max - 1, n);
    Joined(c, n, tr, evs, tr3, evs3);
    tr, evs := tr + tr3[1..], evs + evs3;
    FilledRows(execTime, clock, c.max - 1 + n, 0);
  }
}
