/**
 What a claim reaches, and what a restart takes back: after a crash the first claim of the next instance puts
 every row that is due by its bound into its hands, whoever had taken the row's collection before.
 */
module ProtocolRestart {
  import opened Tasks
  import opened Time
  import opened Database
  import opened Protocol
  import ProtocolTimes

  /** A claim makes every collection mine that is due by the bound, and hands out those that were not mine. */
  lemma ClaimReaches(s: State, s': State, order: seq<nat>)
    requires DoClaimAll(s, s', order)
    ensures TakenOver(s.db, s'.db, s.preloader.toNext, s.me, set x | x in order)
    ensures s'.pending == order && s'.me == s.me
    ensures forall i, j :: 0 <= i < j < |order| ==> order[i] != order[j]
  {
    ClaimTakesOver(s.db, s.preloader.toNext, s.me);
    assert (set x | x in order) == Claimable(s.db, s.preloader.toNext, s.me);
  }

  /** The bound of a claim covers everything that begins within the preload time. */
  lemma AskCovers(c: Config, s: State, s': State, execTime: int)
    requires DoAsk(c, s, s')
    ensures s'.preloader.Asking? && (execTime <= s'.preloader.toNext <==> Instant(execTime) <= s.clock + c.preload)
  {
    BegunBy(execTime, s.clock + c.preload);
  }

  /** No collection is taken by an instance of the future. */
  ghost predicate TakersInv(s: State) {
    1 <= s.me && forall x :: x in s.db.collections ==> s.db.collections[x].takenBy <= s.me
  }

  lemma StepKeepsTakers(c: Config, s: State, s': State, e: Event)
    requires TakersInv(s) && Step(c, s, s', e)
    ensures TakersInv(s')
  {
    hide DoBegin, DoClamp, DoSelect, DoAnnounce, DoRetry, DoFail, DoLand, IsOrdered, IsRead;
    if e.Begin? || e.Clamp? || e.Select? || e.Announce? || e.Retry? || e.Fail? || e.Land? {
      CreatorsTakeNothing(c, s, s', e);
    }
  }

  lemma CreatorsTakeNothing(c: Config, s: State, s': State, e: Event)
    requires Step(c, s, s', e)
    requires e.Begin? || e.Clamp? || e.Select? || e.Announce? || e.Retry? || e.Fail? || e.Land?
    ensures s'.db.collections == s.db.collections && s'.me == s.me
  {
    hide IsTaken, NoneSelectable, Selectable;
  }

  /** Row id, as long as it is there, is in collection x with its exec time, which is not mine. */
  ghost predicate Foreign(s: State, id: string, x: nat, execTime: int) {
    && id in s.inserted
    && (id in s.db.tasks ==>
          && s.db.tasks[id] == x && x in s.db.collections
          && s.db.collections[x].execTime == execTime && s.db.collections[x].takenBy != s.me)
  }

  lemma CrashMakesForeign(s: State, s': State, id: string)
    requires TakersInv(s) && ProtocolTimes.AgreeInv(s) && DoCrash(s, s') && id in s.db.tasks
    ensures Foreign(s', id, s.db.tasks[id], s.db.collections[s.db.tasks[id]].execTime)
  {
    assert ProtocolTimes.Agrees(s, Task(id, s.db.collections[s.db.tasks[id]].execTime));
  }

  lemma StepKeepsForeign(c: Config, s: State, s': State, e: Event, id: string, x: nat, execTime: int)
    requires Valid(s.db) && Foreign(s, id, x, execTime) && Step(c, s, s', e) && !e.ClaimAll? && !e.Crash?
    requires Valid(s'.db)
    ensures Foreign(s', id, x, execTime)
  {
    hide DoBegin, DoClamp, DoSelect, DoAnnounce, DoRetry, DoFail, DoLand, IsOrdered, IsRead;
    if e.Begin? || e.Clamp? || e.Select? || e.Announce? || e.Retry? || e.Fail? || e.Land? {
      CreatorsTakeNothing(c, s, s', e);
      CreatorsKeepRows(c, s, s', e, id);
    }
  }

  lemma CreatorsKeepRows(c: Config, s: State, s': State, e: Event, id: string)
    requires Step(c, s, s', e) && id in s.inserted
    requires e.Begin? || e.Clamp? || e.Select? || e.Announce? || e.Retry? || e.Fail? || e.Land?
    ensures id in s'.inserted && (id in s'.db.tasks <==> id in s.db.tasks)
    ensures id in s.db.tasks ==> s'.db.tasks[id] == s.db.tasks[id]
  {
    hide IsTaken, NoneSelectable, Selectable;
  }

  lemma {:induction false} RunInv(c: Config, tr: seq<State>, evs: seq<Event>, i: nat)
    requires IsRun(c, tr, evs) && i < |tr|
    ensures TakersInv(tr[i]) && ProtocolTimes.AgreeInv(tr[i])
  {
    hide Step, TakersInv, ProtocolTimes.AgreeInv, Init;
    if i > 0 {
      RunInv(c, tr, evs, i - 1);
      StepKeepsTakers(c, tr[i - 1], tr[i], evs[i - 1]);
      ProtocolTimes.StepKeepsAgree(c, tr[i - 1], tr[i], evs[i - 1]);
    } else {
      InitInv(tr[0]);
    }
  }

  lemma InitInv(s: State)
    requires Init(s)
    ensures TakersInv(s) && ProtocolTimes.AgreeInv(s)
  {
  }

  lemma {:induction false} StaysForeign(c: Config, tr: seq<State>, evs: seq<Event>, i: nat, j: nat, id: string)
    requires IsRun(c, tr, evs) && i < j < |tr| && evs[i].Crash? && id in tr[i].db.tasks
    requires forall k :: i < k < j ==> !evs[k].ClaimAll? && !evs[k].Crash?
    ensures tr[i].db.tasks[id] in tr[i].db.collections
    ensures var x := tr[i].db.tasks[id];
            Foreign(tr[j], id, x, tr[i].db.collections[x].execTime)
    decreases j
  {
    hide Step, TakersInv, Foreign, Init;
    RunInv(c, tr, evs, i);
    if j == i + 1 {
      CrashIs(c, tr[i], tr[j], evs[i]);
      CrashMakesForeign(tr[i], tr[j], id);
    } else {
      StaysForeign(c, tr, evs, i, j - 1, id);
      RunInv(c, tr, evs, j - 1);
      RunInv(c, tr, evs, j);
      var x := tr[i].db.tasks[id];
      StepKeepsForeign(c, tr[j - 1], tr[j], evs[j - 1], id, x, tr[i].db.collections[x].execTime);
    }
  }

  lemma CrashIs(c: Config, s: State, s': State, e: Event)
    requires Step(c, s, s', e) && e.Crash?
    ensures DoCrash(s, s')
  {
  }

  /**
   Nothing is left to the dead: in every run, after every crash, the first claim of the next instance takes over every
   row that was stored at the crash, is still stored, and begins within the preload time of the claim's request:
   its collection is mine, and waits for a worker.
   */
  lemma RestartTakesBack(c: Config, tr: seq<State>, evs: seq<Event>, i: nat, a: nat, j: nat, id: string)
    requires IsRun(c, tr, evs) && i < a < j < |evs| && evs[i].Crash? && evs[a].Ask? && evs[j].ClaimAll?
    requires forall k :: i < k < j ==> !evs[k].ClaimAll? && !evs[k].Crash?
    requires forall k :: a < k < j ==> !evs[k].Ask?
    requires id in tr[i].db.tasks && id in tr[j].db.tasks
    requires tr[i].db.tasks[id] in tr[i].db.collections
    requires Instant(tr[i].db.collections[tr[i].db.tasks[id]].execTime) <= tr[a].clock + c.preload
    ensures var s, x := tr[j + 1], tr[i].db.tasks[id];
            && id in s.db.tasks && s.db.tasks[id] == x && x in s.db.collections
            && s.db.collections[x].takenBy == s.me && x in s.pending
  {
    hide Step, Init, Foreign, TakenOver, DoAsk;
    StaysForeign(c, tr, evs, i, j, id);
    AskedUntilClaim(c, tr, evs, a, j);
    TakesForeign(c, tr[j], tr[j + 1], evs[j].order, id, tr[i].db.tasks[id],
                 tr[i].db.collections[tr[i].db.tasks[id]].execTime);
    BegunBy(tr[i].db.collections[tr[i].db.tasks[id]].execTime, tr[a].clock + c.preload);
  }

  lemma TakesForeign(c: Config, s: State, s': State, order: seq<nat>, id: string, x: nat, execTime: int)
    requires Step(c, s, s', ClaimAll(order)) && Foreign(s, id, x, execTime) && id in s.db.tasks
    ensures s.preloader.Asking?
    ensures execTime <= s.preloader.toNext ==>
              && id in s'.db.tasks && s'.db.tasks[id] == x && x in s'.db.collections
              && s'.db.collections[x].takenBy == s'.me && x in s'.pending
  {
    hide DoClaimAll;
    IsClaim(s, s', order);
    ClaimReaches(s, s', order);
    if execTime <= s.preloader.toNext {
      assert x in set y | y in order;
    }
  }

  lemma IsClaim(s: State, s': State, order: seq<nat>)
    requires DoClaimAll(s, s', order)
    ensures s.preloader.Asking?
  {
  }

  /** The bound stays as it was asked for. */
  lemma {:induction false} AskedUntilClaim(c: Config, tr: seq<State>, evs: seq<Event>, a: nat, j: nat)
    requires IsRun(c, tr, evs) && a < j < |evs| && evs[a].Ask?
    requires forall k :: a < k < j ==> !evs[k].ClaimAll? && !evs[k].Crash? && !evs[k].Ask?
    ensures tr[j].preloader.Asking? ==> tr[j].preloader.toNext == Unix(tr[a].clock + c.preload)
    decreases j
  {
    hide Step, Init;
    if j == a + 1 {
      AskIs(c, tr[a], tr[j], evs[a]);
    } else {
      AskedUntilClaim(c, tr, evs, a, j - 1);
      KeepsBound(c, tr[j - 1], tr[j], evs[j - 1]);
    }
  }

  lemma AskIs(c: Config, s: State, s': State, e: Event)
    requires Step(c, s, s', e) && e.Ask?
    ensures s'.preloader == Asking(Unix(s.clock + c.preload))
  {
  }

  lemma KeepsBound(c: Config, s: State, s': State, e: Event)
    requires Step(c, s, s', e) && !e.ClaimAll? && !e.Crash? && !e.Ask?
    ensures s'.preloader.Asking? ==> s'.preloader == s.preloader
  {
    hide IsTaken, NoneSelectable, Selectable, IsRead, IsOrdered;
  }
}
