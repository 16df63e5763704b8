/**
 The waiting list of the waiting service: a binary heap of items with back-pointers, kept by the
 sift operations of Go's container/heap, and a map from task ids into the heap.
 */
module TaskHeaps {
  import opened Tasks
  import opened TaskLists

  /** A heap entry. The index map holds pointers to the `index` field, so here it holds items. */
  class Item {
    const task: Task
    const priority: int := task.execTime
    var index: int

    constructor (task: Task, index: int)
      ensures this.task == task && this.index == index
    {
      this.task := task;
      this.index := index;
    }
  }

  function Parent(j: nat): (i: nat)
    ensures i <= j && (0 < j ==> i < j)
  {
    if j == 0 then 0 else (j - 1) / 2
  }

  function TasksOf(items: seq<Item>): (ts: seq<Task>)
    ensures |ts| == |items|
    ensures forall i :: 0 <= i < |items| ==> ts[i] == items[i].task
  {
    seq(|items|, i requires 0 <= i < |items| => items[i].task)
  }

  /** The edge from j to its parent is in heap order. */
  ghost predicate Edge(items: seq<Item>, j: int)
    requires 0 < j < |items|
  {
    items[Parent(j)].priority <= items[j].priority
  }

  ghost predicate HeapOrdered(items: seq<Item>, n: int)
    requires n <= |items|
  {
    forall j :: 0 < j < n ==> Edge(items, j)
  }

  /** Every child of k is at least the parent of k. */
  ghost predicate BridgedAt(items: seq<Item>, n: int, lo: nat, k: nat)
    requires n <= |items|
  {
    0 < k && lo <= Parent(k) ==>
      forall j :: 0 < j < n && Parent(j) == k ==> items[Parent(k)].priority <= items[j].priority
  }

  /** Every item knows its own position; in particular no item occurs twice. */
  ghost predicate BackPointersOk(items: seq<Item>)
    reads items
  {
    forall i :: 0 <= i < |items| ==> items[i].index == i
  }

  lemma {:induction false} RootIsLeast(items: seq<Item>, n: int, k: nat)
    requires n <= |items| && k < n && HeapOrdered(items, n)
    ensures items[0].priority <= items[k].priority
    decreases k
  {
    if k > 0 {
      assert Edge(items, k);
      RootIsLeast(items, n, Parent(k));
    }
  }

  /** a and b hold the same items, and the same tasks with multiplicity. */
  ghost predicate Shuffled(a: seq<Item>, b: seq<Item>) {
    && |a| == |b|
    && (forall x :: x in a ==> x in b)
    && (forall x :: x in b ==> x in a)
    && multiset(TasksOf(a)) == multiset(TasksOf(b))
  }

  function Swapped(a: seq<Item>, i: nat, j: nat): (b: seq<Item>)
    requires i < |a| && j < |a|
    ensures |b| == |a|
  {
    a[i := a[j]][j := a[i]]
  }

  lemma SwapShuffles(a: seq<Item>, i: nat, j: nat)
    requires i < |a| && j < |a|
    ensures Shuffled(a, Swapped(a, i, j))
  {
    var ts, b := TasksOf(a), Swapped(a, i, j);
    assert TasksOf(b) == ts[i := ts[j]][j := ts[i]];
    forall x | x in a
      ensures x in b
    {
      var k :| 0 <= k < |a| && a[k] == x;
      assert b[if k == i then j else if k == j then i else k] == x;
    }
  }

  lemma ShufflesCompose(a: seq<Item>, b: seq<Item>, c: seq<Item>)
    requires Shuffled(a, b) && Shuffled(b, c)
    ensures Shuffled(a, c)
  {
  }

  lemma WithoutLast(a: seq<Item>)
    requires |a| > 0
    ensures multiset(TasksOf(a[..|a| - 1])) == multiset(TasksOf(a)) - multiset{a[|a| - 1].task}
  {
    assert TasksOf(a) == TasksOf(a[..|a| - 1]) + [a[|a| - 1].task];
  }

  lemma WithLast(a: seq<Item>, x: Item)
    ensures multiset(TasksOf(a + [x])) == multiset(TasksOf(a)) + multiset{x.task}
  {
    assert TasksOf(a + [x]) == TasksOf(a) + [x.task];
  }

  /** All edges among the first n items with parent at least lo hold, except those at k. */
  ghost predicate BrokenOnlyAt(items: seq<Item>, n: int, lo: nat, k: nat)
    requires n <= |items|
  {
    && (forall j :: 0 < j < n && lo <= Parent(j) && Parent(j) != k && j != k ==> Edge(items, j))
    && BridgedAt(items, n, lo, k)
  }

  /** One round of up: swapping j with a larger parent moves the broken edge to the parent. */
  lemma UpRound(a: seq<Item>, n: int, j: nat)
    requires j < n <= |a| && 0 < j
    requires forall k :: 0 < k < n && k != j ==> Edge(a, k)
    requires BridgedAt(a, n, 0, j)
    requires a[j].priority < a[Parent(j)].priority
    ensures var b := Swapped(a, Parent(j), j);
            (forall k :: 0 < k < n && k != Parent(j) ==> Edge(b, k)) && BridgedAt(b, n, 0, Parent(j))
  {
    var i := Parent(j);
    var b := Swapped(a, i, j);
    assert 0 < i ==> Edge(a, i);
    forall k | 0 < k < n && k != i
      ensures Edge(b, k)
      ensures 0 < i && Parent(k) == i ==> b[Parent(i)].priority <= b[k].priority
    {
      assert k != j ==> Edge(a, k);
    }
  }

  /** One round of down: swapping i with its least child j moves the broken edges to j. */
  lemma DownRound(a: seq<Item>, n: int, lo: nat, i: nat, j: nat)
    requires lo <= i < j < n <= |a| && (j == 2 * i + 1 || j == 2 * i + 2)
    requires BrokenOnlyAt(a, n, lo, i)
    requires a[j].priority < a[i].priority
    requires a[j].priority <= a[2 * i + 1].priority
    requires 2 * i + 2 < n ==> a[j].priority <= a[2 * i + 2].priority
    ensures var b := Swapped(a, i, j);
            && BrokenOnlyAt(b, n, lo, j)
            && Edge(b, j)
            && (0 < i && lo <= Parent(i) ==> Edge(b, i))
  {
    var b := Swapped(a, i, j);
    forall k | 0 < k < n && lo <= Parent(k) && Parent(k) != j && k != j
      ensures Edge(b, k)
    {
      assert Parent(k) == i ==> k == 2 * i + 1 || k == 2 * i + 2;
      if Parent(k) != i && k != i {
        assert Edge(a, k);
      }
    }
    forall k | 0 < k < n && Parent(k) == j
      ensures b[Parent(j)].priority <= b[k].priority
    {
      assert Edge(a, k);
    }
  }

  /** When no child of i is smaller, only the edge from i to its parent can still be broken. */
  lemma Settled(a: seq<Item>, n: int, lo: nat, i: nat)
    requires i <= n <= |a| && BrokenOnlyAt(a, n, lo, i)
    requires 2 * i + 1 < n ==> a[i].priority <= a[2 * i + 1].priority
    requires 2 * i + 2 < n ==> a[i].priority <= a[2 * i + 2].priority
    ensures forall k :: 0 < k < n && lo <= Parent(k) && k != i ==> Edge(a, k)
  {
    forall k | 0 < k < n && lo <= Parent(k) && k != i
      ensures Edge(a, k)
    {
      assert Parent(k) == i ==> k == 2 * i + 1 || k == 2 * i + 2;
    }
  }

  /** After the last item of a heap has replaced item i, only edges at i can be broken. */
  lemma ReplacedByLast(a: seq<Item>, i: nat)
    requires i < |a| && HeapOrdered(a, |a|)
    ensures BrokenOnlyAt(Swapped(a, i, |a| - 1), |a| - 1, 0, i)
  {
    var n := |a| - 1;
    var b := Swapped(a, i, n);
    assert 0 < i ==> Edge(a, i);
    forall k | 0 < k < n && k != i
      ensures Parent(k) != i ==> Edge(b, k)
      ensures 0 < i && Parent(k) == i ==> b[Parent(i)].priority <= b[k].priority
    {
      assert Edge(a, k);
    }
  }

  /** What the id map says: the exec time of the item each id points to. */
  ghost function Indexed(index: map<string, Item>): map<string, int> {
    map id | id in index :: index[id].task.execTime
  }

  lemma IndexedPut(index: map<string, Item>, id: string, item: Item)
    ensures Indexed(index[id := item]) == Indexed(index)[id := item.task.execTime]
  {
  }

  lemma IndexedDrop(index: map<string, Item>, id: string)
    ensures Indexed(index - {id}) == Indexed(index) - {id}
  {
  }

  class HeapPrioritizedTaskList {
    var pq: seq<Item>
    var index: map<string, Item>
    ghost var repr: set<Item>

    /** The items are owned by this list, and each of them knows its position. */
    ghost predicate Linked()
      reads this, repr
    {
      (forall i :: 0 <= i < |pq| ==> pq[i] in repr) && BackPointersOk(pq)
    }

    ghost predicate HeapValid()
      reads this, repr
    {
      Linked() && HeapOrdered(pq, |pq|)
    }

    /** Every map entry points to a live item that carries that id. */
    ghost predicate IndexSound()
      reads this
    {
      forall id :: id in index ==> index[id] in pq && index[id].task.id == id
    }

    ghost predicate Valid()
      reads this, repr
    {
      HeapValid() && IndexSound()
    }

    /** The abstract value of the list. */
    ghost function Model(): (l: TaskList)
      reads this
    {
      TaskList(multiset(TasksOf(pq)), Indexed(index))
    }

    lemma ModelSound()
      requires IndexSound()
      ensures Sound(Model())
    {
      forall id | id in index
        ensures Task(id, index[id].task.execTime) in multiset(TasksOf(pq))
      {
        var k :| 0 <= k < |pq| && pq[k] == index[id];
        assert TasksOf(pq)[k] == Task(id, index[id].task.execTime);
      }
    }

    /** NewPrioritizedTask: building the list at once equals adding the tasks one by one. */
    constructor (tasks: seq<Task>)
      ensures Valid() && fresh(repr)
      ensures Model() == AddedAll(EMPTY, tasks)
    {
      hide Linked, IndexSound, Model, Added, HeapOrdered, TasksOf;
      pq := [];
      index := map[];
      repr := {};
      new;
      EmptyIsLinked();
      var i := 0;
      while i < |tasks|
        invariant 0 <= i <= |tasks| && |pq| == i && fresh(repr)
        invariant Linked() && IndexSound()
        invariant Model() == AddedAll(EMPTY, tasks[..i])
      {
        AppendItem(tasks[i]);
        assert tasks[..i + 1][..i] == tasks[..i];
        i := i + 1;
      }
      assert tasks[..i] == tasks;
      Init();
    }

    lemma EmptyIsLinked()
      requires pq == [] && index == map[]
      ensures Linked() && IndexSound() && Model() == EMPTY
    {
    }

    /** One round of the loop that fills the slice before it is made a heap. */
    method AppendItem(task: Task)
      requires Linked() && IndexSound()
      modifies this
      ensures |pq| == |old(pq)| + 1 && fresh(repr - old(repr))
      ensures Linked() && IndexSound()
      ensures Model() == Added(old(Model()), task)
    {
      var item := new Item(task, |pq|);
      WithLast(pq, item);
      IndexedPut(index, task.id, item);
      pq := pq + [item];
      repr := repr + {item};
      index := index[task.id := item];
    }

    predicate Less(i: nat, j: nat)
      requires i < |pq| && j < |pq|
      reads this
    {
      pq[i].priority < pq[j].priority
    }

    method Swap(i: nat, j: nat)
      requires i < |pq| && j < |pq| && Linked()
      modifies this`pq, repr`index
      ensures pq == Swapped(old(pq), i, j)
      ensures Linked() && Shuffled(old(pq), pq)
    {
      SwapShuffles(pq, i, j);
      pq := pq[i := pq[j]][j := pq[i]];
      pq[i].index := i;
      pq[j].index := j;
    }

    /** container/heap up, on the first n items. */
    method Up(j0: nat, ghost n: nat)
      requires j0 < n <= |pq| && Linked()
      requires forall k :: 0 < k < n && k != j0 ==> Edge(pq, k)
      requires BridgedAt(pq, n, 0, j0)
      modifies this`pq, repr`index
      ensures Shuffled(old(pq), pq) && pq[n..] == old(pq)[n..]
      ensures Linked() && HeapOrdered(pq, n)
    {
      var j: nat := j0;
      while true
        invariant j < n <= |pq| && Shuffled(old(pq), pq) && pq[n..] == old(pq)[n..]
        invariant Linked()
        invariant forall k :: 0 < k < n && k != j ==> Edge(pq, k)
        invariant BridgedAt(pq, n, 0, j)
        decreases j
      {
        var i := Parent(j);
        if i == j || !Less(j, i) {
          break;
        }
        ghost var before := pq;
        UpRound(pq, n, j);
        Swap(i, j);
        ShufflesCompose(old(pq), before, pq);
        j := i;
      }
    }

    /**
     container/heap down, on the first n items. Only edges whose parent is at least lo are in
     question: lo is 0 for Pop and Remove, and i0 while Init builds the heap bottom-up.
     */
    method Down(i0: nat, n: nat, ghost lo: nat) returns (moved: bool)
      requires lo <= i0 <= n <= |pq| && Linked()
      requires BrokenOnlyAt(pq, n, lo, i0)
      modifies this`pq, repr`index
      ensures Shuffled(old(pq), pq) && pq[n..] == old(pq)[n..]
      ensures Linked()
      ensures forall k :: 0 < k < n && lo <= Parent(k) && (moved || k != i0) ==> Edge(pq, k)
      ensures !moved ==> pq == old(pq)
    {
      var i: nat := i0;
      while true
        invariant i0 <= i <= n <= |pq| && Shuffled(old(pq), pq) && pq[n..] == old(pq)[n..]
        invariant Linked()
        invariant i == i0 ==> pq == old(pq)
        invariant BrokenOnlyAt(pq, n, lo, i)
        invariant i0 < i ==> i < n && Edge(pq, i)
        decreases n - i
      {
        var j1 := 2 * i + 1;
        if j1 >= n {
          Settled(pq, n, lo, i);
          break;
        }
        var j: nat := j1;
        var j2 := j1 + 1;
        if j2 < n && Less(j2, j1) {
          j := j2;
        }
        if !Less(j, i) {
          Settled(pq, n, lo, i);
          break;
        }
        ghost var before := pq;
        DownRound(pq, n, lo, i, j);
        Swap(i, j);
        ShufflesCompose(old(pq), before, pq);
        i := j;
      }
      moved := i > i0;
    }

    method Init()
      requires Linked() && IndexSound()
      modifies this`pq, repr`index
      ensures Valid() && Model() == old(Model()) && Shuffled(old(pq), pq)
    {
      var n := |pq|;
      var i := n / 2 - 1;
      while i >= 0
        invariant -1 <= i < n == |pq| && Linked() && Shuffled(old(pq), pq)
        invariant forall k :: 0 < k < n && i < Parent(k) ==> Edge(pq, k)
      {
        ghost var before := pq;
        var _ := Down(i, n, i);
        ShufflesCompose(old(pq), before, pq);
        i := i - 1;
      }
    }

    /** container/heap Push, over items.Push. */
    method HeapPush(item: Item)
      requires HeapValid() && item !in pq
      modifies this`pq, this`repr, repr`index, item`index
      ensures HeapValid() && repr == old(repr) + {item} && Shuffled(old(pq) + [item], pq)
      ensures multiset(TasksOf(pq)) == multiset(TasksOf(old(pq))) + multiset{item.task}
    {
      ghost var before := pq;
      item.index := |pq|;
      pq := pq + [item];
      repr := repr + {item};
      WithLast(before, item);
      forall k | 0 < k < |before|
        ensures Edge(pq, k)
      {
        assert Edge(before, k);
      }
      Up(|pq| - 1, |pq|);
    }

    /** items.Pop: the last item leaves the slice and its back-pointer becomes -1. */
    method PopLast() returns (item: Item)
      requires |pq| > 0 && Linked() && HeapOrdered(pq, |pq| - 1)
      modifies this`pq, repr`index
      ensures HeapValid() && item == old(pq[|pq| - 1]) && item.index == -1
      ensures pq == old(pq)[..|old(pq)| - 1]
      ensures multiset(TasksOf(pq)) == multiset(TasksOf(old(pq))) - multiset{item.task}
    {
      var n := |pq|;
      WithoutLast(pq);
      item := pq[n - 1];
      item.index := -1;
      ghost var before := pq;
      pq := pq[..n - 1];
      forall k | 0 < k < |pq|
        ensures Edge(pq, k)
      {
        assert Edge(before, k);
      }
    }

    /** container/heap Remove. */
    method HeapRemove(i: nat) returns (item: Item)
      requires HeapValid() && i < |pq|
      modifies this`pq, repr`index
      ensures HeapValid() && item == old(pq[i]) && item.index == -1
      ensures forall x :: x in pq ==> x in old(pq)
      ensures forall x :: x in old(pq) && x != item ==> x in pq
      ensures multiset(TasksOf(pq)) == multiset(TasksOf(old(pq))) - multiset{item.task}
    {
      var n := |pq| - 1;
      ghost var start := pq;
      if n != i {
        ReplacedByLast(pq, i);
        Swap(i, n);
        assert pq[n] == start[i];
        ghost var swapped := pq;
        var moved := Down(i, n, 0);
        ShufflesCompose(start, swapped, pq);
        ghost var sunk := pq;
        if !moved {
          Up(i, n);
          ShufflesCompose(start, sunk, pq);
        }
        assert pq[n] == pq[n..][0] == swapped[n..][0];
      }
      ghost var full := pq;
      item := PopLast();
      OthersStay(start, full);
    }

    /** When the last item of a shuffled heap is dropped, exactly the others stay. */
    lemma OthersStay(start: seq<Item>, full: seq<Item>)
      requires Shuffled(start, full) && |full| > 0 && pq == full[..|full| - 1]
      ensures forall x :: x in pq ==> x in start
      ensures forall x :: x in start && x != full[|full| - 1] ==> x in pq
    {
      assert full == pq + [full[|full| - 1]];
    }

    /** container/heap Pop: the root leaves, and it is an item of least priority. */
    method HeapPop() returns (item: Item)
      requires HeapValid() && |pq| > 0
      modifies this`pq, repr`index
      ensures HeapValid() && item == old(pq[0]) && item.index == -1
      ensures forall x :: x in pq ==> x in old(pq)
      ensures forall x :: x in old(pq) && x != item ==> x in pq
      ensures multiset(TasksOf(pq)) == multiset(TasksOf(old(pq))) - multiset{item.task}
    {
      var n := |pq| - 1;
      ghost var start := pq;
      ReplacedByLast(pq, 0);
      Swap(0, n);
      assert pq[n] == start[0];
      ghost var swapped := pq;
      var _ := Down(0, n, 0);
      ShufflesCompose(start, swapped, pq);
      assert pq[n] == pq[n..][0] == swapped[n..][0];
      ghost var full := pq;
      item := PopLast();
      OthersStay(start, full);
    }

    method Add(task: Task)
      requires Valid()
      modifies this, repr`index
      ensures Valid() && fresh(repr - old(repr))
      ensures Model() == Added(old(Model()), task)
    {
      var item := new Item(task, 0);
      ghost var before := pq;
      HeapPush(item);
      StillLive(before, item);
      IndexedPut(index, task.id, item);
      index := index[task.id := item];
    }

    lemma StillLive(before: seq<Item>, item: Item)
      requires Shuffled(before + [item], pq)
      ensures item in pq && forall x :: x in before ==> x in pq
      ensures forall x :: x in pq ==> x in before || x == item
    {
      var grown := before + [item];
      assert grown[|before|] == item;
      forall x | x in before
        ensures x in pq
      {
        assert x in grown;
      }
    }

    method DeleteIfExist(taskId: string) returns (ok: bool)
      requires Valid()
      modifies this, repr`index
      ensures Valid() && repr == old(repr)
      ensures ok <==> taskId in old(Model()).indexed
      ensures Model() == Deleted(old(Model()), taskId)
    {
      ok := taskId in index;
      if ok {
        var item := HeapRemove(index[taskId].index);
        IndexedDrop(index, taskId);
        index := index - {taskId};
      }
    }

    method Take() returns (task: Option<Task>)
      requires Valid()
      modifies this, repr`index
      ensures Valid() && repr == old(repr)
      ensures task.None? <==> old(Model()).live == multiset{}
      ensures task.None? ==> Model() == old(Model())
      ensures task.Some? ==> IsEarliest(old(Model()), task.value) && Model() == Taken(old(Model()), task.value)
    {
      if |pq| > 0 {
        FirstIsEarliest();
        var item := HeapPop();
        IndexedDrop(index, item.task.id);
        index := index - {item.task.id};
        task := Some(item.task);
      } else {
        task := None;
      }
    }

    lemma FirstIsEarliest()
      requires HeapValid() && |pq| > 0
      ensures IsEarliest(Model(), pq[0].task)
    {
      assert TasksOf(pq)[0] == pq[0].task;
      forall t | t in multiset(TasksOf(pq))
        ensures pq[0].task.execTime <= t.execTime
      {
        var k :| 0 <= k < |pq| && TasksOf(pq)[k] == t;
        RootIsLeast(pq, |pq|, k);
      }
    }

    method Len() returns (n: nat)
      requires Valid()
      ensures n == |Model().live|
    {
      n := |pq|;
    }
  }
}
