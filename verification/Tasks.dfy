/** The task entity and the small vocabulary every other module shares. */
module Tasks {

  datatype Option<+T> = None | Some(value: T)

  /** A deferred task: its uuid and the Unix second at which it has to be sent. */
  datatype Task = Task(id: string, execTime: int)

  /** The concatenation of a sequence of batches. */
  function Flatten<T>(batches: seq<seq<T>>): seq<T> {
    if batches == [] then [] else batches[0] + Flatten(batches[1..])
  }

  lemma {:induction false} FlattenAppend<T>(batches: seq<seq<T>>, batch: seq<T>)
    ensures Flatten(batches + [batch]) == Flatten(batches) + batch
  {
    if batches == [] {
      assert batches + [batch] == [batch];
      assert Flatten([batch]) == batch + Flatten<T>([]);
    } else {
      FlattenAppend(batches[1..], batch);
      assert (batches + [batch])[1..] == batches[1..] + [batch];
    }
  }

  /** Taking batch i out of a sequence of batches takes exactly its elements out. */
  lemma {:induction false} FlattenWithout<T>(batches: seq<seq<T>>, i: nat)
    requires i < |batches|
    ensures multiset(Flatten(batches)) ==
            multiset(Flatten(batches[..i] + batches[i + 1..])) + multiset(batches[i])
  {
    if i == 0 {
      assert batches[..0] + batches[1..] == batches[1..];
    } else {
      FlattenWithout(batches[1..], i - 1);
      assert (batches[..i] + batches[i + 1..])[1..] == batches[1..][..i - 1] + batches[1..][i..];
    }
  }
}
