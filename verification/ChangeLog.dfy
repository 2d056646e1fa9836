/** What a log of signed changes adds up to. */
module ChangeLog {

  /** The net number of times an item was added. */
  function Net<T(==)>(changes: seq<(T, int)>, item: T): int {
    if changes == [] then 0
    else Net(changes[..|changes| - 1], item) + if changes[|changes| - 1].0 == item then changes[|changes| - 1].1 else 0
  }

  lemma NetSnoc<T>(changes: seq<(T, int)>, c: (T, int), item: T)
    ensures Net(changes + [c], item) == Net(changes, item) + if c.0 == item then c.1 else 0
  {
    assert (changes + [c])[..|changes|] == changes;
  }
}
