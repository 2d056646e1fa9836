/**
 The linked log that a partition journal keeps in an object store: immutable
 records, each naming its parent, and a head object that names the newest one.
 */
module JournalLog {
  import opened Wrappers

  type Path = nat
  type Payload = string

  const U64_MAX: nat := 0xFFFF_FFFF_FFFF_FFFF

  datatype Record = Record(epoch: nat, position: nat, parent: Option<Path>, payload: Payload)

  datatype Head = Head(epoch: nat, position: nat, path: Path)

  /** A head together with the store version under which it was observed. */
  datatype Cursor = Cursor(head: Head, version: nat)

  datatype Recovered = Recovered(epoch: nat, position: nat, payload: Payload)

  datatype JournalError = Invalid | Fenced | Unavailable | ChainBroken | Unordered

  function SaturatingSucc(epoch: nat): nat {
    if epoch >= U64_MAX then epoch else epoch + 1
  }

  predicate EpochStep(before: nat, after: nat) {
    after == before || after == SaturatingSucc(before)
  }

  /** The chain that starts at `path` is complete down to position 1, and its epochs rise by 0 or 1. */
  predicate Linked(records: map<Path, Record>, path: Path, position: nat)
    decreases position
  {
    && position > 0
    && path in records
    && records[path].position == position
    && records[path].epoch > 0
    && (if position == 1 then records[path].parent.None? else
        && records[path].parent.Some?
        && Linked(records, records[path].parent.value, position - 1)
        && EpochStep(records[records[path].parent.value].epoch, records[path].epoch))
  }

  /** The paths from position 1 up to `path`. */
  function Chain(records: map<Path, Record>, path: Path, position: nat): seq<Path>
    requires Linked(records, path, position)
    decreases position
  {
    if position == 1 then [path]
    else Chain(records, records[path].parent.value, position - 1) + [path]
  }

  predicate HeadOk(records: map<Path, Record>, head: Option<Cursor>) {
    head.Some? ==>
      && Linked(records, head.value.head.path, head.value.head.position)
      && records[head.value.head.path].epoch == head.value.head.epoch
  }

  function Log(records: map<Path, Record>, head: Option<Cursor>): seq<Path>
    requires HeadOk(records, head)
  {
    if head.None? then [] else Chain(records, head.value.head.path, head.value.head.position)
  }

  ghost predicate Extends(before: map<Path, Record>, after: map<Path, Record>) {
    forall p :: p in before ==> p in after && after[p] == before[p]
  }

  predicate Entry(records: map<Path, Record>, log: seq<Path>, i: nat)
    requires i < |log|
  {
    && Linked(records, log[i], i + 1)
    && Chain(records, log[i], i + 1) == log[..i + 1]
    && records[log[i]].parent == (if i == 0 then None else Some(log[i - 1]))
    && (i > 0 ==> log[i - 1] in records && EpochStep(records[log[i - 1]].epoch, records[log[i]].epoch))
  }

  lemma {:induction false} ChainShape(records: map<Path, Record>, path: Path, position: nat)
    requires Linked(records, path, position)
    ensures |Chain(records, path, position)| == position
    ensures Chain(records, path, position)[position - 1] == path
    ensures forall i: nat :: i < position ==> Entry(records, Chain(records, path, position), i)
    decreases position
  {
    var log := Chain(records, path, position);
    if position > 1 {
      var parent := records[path].parent.value;
      ChainShape(records, parent, position - 1);
      var below := Chain(records, parent, position - 1);
      assert log == below + [path];
      assert log[..position - 1] == below;
      forall i: nat | i < position ensures Entry(records, log, i) {
        if i < position - 1 {
          assert Entry(records, below, i);
          assert log[..i + 1] == below[..i + 1];
        } else {
          assert log[..i + 1] == log;
        }
      }
    } else {
      assert log[..1] == log;
    }
  }

  lemma {:induction false} ChainFramed(before: map<Path, Record>, after: map<Path, Record>, path: Path, position: nat)
    requires Extends(before, after)
    requires Linked(before, path, position)
    ensures Linked(after, path, position)
    ensures Chain(after, path, position) == Chain(before, path, position)
    decreases position
  {
    if position > 1 {
      ChainFramed(before, after, before[path].parent.value, position - 1);
    }
  }

  /** Adding records never disturbs the log below an existing head. */
  lemma LogFramed(before: map<Path, Record>, after: map<Path, Record>, head: Option<Cursor>)
    requires Extends(before, after)
    requires HeadOk(before, head)
    ensures HeadOk(after, head)
    ensures Log(after, head) == Log(before, head)
  {
    if head.Some? {
      ChainFramed(before, after, head.value.head.path, head.value.head.position);
    }
  }

  /** What the records at log positions `from + 1 ..= to` carry. */
  function Entries(records: map<Path, Record>, log: seq<Path>, from: nat, to: nat): seq<Recovered>
    requires from <= to <= |log|
    requires forall i :: 0 <= i < |log| ==> log[i] in records
  {
    seq(to - from, i requires 0 <= i < to - from =>
      var r := records[log[from + i]];
      Recovered(r.epoch, r.position, r.payload))
  }

  function Reversed<T>(s: seq<T>): seq<T> {
    seq(|s|, i requires 0 <= i < |s| => s[|s| - 1 - i])
  }

  /** The check that recovery makes on adjacent records. */
  predicate Monotonic(found: seq<Recovered>) {
    forall i :: 0 < i < |found| ==> EpochStep(found[i - 1].epoch, found[i].epoch)
  }
}
