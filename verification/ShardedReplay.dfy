/** Logs of several shards over one database: when shards write disjoint keys, any interleaving replays to the same content. */
module ShardedReplay {
  import opened Wrappers
  import opened Keys
  import opened Transactions

  type Logs = seq<seq<WalRecord>>
  type Vector = seq<nat>
  type Placement = Key -> nat

  predicate Puts(r: WalRecord, k: Key) {
    exists i :: 0 <= i < |r.puts| && r.puts[i].0 == k
  }

  predicate Touches(r: WalRecord, k: Key) {
    Puts(r, k) || k in r.deletes || Covered(k, r.ranges)
  }

  /** A record of shard `s` changes keys of that shard only. */
  ghost predicate Within(r: WalRecord, s: nat, place: Placement) {
    forall k :: Touches(r, k) ==> place(k) == s
  }

  ghost predicate LogsWithin(logs: Logs, place: Placement) {
    forall s, i :: 0 <= s < |logs| && 0 <= i < |logs[s]| ==> Within(logs[s][i], s, place)
  }

  function Replay(db: Table, log: seq<WalRecord>): Table {
    if log == [] then db else Applied(Replay(db, log[..|log| - 1]), log[|log| - 1])
  }

  /** What a record makes of one key, given what was there. */
  function AppliedAt(before: Option<Value>, r: WalRecord, k: Key): Option<Value> {
    if k in r.deletes || Covered(k, r.ranges) then None else PutAt(before, r.puts, k)
  }

  function PutAt(before: Option<Value>, puts: seq<(Key, Value)>, k: Key): Option<Value> {
    if puts == [] then before
    else if puts[|puts| - 1].0 == k then Some(puts[|puts| - 1].1)
    else PutAt(before, puts[..|puts| - 1], k)
  }

  lemma {:induction false} PutAllReads(db: Table, puts: seq<(Key, Value)>, k: Key)
    ensures Lookup(PutAll(db, puts), k) == PutAt(Lookup(db, k), puts, k)
    decreases |puts|
  {
    if puts != [] { PutAllReads(db, puts[..|puts| - 1], k); }
  }

  lemma AppliedReads(db: Table, r: WalRecord, k: Key)
    ensures Lookup(Applied(db, r), k) == AppliedAt(Lookup(db, k), r, k)
  {
    PutAllReads(db, r.puts, k);
  }

  lemma {:induction false} PutElsewhere(before: Option<Value>, puts: seq<(Key, Value)>, k: Key)
    requires forall i :: 0 <= i < |puts| ==> puts[i].0 != k
    ensures PutAt(before, puts, k) == before
    decreases |puts|
  {
    if puts != [] { PutElsewhere(before, puts[..|puts| - 1], k); }
  }

  lemma Untouched(before: Option<Value>, r: WalRecord, k: Key)
    requires !Touches(r, k)
    ensures AppliedAt(before, r, k) == before
  {
    PutElsewhere(before, r.puts, k);
  }

  /** The value of a key after the first `v` records of its own shard. */
  function ValueAt(logs: Logs, v: Vector, s: nat, k: Key): Option<Value> {
    if s < |logs| && s < |v| && v[s] <= |logs[s]| then Lookup(Replay(map[], logs[s][..v[s]]), k) else None
  }

  ghost predicate HoldsAt(db: Table, logs: Logs, v: Vector, place: Placement, k: Key) {
    Lookup(db, k) == ValueAt(logs, v, place(k), k)
  }

  /** The database holds, key by key, the replay of the first `v[s]` records of each shard. */
  ghost predicate Holds(db: Table, logs: Logs, v: Vector, place: Placement) {
    forall k :: HoldsAt(db, logs, v, place, k)
  }

  predicate VectorOk(logs: Logs, v: Vector) {
    |v| == |logs| && forall s :: 0 <= s < |v| ==> v[s] <= |logs[s]|
  }

  function Zero(n: nat): Vector {
    seq(n, _ => 0)
  }

  lemma NothingHolds(logs: Logs, place: Placement)
    ensures Holds(map[], logs, Zero(|logs|), place)
  {
    forall k ensures HoldsAt(map[], logs, Zero(|logs|), place, k) {
      if place(k) < |logs| { assert logs[place(k)][..0] == []; }
    }
  }

  /** Applying the next record of one shard, whatever the other shards have reached. */
  lemma ApplyHolds(db: Table, logs: Logs, v: Vector, place: Placement, s: nat, next: Vector)
    requires Holds(db, logs, v, place) && VectorOk(logs, v) && LogsWithin(logs, place)
    requires s < |logs| && v[s] < |logs[s]| && next == v[s := v[s] + 1]
    ensures Holds(Applied(db, logs[s][v[s]]), logs, next, place) && VectorOk(logs, next)
  {
    var r := logs[s][v[s]];
    var db' := Applied(db, r);
    assert Within(r, s, place);
    forall k ensures HoldsAt(db', logs, next, place, k) {
      assert HoldsAt(db, logs, v, place, k);
      AppliedReads(db, r, k);
      if place(k) == s {
        var upto := logs[s][..v[s] + 1];
        assert upto[..v[s]] == logs[s][..v[s]];
        AppliedReads(Replay(map[], logs[s][..v[s]]), r, k);
      } else {
        Untouched(Lookup(db, k), r, k);
      }
    }
  }

  /** A longer log changes nothing about what was replayed so far. */
  lemma AppendHolds(db: Table, logs: Logs, v: Vector, place: Placement, s: nat, r: WalRecord, more: Logs)
    requires Holds(db, logs, v, place) && VectorOk(logs, v) && s < |logs| && more == logs[s := logs[s] + [r]]
    ensures Holds(db, more, v, place) && VectorOk(more, v)
  {
    forall k ensures HoldsAt(db, more, v, place, k) {
      assert HoldsAt(db, logs, v, place, k);
      if place(k) == s { assert more[s][..v[s]] == logs[s][..v[s]]; }
    }
  }

  lemma HoldsDetermines(a: Table, b: Table, logs: Logs, v: Vector, place: Placement)
    requires Holds(a, logs, v, place) && Holds(b, logs, v, place)
    ensures a == b
  {
    forall k ensures Lookup(a, k) == Lookup(b, k) {
      assert HoldsAt(a, logs, v, place, k) && HoldsAt(b, logs, v, place, k);
    }
    SameTable(a, b);
  }

  // ---------------------------------------------------------------------------
  // Interleavings

  /** The records in the order in which the shards were taken; `order` names the shard of each step. */
  function Interleaved(logs: Logs, order: seq<nat>): (Table, Vector)
    requires forall i :: 0 <= i < |order| ==> order[i] < |logs|
    decreases |order|
  {
    if order == [] then (map[], Zero(|logs|))
    else
      var before := Interleaved(logs, order[..|order| - 1]);
      var s := order[|order| - 1];
      if s < |before.1| && before.1[s] < |logs[s]| then (Applied(before.0, logs[s][before.1[s]]), before.1[s := before.1[s] + 1]) else before
  }

  lemma {:induction false} InterleavedHolds(logs: Logs, order: seq<nat>, place: Placement)
    requires LogsWithin(logs, place) && forall i :: 0 <= i < |order| ==> order[i] < |logs|
    ensures var r := Interleaved(logs, order); VectorOk(logs, r.1) && Holds(r.0, logs, r.1, place)
    decreases |order|
  {
    if order == [] {
      NothingHolds(logs, place);
    } else {
      InterleavedHolds(logs, order[..|order| - 1], place);
      var before := Interleaved(logs, order[..|order| - 1]);
      var s := order[|order| - 1];
      if before.1[s] < |logs[s]| {
        ApplyHolds(before.0, logs, before.1, place, s, before.1[s := before.1[s] + 1]);
      }
    }
  }

  /** Replay that finishes one shard before it starts the next. */
  function ShardByShard(logs: Logs, shards: nat): Table
    requires shards <= |logs|
  {
    if shards == 0 then map[] else Replay(ShardByShard(logs, shards - 1), logs[shards - 1])
  }

  lemma {:induction false} ReplayReads(db: Table, log: seq<WalRecord>, s: nat, place: Placement, k: Key)
    requires forall i :: 0 <= i < |log| ==> Within(log[i], s, place)
    ensures place(k) != s ==> Lookup(Replay(db, log), k) == Lookup(db, k)
    ensures place(k) == s && Lookup(db, k) == None ==> Lookup(Replay(db, log), k) == Lookup(Replay(map[], log), k)
    decreases |log|
  {
    if log != [] {
      var front, r := log[..|log| - 1], log[|log| - 1];
      ReplayReads(db, front, s, place, k);
      AppliedReads(Replay(db, front), r, k);
      AppliedReads(Replay(map[], front), r, k);
      assert Within(r, s, place);
      if place(k) != s { Untouched(Lookup(Replay(db, front), k), r, k); }
    }
  }

  lemma {:induction false} ShardByShardReads(logs: Logs, shards: nat, place: Placement, k: Key)
    requires shards <= |logs| && LogsWithin(logs, place)
    ensures Lookup(ShardByShard(logs, shards), k) == if place(k) < shards then Lookup(Replay(map[], logs[place(k)]), k) else None
  {
    if shards > 0 {
      ShardByShardReads(logs, shards - 1, place, k);
      ReplayReads(ShardByShard(logs, shards - 1), logs[shards - 1], shards - 1, place, k);
    }
  }

  function Lengths(logs: Logs): Vector {
    seq(|logs|, s requires 0 <= s < |logs| => |logs[s]|)
  }

  lemma ShardByShardHolds(logs: Logs, place: Placement)
    requires LogsWithin(logs, place)
    ensures Holds(ShardByShard(logs, |logs|), logs, Lengths(logs), place)
  {
    forall k ensures HoldsAt(ShardByShard(logs, |logs|), logs, Lengths(logs), place, k) {
      ShardByShardReads(logs, |logs|, place, k);
      if place(k) < |logs| { assert logs[place(k)][..|logs[place(k)]|] == logs[place(k)]; }
    }
  }

  /** However the shards interleaved, replaying them one after the other gives the same database. */
  lemma AnyInterleaving(logs: Logs, order: seq<nat>, place: Placement)
    requires LogsWithin(logs, place) && forall i :: 0 <= i < |order| ==> order[i] < |logs|
    requires Interleaved(logs, order).1 == Lengths(logs)
    ensures Interleaved(logs, order).0 == ShardByShard(logs, |logs|)
  {
    InterleavedHolds(logs, order, place);
    ShardByShardHolds(logs, place);
    HoldsDetermines(Interleaved(logs, order).0, ShardByShard(logs, |logs|), logs, Lengths(logs), place);
  }
}
