/** The local store's own loops: replaying log files when it opens, committing, publishing and cleaning up. */
module LocalStore {
  import opened Wrappers
  import opened Keys
  import opened Sequences
  import opened Transactions
  import opened ShardedReplay
  import opened Durability

  datatype Fault = Regresses | NoSnapshot

  lemma {:induction false} AscendInterval(numbers: seq<nat>, low: nat, high: nat)
    requires Increasing(numbers) && low <= high && forall n: nat :: n in numbers <==> low < n <= high
    ensures |numbers| == high - low && forall i :: 0 <= i < |numbers| ==> numbers[i] == low + 1 + i
    decreases |numbers|
  {
    assert low + 1 in numbers <==> low < low + 1 <= high;
    if numbers != [] {
      assert numbers[0] in numbers;
      var k :| 0 <= k < |numbers| && numbers[k] == low + 1;
      assert k == 0;
      var rest := numbers[1..];
      assert numbers == [numbers[0]] + rest;
      forall n: nat ensures n in rest <==> low + 1 < n <= high {
        if n in rest {
          var i :| 0 <= i < |rest| && rest[i] == n;
          assert numbers[i + 1] == n && n in numbers;
        }
        if low + 1 < n <= high { assert n in numbers; }
      }
      AscendInterval(rest, low + 1, high);
    }
  }

  /** The shard's log files after `low`. */
  function FilesAfter(wal: map<(nat, nat), WalRecord>, s: nat, low: nat): set<nat> {
    set f | f in wal && f.0 == s && f.1 > low :: f.1
  }

  /** Every file holds the record it is named after. */
  ghost predicate FilesTrue(wal: map<(nat, nat), WalRecord>, logs: Logs) {
    forall f :: f in wal ==> f.0 < |logs| && 1 <= f.1 <= |logs[f.0]| && wal[f] == logs[f.0][f.1 - 1]
  }

  /** The i-th file after `low` is the next in number. */
  ghost predicate FileAt(wal: map<(nat, nat), WalRecord>, s: nat, low: nat, numbers: seq<nat>, i: nat)
    requires i < |numbers|
  {
    numbers[i] == low + 1 + i && (s, numbers[i]) in wal
  }

  lemma FilesListed(wal: map<(nat, nat), WalRecord>, logs: Logs, s: nat, low: nat)
    requires FilesTrue(wal, logs) && s < |logs| && low <= |logs[s]| && forall n :: low < n <= |logs[s]| ==> (s, n) in wal
    ensures |Ascend(FilesAfter(wal, s, low))| == |logs[s]| - low
    ensures forall i :: 0 <= i < |Ascend(FilesAfter(wal, s, low))| ==> FileAt(wal, s, low, Ascend(FilesAfter(wal, s, low)), i)
  {
    var numbers := Ascend(FilesAfter(wal, s, low));
    AscendIncreases(FilesAfter(wal, s, low));
    forall n: nat ensures n in numbers <==> low < n <= |logs[s]| {
      if low < n <= |logs[s]| { assert (s, n) in wal; }
    }
    AscendInterval(numbers, low, |logs[s]|);
  }

  /** What the base database lacks has log files. */
  lemma BaseFiles(d: Disk, place: Placement, s: nat)
    requires DiskOk(d, place) && s < |d.logs|
    ensures |Base(d).applied| == |d.logs| && forall n :: Base(d).applied[s] < n <= |d.logs[s]| ==> (s, n) in d.wal
  {
    BaseOk(d, place);
    forall n | Base(d).applied[s] < n <= |d.logs[s]| ensures (s, n) in d.wal {
      assert FileOk((s, n), d.logs, d.wal, Active(d));
    }
  }

  /** The database has applied the shard's records up to `at`, and no others since `was`. */
  ghost predicate Replaying(db: Db, was: Db, logs: Logs, place: Placement, s: nat, at: nat) {
    DbOk(db, logs, place) && s < |was.applied| && db.applied == was.applied[s := at]
  }

  lemma Unmoved(was: Db, logs: Logs, place: Placement, s: nat)
    requires DbOk(was, logs, place) && s < |logs|
    ensures Replaying(was, was, logs, place, s, was.applied[s])
  {
  }

  lemma MovedOn(was: Db, s: nat, at: nat, next: nat)
    requires s < |was.applied|
    ensures was.applied[s := at][s := next] == was.applied[s := next]
  {
  }

  lemma OneMoreCounted(logs: Logs, s: nat, r: WalRecord, number: nat)
    requires s < |logs| && number == Lengths(logs)[s] + 1
    ensures Lengths(logs)[s := number] == Lengths(logs[s := logs[s] + [r]]) && number == |logs[s]| + 1
  {
  }

  lemma OneMoreFile(wal: map<(nat, nat), WalRecord>, logs: Logs, s: nat, number: nat, r: WalRecord)
    requires FilesTrue(wal, logs) && s < |logs| && number == |logs[s]| + 1
    ensures FilesTrue(wal[(s, number) := r], logs[s := logs[s] + [r]])
  {
  }

  class FileStore {
    var wal: map<(nat, nat), WalRecord>
    var snapshots: map<Id, Db>
    var manifest: Option<Id>
    var store: Option<Db>
    var current: Db
    ghost var logs: Logs

    ghost function View(): Disk
      reads this
    {
      Disk(logs, wal.Keys, snapshots, manifest, store)
    }

    /** The files are those of a well-formed disk. */
    ghost predicate Stored(place: Placement)
      reads this
    {
      DiskOk(View(), place) && FilesTrue(wal, logs)
    }

    constructor (shards: nat, ghost place: Placement)
      ensures Stored(place) && logs == seq(shards, _ => []) && current == Db(map[], Zero(shards))
    {
      wal, snapshots, manifest, store := map[], map[], None, None;
      current := Db(map[], Zero(shards));
      logs := seq(shards, _ => []);
    }

    /** Opens the directory, or the active snapshot, or nothing, and replays each shard's log files in order. */
    method Open(ghost place: Placement, shards: nat) returns (ok: bool)
      requires Stored(place) && shards == |logs|
      modifies this`current, this`store
      ensures ok
      ensures current.applied == Lengths(logs) && current.content == ShardByShard(logs, |logs|)
    {
      ok := true;
      ghost var disk := View();
      if store.Some? {
        current := store.value;
      } else if manifest.Some? {
        current := snapshots[manifest.value];
      } else {
        current := Db(map[], Zero(shards));
      }
      BaseOk(disk, place);
      assert current == Base(disk);
      store := Some(current);
      for s := 0 to shards
        invariant ok && DbOk(current, logs, place) && AtMostVector(Base(disk).applied, current.applied)
        invariant forall t :: 0 <= t < s ==> current.applied[t] == |logs[t]|
      {
        BaseFiles(disk, place, s);
        ok := ReplayShard(place, s);
      }
      Replayed(current, logs, place);
    }

    /** Applies the shard's log files after `applied`; a gap would be an error. */
    method ReplayShard(ghost place: Placement, s: nat) returns (ok: bool)
      requires LogsWithin(logs, place) && s < |logs| && DbOk(current, logs, place) && FilesTrue(wal, logs)
      requires forall n :: current.applied[s] < n <= |logs[s]| ==> (s, n) in wal
      modifies this`current
      ensures ok && DbOk(current, logs, place) && current.applied == old(current).applied[s := |logs[s]|]
    {
      var low := current.applied[s];
      var numbers := Ascend(FilesAfter(wal, s, low));
      FilesListed(wal, logs, s, low);
      ok := true;
      ghost var was, at: nat, last: nat := current, low, |logs[s]|;
      Unmoved(was, logs, place, s);
      for i := 0 to |numbers|
        invariant ok && at == low + i && Replaying(current, was, logs, place, s, at)
      {
        assert FileAt(wal, s, low, numbers, i);
        if numbers[i] != current.applied[s] + 1 { ok := false; break; }
        ApplyNext(place, s, numbers[i]);
        MovedOn(was, s, at, numbers[i]);
        at := at + 1;
      }
      assert at == last;
    }

    method ApplyNext(ghost place: Placement, s: nat, number: nat)
      requires LogsWithin(logs, place) && s < |logs| && DbOk(current, logs, place) && FilesTrue(wal, logs)
      requires number == current.applied[s] + 1 && (s, number) in wal
      modifies this`current
      ensures DbOk(current, logs, place) && current.applied == old(current).applied[s := number]
    {
      ghost var was := current;
      AdvancedOk(was, logs, s, place);
      assert wal[(s, number)] == logs[s][was.applied[s]];
      var next := ApplyRecord(current.content, wal[(s, number)]);
      current := Db(next, current.applied[s := number]);
      assert current == Advanced(was, logs, s);
    }

    /** Syncs the record's file, then applies it. */
    method Commit(ghost place: Placement, s: nat, r: WalRecord)
      requires Stored(place) && s < |logs| && Within(r, s, place) && current.applied == Lengths(logs) && DbOk(current, logs, place)
      modifies this
      ensures Stored(place) && logs == old(logs)[s := old(logs)[s] + [r]]
      ensures current.applied == Lengths(logs) && current.content == Applied(old(current).content, r)
      ensures snapshots == old(snapshots) && manifest == old(manifest) && store == old(store)
    {
      var number := current.applied[s] + 1;
      var next := ApplyRecord(current.content, r);
      OneMoreCounted(logs, s, r, number);
      StoreFile(place, s, number, r);
      current := Db(next, current.applied[s := number]);
    }

    /** Syncs one file; the log it belongs to then holds the record. */
    method StoreFile(ghost place: Placement, s: nat, number: nat, r: WalRecord)
      requires Stored(place) && s < |logs| && Within(r, s, place) && number == |logs[s]| + 1
      modifies this`wal, this`logs
      ensures Stored(place) && logs == old(logs)[s := old(logs)[s] + [r]]
    {
      ghost var disk := View();
      LogDisk(disk, s, r, place);
      OneMoreFile(wal, logs, s, number, r);
      wal := wal[(s, number) := r];
      logs := logs[s := logs[s] + [r]];
      assert View() == Logged(disk, s, r);
    }

    /** Moves the manifest to a prepared snapshot unless it covers less, then removes what it makes superfluous. */
    method Publish(ghost place: Placement, id: Id) returns (r: Result<(), Fault>)
      requires Stored(place) && (id in snapshots && store.Some? ==> AtMostVector(snapshots[id].applied, store.value.applied))
      modifies this`wal, this`snapshots, this`manifest
      ensures Stored(place)
      ensures r.Ok? <==>
                && id in old(snapshots)
                && (old(manifest).Some? ==>
                      && old(manifest).value in old(snapshots)
                      && var was, next := old(snapshots)[old(manifest).value].applied, old(snapshots)[id].applied;
                      |was| == |next| && forall s :: 0 <= s < |was| ==> was[s] <= next[s])
      ensures r.Ok? ==> manifest == Some(id) && id in snapshots && snapshots[id] == old(snapshots)[id]
      ensures r.Ok? ==> forall f :: f in wal <==> f in old(wal) && !(f.0 < |snapshots[id].applied| && f.1 <= snapshots[id].applied[f.0])
      ensures r.Err? ==> View() == old(View())
    {
      if id !in snapshots { return Err(NoSnapshot); }
      var next := snapshots[id].applied;
      if manifest.Some? {
        if |snapshots[manifest.value].applied| != |next| { return Err(Regresses); }
        for s := 0 to |next|
          invariant forall t :: 0 <= t < s ==> snapshots[manifest.value].applied[t] <= next[t]
        {
          if next[s] < snapshots[manifest.value].applied[s] { return Err(Regresses); }
        }
      }
      ghost var before := View();
      manifest := Some(id);
      PointerMoved(before, View(), id, place);
      TrimLogs(place, next);
      TrimSnapshots(place, id);
      return Ok(());
    }

    /** Removes, shard by shard, the log files the active snapshot covers. */
    method TrimLogs(ghost place: Placement, covered: Vector)
      requires Stored(place) && Active(View()).Some? && covered == Active(View()).value.applied
      modifies this`wal
      ensures Stored(place)
      ensures forall f :: f in wal <==> f in old(wal) && !(f.0 < |covered| && f.1 <= covered[f.0])
    {
      for s := 0 to |covered|
        invariant Stored(place)
        invariant forall f :: f in wal <==> f in old(wal) && !(f.0 < s && f.1 <= covered[f.0])
        invariant forall f :: f in wal ==> wal[f] == old(wal)[f]
      {
        ghost var before := View();
        wal := map f | f in wal && !(f.0 == s && f.1 <= covered[s]) :: wal[f];
        FilesTrimmed(before, View(), place);
      }
    }

    /** Removes every older snapshot but the last of them by name, and no other. */
    method TrimSnapshots(ghost place: Placement, id: Id)
      requires Stored(place) && manifest == Some(id)
      modifies this`snapshots
      ensures Stored(place) && SubSnapshots(snapshots, old(snapshots)) && id in snapshots
      ensures forall k :: k in snapshots <==> k in old(snapshots) && Kept(k, OlderThan(old(snapshots), id))
    {
      ghost var before := snapshots;
      var older := Keys.Sorted(OlderThan(snapshots, id));
      NotOlder(snapshots, id, older);
      if older == [] { return; }
      for i := 0 to |older| - 1
        invariant Stored(place) && manifest == Some(id)
        invariant SubSnapshots(snapshots, before) && id in snapshots
        invariant forall k :: k in snapshots <==> k in before && k !in older[..i]
      {
        ghost var disk := View();
        OneMoreGone(older, i);
        snapshots := snapshots - {older[i]};
        SnapshotDropped(disk, View(), older[i], place);
      }
      LastStays(OlderThan(before, id), older);
    }
  }

  /** Snapshots that are not among the older ones stay, and so does the last of those. */
  ghost predicate Kept(k: Id, older: set<Id>) {
    k in older ==> forall x :: x in older ==> AtMost(x, k)
  }

  /** The snapshots that a cleanup behind `id` keeps: those not older, and of the older ones the last by name. */
  lemma KeptExactly(snapshots: map<Id, Db>, id: Id, k: Id)
    requires id in snapshots && k in snapshots
    ensures Kept(k, OlderThan(snapshots, id)) <==>
            || Sum(snapshots[k].applied) >= Sum(snapshots[id].applied)
            || forall x :: x in snapshots && x != k && Sum(snapshots[x].applied) < Sum(snapshots[id].applied) ==> Less(x, k)
  {
    var older := OlderThan(snapshots, id);
    if Sum(snapshots[k].applied) < Sum(snapshots[id].applied) {
      assert k in older;
      forall x | x in older && x != k ensures Less(x, k) <==> AtMost(x, k) {
        LessTotal(x, k);
      }
      LessIrreflexive(k);
    }
  }

  lemma NotOlder(snapshots: map<Id, Db>, id: Id, older: seq<Key>)
    requires older == Sorted(OlderThan(snapshots, id))
    ensures id !in older && forall k :: k in older ==> k in snapshots
    ensures older == [] ==> forall k :: Kept(k, OlderThan(snapshots, id))
  {
    assert id !in OlderThan(snapshots, id);
  }

  lemma OneMoreGone(older: seq<Key>, i: nat)
    requires i < |older|
    ensures forall k :: k in older[..i + 1] <==> k in older[..i] || k == older[i]
    ensures older[i] in older
  {
    assert older[..i + 1] == older[..i] + [older[i]];
  }

  lemma LastStays(s: set<Key>, older: seq<Key>)
    requires older == Sorted(s) && older != []
    ensures forall k :: Kept(k, s) <==> k !in older[..|older| - 1]
  {
    SortedAscends(s);
    var last := |older| - 1;
    assert older == older[..last] + [older[last]];
    forall x | x in s ensures AtMost(x, older[last]) {
      assert x in older;
    }
    forall k ensures Kept(k, s) <==> k !in older[..last] {
      if k in older[..last] {
        var i :| 0 <= i < last && older[i] == k;
        assert Less(k, older[last]) && older[last] in s && k in s;
        LessAsymmetric(k, older[last]);
        LessIrreflexive(k);
        assert !AtMost(older[last], k);
      }
    }
  }

  /** The snapshots before a given one, by what they cover in all. */
  function OlderThan(snapshots: map<Id, Db>, id: Id): set<Id> {
    set other | other in snapshots && id in snapshots && Sum(snapshots[other].applied) < Sum(snapshots[id].applied)
  }

  ghost predicate SubSnapshots(after: map<Id, Db>, before: map<Id, Db>) {
    forall id :: id in after ==> id in before && after[id] == before[id]
  }

  lemma Replayed(db: Db, logs: Logs, place: Placement)
    requires DbOk(db, logs, place) && LogsWithin(logs, place) && forall s :: 0 <= s < |logs| ==> db.applied[s] == |logs[s]|
    ensures db.applied == Lengths(logs) && db.content == ShardByShard(logs, |logs|)
  {
    assert db.applied == Lengths(logs);
    ShardByShardHolds(logs, place);
    HoldsDetermines(db.content, ShardByShard(logs, |logs|), logs, db.applied, place);
  }

  lemma PointerMoved(d: Disk, e: Disk, id: Id, place: Placement)
    requires DiskOk(d, place) && Publishable(d, id) && e == d.(manifest := Some(id))
    requires d.store.Some? ==> AtMostVector(d.snapshots[id].applied, d.store.value.applied)
    ensures DiskOk(e, place)
  {
    assert SnapshotOk(id, d.snapshots, d.logs, place);
    forall f ensures FileOk(f, e.logs, e.wal, Active(e)) {
      assert FileOk(f, d.logs, d.wal, Active(d));
    }
  }

  lemma FilesTrimmed(d: Disk, e: Disk, place: Placement)
    requires DiskOk(d, place) && e == d.(wal := e.wal) && e.wal <= d.wal && Active(d).Some?
    requires forall f :: f in d.wal && f !in e.wal ==> f.0 < |Active(d).value.applied| && f.1 <= Active(d).value.applied[f.0]
    ensures DiskOk(e, place)
  {
    assert Active(e) == Active(d);
    forall f ensures FileOk(f, e.logs, e.wal, Active(e)) {
      assert FileOk(f, d.logs, d.wal, Active(d));
    }
  }

  lemma SnapshotDropped(d: Disk, e: Disk, id: Id, place: Placement)
    requires DiskOk(d, place) && d.manifest.Some? && d.manifest.value != id && e == d.(snapshots := d.snapshots - {id})
    ensures DiskOk(e, place)
  {
    assert Active(e) == Active(d);
    forall other ensures SnapshotOk(other, e.snapshots, e.logs, place) {
      assert SnapshotOk(other, d.snapshots, d.logs, place);
    }
  }
}
