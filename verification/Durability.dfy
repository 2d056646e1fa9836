/**
 The local durable store through crashes: synced log files, a database cache that loses what it had not flushed,
 prepared snapshots, and a manifest that names the active one while older files are cleaned up.
 */
module Durability {
  import opened Wrappers
  import opened Keys
  import opened Transactions
  import opened ShardedReplay

  type Id = string

  /** A database and the number of records of each shard it has applied. */
  datatype Db = Db(content: Table, applied: Vector)

  /**
   What survives a crash. `logs` is everything ever synced, shard by shard; `wal` says which of those files are still there,
   and `store` is the database directory as last flushed, if it exists.
   */
  datatype Disk = Disk(logs: Logs, wal: set<(nat, nat)>, snapshots: map<Id, Db>, manifest: Option<Id>, store: Option<Db>)

  /**
   A running process: the databases it went through since the last flush, the shards between log write and apply, the
   snapshots it prepared, whether it is cleaning up behind a publication, and whether it still replays the logs.
   */
  datatype Node = Node(trail: seq<Db>, busy: set<nat>, prepared: set<Id>, cleaning: bool, opening: bool)

  /** `acked` counts, by shard, the transactions acknowledged to their callers. */
  datatype State = State(disk: Disk, node: Option<Node>, acked: Vector)

  datatype Step =
    | Log(shard: nat, record: WalRecord)
    | Apply(shard: nat)
    | Flush(index: nat)
    | Prepare(id: Id)
    | Publish(id: Id)
    | TrimLog(shard: nat, number: nat)
    | TrimSnapshot(id: Id)
    | FinishPublish
    | Crash(wiped: bool)
    | Open
    | ReplayNext(shard: nat)
    | Serve

  function Empty(shards: nat): State {
    State(Disk(seq(shards, _ => []), {}, map[], None, None), None, Zero(shards))
  }

  function Current(n: Node): Db
    requires n.trail != []
  {
    n.trail[|n.trail| - 1]
  }

  predicate AtMostVector(a: Vector, b: Vector) {
    |a| == |b| && forall s :: 0 <= s < |a| ==> a[s] <= b[s]
  }

  function Sum(v: Vector): nat {
    if v == [] then 0 else v[0] + Sum(v[1..])
  }

  function Active(d: Disk): Option<Db> {
    if d.manifest.Some? && d.manifest.value in d.snapshots then Some(d.snapshots[d.manifest.value]) else None
  }

  /** What a freshly started process opens: the directory if it is there, else the active snapshot, else nothing. */
  function Base(d: Disk): Db {
    if d.store.Some? then d.store.value
    else if Active(d).Some? then Active(d).value
    else Db(map[], Zero(|d.logs|))
  }

  /** An older snapshot may go while a younger one that is not newer than the active one stays. */
  predicate MayTrim(d: Disk, id: Id) {
    && Active(d).Some? && id in d.snapshots
    && Sum(d.snapshots[id].applied) < Sum(Active(d).value.applied)
    && exists other :: other in d.snapshots && other != id
                    && Sum(d.snapshots[id].applied) <= Sum(d.snapshots[other].applied) < Sum(Active(d).value.applied)
  }

  /** Every record of the shard after `applied` has a file, without a gap. */
  predicate NothingLeft(d: Disk, applied: Vector) {
    |applied| == |d.logs| && forall f :: f in d.wal ==> f.0 < |applied| && f.1 <= applied[f.0]
  }

  /** The shard has a next record to apply. */
  predicate Behind(d: Disk, db: Db, shard: nat) {
    shard < |d.logs| && shard < |db.applied| && db.applied[shard] < |d.logs[shard]|
  }

  /** What a running process can do next. */
  predicate Possible(d: Disk, n: Node, step: Step) {
    n.trail != [] &&
    match step
    case Log(shard, _) => !n.opening && shard < |d.logs| && shard !in n.busy
    case Apply(shard) => !n.opening && shard in n.busy && Behind(d, Current(n), shard)
    case Flush(index) => index < |n.trail|
    case Prepare(id) => !n.opening && n.busy == {} && id !in d.snapshots
    case Publish(id) => !n.opening && !n.cleaning && id in n.prepared && id in d.snapshots
    case TrimLog(shard, number) => n.cleaning && Active(d).Some? && shard < |Active(d).value.applied| && number <= Active(d).value.applied[shard]
    case TrimSnapshot(id) => n.cleaning && MayTrim(d, id)
    case FinishPublish => n.cleaning
    case ReplayNext(shard) => n.opening && Behind(d, Current(n), shard) && (shard, Current(n).applied[shard] + 1) in d.wal
    case Serve => n.opening && NothingLeft(d, Current(n).applied)
    case Crash(_) => true
    case Open => false
  }

  predicate Enabled(s: State, step: Step) {
    if step.Crash? then true
    else if step.Open? then s.node.None?
    else s.node.Some? && Possible(s.disk, s.node.value, step)
  }

  function Advanced(db: Db, logs: Logs, shard: nat): Db
    requires shard < |logs| && shard < |db.applied| && db.applied[shard] < |logs[shard]|
  {
    Db(Applied(db.content, logs[shard][db.applied[shard]]), db.applied[shard := db.applied[shard] + 1])
  }

  /** The pointer moves only to a snapshot that covers, shard by shard, what the active one covers. */
  predicate Publishable(d: Disk, id: Id) {
    id in d.snapshots && (d.manifest.Some? ==> Active(d).Some? && AtMostVector(Active(d).value.applied, d.snapshots[id].applied))
  }

  function Logged(d: Disk, shard: nat, r: WalRecord): Disk
    requires shard < |d.logs|
  {
    d.(logs := d.logs[shard := d.logs[shard] + [r]], wal := d.wal + {(shard, |d.logs[shard]| + 1)})
  }

  function ApplyStep(d: Disk, n: Node, acked: Vector, step: Step): State
    requires Possible(d, n, step) && !step.Crash? && (step.Apply? ==> step.shard < |acked|)
  {
    match step
    case Log(shard, r) => State(Logged(d, shard, r), Some(n.(busy := n.busy + {shard})), acked)
    case Apply(shard) =>
      State(d, Some(n.(trail := n.trail + [Advanced(Current(n), d.logs, shard)], busy := n.busy - {shard})),
            acked[shard := Current(n).applied[shard] + 1])
    case Flush(index) => State(d.(store := Some(n.trail[index])), Some(n.(trail := n.trail[index..])), acked)
    case Prepare(id) =>
      State(d.(store := Some(Current(n)), snapshots := d.snapshots[id := Current(n)]),
            Some(n.(trail := [Current(n)], prepared := n.prepared + {id})), acked)
    case Publish(id) =>
      if Publishable(d, id) then State(d.(manifest := Some(id)), Some(n.(cleaning := true)), acked) else State(d, Some(n), acked)
    case TrimLog(shard, number) => State(d.(wal := d.wal - {(shard, number)}), Some(n), acked)
    case TrimSnapshot(id) => State(d.(snapshots := d.snapshots - {id}), Some(n), acked)
    case FinishPublish => State(d, Some(n.(cleaning := false)), acked)
    case ReplayNext(shard) => State(d, Some(n.(trail := n.trail + [Advanced(Current(n), d.logs, shard)])), acked)
    case Serve => State(d, Some(n.(opening := false)), Current(n).applied)
    case Open => State(d, Some(n), acked)
  }

  /** A crash loses the process; the directory may be lost with it. Opening starts a replay on what is there. */
  function After(s: State, step: Step): State
    requires Enabled(s, step) && (step.Apply? ==> step.shard < |s.acked|)
  {
    if step.Crash? then State(if step.wiped then s.disk.(store := None) else s.disk, None, s.acked)
    else if step.Open? then State(s.disk.(store := Some(Base(s.disk))), Some(Node([Base(s.disk)], {}, {}, false, true)), s.acked)
    else ApplyStep(s.disk, s.node.value, s.acked, step)
  }

  // ---------------------------------------------------------------------------
  // The invariant

  ghost predicate DbOk(db: Db, logs: Logs, place: Placement) {
    VectorOk(logs, db.applied) && Holds(db.content, logs, db.applied, place)
  }

  ghost predicate SnapshotOk(id: Id, snapshots: map<Id, Db>, logs: Logs, place: Placement) {
    id in snapshots ==> DbOk(snapshots[id], logs, place)
  }

  ghost predicate TrailOk(i: nat, trail: seq<Db>, logs: Logs, place: Placement) {
    i < |trail| ==> DbOk(trail[i], logs, place)
  }

  ghost predicate TrailRises(i: nat, j: nat, trail: seq<Db>) {
    i <= j < |trail| ==> AtMostVector(trail[i].applied, trail[j].applied)
  }

  /** A missing log file is covered by the active snapshot. */
  ghost predicate FileOk(f: (nat, nat), logs: Logs, wal: set<(nat, nat)>, active: Option<Db>) {
    && (f in wal ==> f.0 < |logs| && 1 <= f.1 <= |logs[f.0]|)
    && (f.0 < |logs| && 1 <= f.1 <= |logs[f.0]| && f !in wal ==> active.Some? && f.0 < |active.value.applied| && f.1 <= active.value.applied[f.0])
  }

  /** The directory covers the active snapshot, so the log files that are gone are not needed. */
  ghost predicate Covers(store: Option<Db>, active: Option<Db>) {
    store.Some? && active.Some? ==> AtMostVector(active.value.applied, store.value.applied)
  }

  ghost predicate PreparedOk(id: Id, prepared: set<Id>, snapshots: map<Id, Db>, store: Option<Db>) {
    id in prepared && id in snapshots ==> store.Some? && AtMostVector(snapshots[id].applied, store.value.applied)
  }

  ghost predicate ShardOk(s: nat, logs: Logs, acked: Vector) {
    s < |logs| && s < |acked| ==> acked[s] <= |logs[s]| <= acked[s] + 1
  }

  /** Between log write and apply a shard is one record ahead of its database; otherwise they agree. */
  ghost predicate BusyOk(s: nat, logs: Logs, n: Node, acked: Vector) {
    n.trail != [] && !n.opening && s < |logs| && s < |Current(n).applied| && s < |acked| ==>
      && acked[s] == Current(n).applied[s]
      && |logs[s]| == acked[s] + (if s in n.busy then 1 else 0)
  }

  ghost predicate NodeOk(n: Node, d: Disk, acked: Vector, place: Placement) {
    && n.trail != []
    && (forall i: nat :: TrailOk(i, n.trail, d.logs, place))
    && (forall i: nat, j: nat :: TrailRises(i, j, n.trail))
    && d.store.Some? && AtMostVector(d.store.value.applied, n.trail[0].applied)
    && (forall id :: PreparedOk(id, n.prepared, d.snapshots, d.store))
    && (forall s: nat :: BusyOk(s, d.logs, n, acked))
    && (n.opening ==> n.busy == {})
  }

  ghost predicate DiskOk(d: Disk, place: Placement) {
    && LogsWithin(d.logs, place)
    && (forall id :: SnapshotOk(id, d.snapshots, d.logs, place))
    && (d.manifest.Some? ==> d.manifest.value in d.snapshots)
    && (forall f :: FileOk(f, d.logs, d.wal, Active(d)))
    && (d.store.Some? ==> DbOk(d.store.value, d.logs, place))
    && Covers(d.store, Active(d))
  }

  ghost predicate Inv(s: State, place: Placement) {
    && DiskOk(s.disk, place)
    && |s.acked| == |s.disk.logs|
    && (forall i: nat :: ShardOk(i, s.disk.logs, s.acked))
    && (s.node.Some? ==> NodeOk(s.node.value, s.disk, s.acked, place))
  }

  lemma EmptyHolds(shards: nat, place: Placement)
    ensures Inv(Empty(shards), place)
  {
  }

  lemma VectorsChain(a: Vector, b: Vector, c: Vector)
    requires AtMostVector(a, b) && AtMostVector(b, c)
    ensures AtMostVector(a, c)
  {
  }

  // Writing a log file

  lemma LogsGrow(logs: Logs, more: Logs, s: nat, r: WalRecord, place: Placement)
    requires LogsWithin(logs, place) && s < |logs| && Within(r, s, place) && more == logs[s := logs[s] + [r]]
    ensures LogsWithin(more, place)
  {
  }

  lemma DbGrows(db: Db, logs: Logs, more: Logs, s: nat, r: WalRecord, place: Placement)
    requires DbOk(db, logs, place) && s < |logs| && more == logs[s := logs[s] + [r]]
    ensures DbOk(db, more, place)
  {
    AppendHolds(db.content, logs, db.applied, place, s, r, more);
  }

  lemma LogDisk(d: Disk, s: nat, r: WalRecord, place: Placement)
    requires DiskOk(d, place) && s < |d.logs| && Within(r, s, place)
    ensures DiskOk(Logged(d, s, r), place)
    ensures Active(Logged(d, s, r)) == Active(d)
  {
    var e := Logged(d, s, r);
    LogsGrow(d.logs, e.logs, s, r, place);
    forall id ensures SnapshotOk(id, e.snapshots, e.logs, place) {
      assert SnapshotOk(id, d.snapshots, d.logs, place);
      if id in d.snapshots { DbGrows(d.snapshots[id], d.logs, e.logs, s, r, place); }
    }
    forall f ensures FileOk(f, e.logs, e.wal, Active(e)) {
      assert FileOk(f, d.logs, d.wal, Active(d));
    }
    if d.store.Some? { DbGrows(d.store.value, d.logs, e.logs, s, r, place); }
  }

  lemma LogKeeps(s: State, step: Step, place: Placement)
    requires Inv(s, place) && step.Log? && Enabled(s, step) && Within(step.record, step.shard, place)
    ensures Inv(After(s, step), place)
  {
    var d, n := s.disk, s.node.value;
    var e, m := Logged(d, step.shard, step.record), n.(busy := n.busy + {step.shard});
    LogDisk(d, step.shard, step.record, place);
    forall i: nat ensures TrailOk(i, m.trail, e.logs, place) {
      assert TrailOk(i, n.trail, d.logs, place);
      if i < |n.trail| { DbGrows(n.trail[i], d.logs, e.logs, step.shard, step.record, place); }
    }
    forall i: nat ensures BusyOk(i, e.logs, m, s.acked) {
      assert BusyOk(i, d.logs, n, s.acked);
    }
    var last: nat := |n.trail| - 1;
    assert TrailOk(last, n.trail, d.logs, place);
    forall i: nat ensures ShardOk(i, e.logs, s.acked) {
      assert ShardOk(i, d.logs, s.acked) && BusyOk(i, d.logs, n, s.acked);
    }
  }

  // Applying the next record

  lemma AdvancedOk(db: Db, logs: Logs, s: nat, place: Placement)
    requires DbOk(db, logs, place) && LogsWithin(logs, place) && s < |logs| && db.applied[s] < |logs[s]|
    ensures DbOk(Advanced(db, logs, s), logs, place) && AtMostVector(db.applied, Advanced(db, logs, s).applied)
  {
    ApplyHolds(db.content, logs, db.applied, place, s, db.applied[s := db.applied[s] + 1]);
  }

  lemma TrailGrows(trail: seq<Db>, db: Db, logs: Logs, place: Placement)
    requires trail != [] && (forall i: nat :: TrailOk(i, trail, logs, place)) && (forall i: nat, j: nat :: TrailRises(i, j, trail))
    requires DbOk(db, logs, place) && AtMostVector(trail[|trail| - 1].applied, db.applied)
    ensures forall i: nat :: TrailOk(i, trail + [db], logs, place)
    ensures forall i: nat, j: nat :: TrailRises(i, j, trail + [db])
  {
    var more := trail + [db];
    forall i: nat ensures TrailOk(i, more, logs, place) {
      assert TrailOk(i, trail, logs, place);
    }
    var last: nat := |trail| - 1;
    forall i: nat, j: nat ensures TrailRises(i, j, more) {
      assert TrailRises(i, j, trail) && TrailRises(i, last, trail);
      if i <= last && j == |trail| { VectorsChain(trail[i].applied, trail[last].applied, db.applied); }
    }
  }

  lemma ApplyKeeps(s: State, step: Step, place: Placement)
    requires Inv(s, place) && step.Apply? && Enabled(s, step)
    ensures step.shard < |s.acked| && Inv(After(s, step), place)
  {
    var d, n := s.disk, s.node.value;
    var last: nat := |n.trail| - 1;
    assert TrailOk(last, n.trail, d.logs, place);
    AdvancedOk(Current(n), d.logs, step.shard, place);
    var db := Advanced(Current(n), d.logs, step.shard);
    TrailGrows(n.trail, db, d.logs, place);
    var m := n.(trail := n.trail + [db], busy := n.busy - {step.shard});
    var acked := s.acked[step.shard := Current(n).applied[step.shard] + 1];
    assert m.trail[0] == n.trail[0];
    forall i: nat ensures BusyOk(i, d.logs, m, acked) {
      assert BusyOk(i, d.logs, n, s.acked);
    }
    forall i: nat ensures ShardOk(i, d.logs, acked) {
      assert ShardOk(i, d.logs, s.acked) && BusyOk(i, d.logs, n, s.acked);
    }
  }

  lemma ReplayKeeps(s: State, step: Step, place: Placement)
    requires Inv(s, place) && step.ReplayNext? && Enabled(s, step)
    ensures Inv(After(s, step), place)
  {
    var d, n := s.disk, s.node.value;
    var last: nat := |n.trail| - 1;
    assert TrailOk(last, n.trail, d.logs, place);
    AdvancedOk(Current(n), d.logs, step.shard, place);
    TrailGrows(n.trail, Advanced(Current(n), d.logs, step.shard), d.logs, place);
    var m := n.(trail := n.trail + [Advanced(Current(n), d.logs, step.shard)]);
    assert m.trail[0] == n.trail[0];
    forall i: nat ensures BusyOk(i, d.logs, m, s.acked) {
    }
  }

  // Flushing and preparing

  lemma TrailCut(trail: seq<Db>, k: nat, logs: Logs, place: Placement)
    requires k < |trail| && (forall i: nat :: TrailOk(i, trail, logs, place)) && (forall i: nat, j: nat :: TrailRises(i, j, trail))
    ensures forall i: nat :: TrailOk(i, trail[k..], logs, place)
    ensures forall i: nat, j: nat :: TrailRises(i, j, trail[k..])
    ensures DbOk(trail[k], logs, place) && AtMostVector(trail[0].applied, trail[k].applied)
  {
    var rest := trail[k..];
    forall i: nat ensures TrailOk(i, rest, logs, place) {
      var j: nat := i + k;
      assert TrailOk(j, trail, logs, place);
    }
    forall i: nat, j: nat ensures TrailRises(i, j, rest) {
      var a: nat, b: nat := i + k, j + k;
      assert TrailRises(a, b, trail);
    }
    assert TrailOk(k, trail, logs, place) && TrailRises(0, k, trail);
  }

  /** Writing the directory as of a later point of the trail. */
  lemma FlushParts(d: Disk, n: Node, k: nat, acked: Vector, place: Placement)
    requires DiskOk(d, place) && NodeOk(n, d, acked, place) && k < |n.trail|
    ensures DiskOk(d.(store := Some(n.trail[k])), place)
    ensures NodeOk(n.(trail := n.trail[k..]), d.(store := Some(n.trail[k])), acked, place)
  {
    TrailCut(n.trail, k, d.logs, place);
    var e, m := d.(store := Some(n.trail[k])), n.(trail := n.trail[k..]);
    VectorsChain(d.store.value.applied, n.trail[0].applied, n.trail[k].applied);
    if Active(d).Some? { VectorsChain(Active(d).value.applied, d.store.value.applied, n.trail[k].applied); }
    assert Active(e) == Active(d);
    forall id ensures PreparedOk(id, m.prepared, e.snapshots, e.store) {
      assert PreparedOk(id, n.prepared, d.snapshots, d.store);
      if id in n.prepared && id in d.snapshots { VectorsChain(d.snapshots[id].applied, d.store.value.applied, n.trail[k].applied); }
    }
    assert Current(m) == Current(n);
    forall i: nat ensures BusyOk(i, e.logs, m, acked) {
      assert BusyOk(i, d.logs, n, acked);
    }
  }

  lemma FlushKeeps(s: State, step: Step, place: Placement)
    requires Inv(s, place) && step.Flush? && Enabled(s, step)
    ensures Inv(After(s, step), place)
  {
    FlushParts(s.disk, s.node.value, step.index, s.acked, place);
  }

  lemma PrepareKeeps(s: State, step: Step, place: Placement)
    requires Inv(s, place) && step.Prepare? && Enabled(s, step)
    ensures Inv(After(s, step), place)
  {
    var n := s.node.value;
    var k: nat := |n.trail| - 1;
    var db := n.trail[k];
    FlushParts(s.disk, n, k, s.acked, place);
    var d, m := s.disk.(store := Some(db)), n.(trail := n.trail[k..]);
    assert m.trail == [db];
    TrailCut(n.trail, k, d.logs, place);
    SnapshotAdded(d, m, s.acked, step.id, db, place);
  }

  lemma SnapshotAdded(d: Disk, n: Node, acked: Vector, id: Id, db: Db, place: Placement)
    requires DiskOk(d, place) && NodeOk(n, d, acked, place) && id !in d.snapshots && DbOk(db, d.logs, place) && d.store == Some(db)
    ensures DiskOk(d.(snapshots := d.snapshots[id := db]), place)
    ensures NodeOk(n.(prepared := n.prepared + {id}), d.(snapshots := d.snapshots[id := db]), acked, place)
  {
    var e, m := d.(snapshots := d.snapshots[id := db]), n.(prepared := n.prepared + {id});
    assert Active(e) == Active(d);
    forall other ensures SnapshotOk(other, e.snapshots, e.logs, place) && PreparedOk(other, m.prepared, e.snapshots, e.store) {
      assert SnapshotOk(other, d.snapshots, d.logs, place) && PreparedOk(other, n.prepared, d.snapshots, d.store);
    }
    forall i: nat ensures BusyOk(i, e.logs, m, acked) {
      assert BusyOk(i, d.logs, n, acked);
    }
  }

  // Publishing and cleaning up

  lemma PublishKeeps(s: State, step: Step, place: Placement)
    requires Inv(s, place) && step.Publish? && Enabled(s, step)
    ensures Inv(After(s, step), place)
  {
    var d, n := s.disk, s.node.value;
    if Publishable(d, step.id) {
      var e, m := d.(manifest := Some(step.id)), n.(cleaning := true);
      assert PreparedOk(step.id, n.prepared, d.snapshots, d.store);
      assert SnapshotOk(step.id, d.snapshots, d.logs, place);
      forall f ensures FileOk(f, e.logs, e.wal, Active(e)) {
        assert FileOk(f, d.logs, d.wal, Active(d));
      }
      forall i: nat ensures BusyOk(i, e.logs, m, s.acked) {
        assert BusyOk(i, d.logs, n, s.acked);
      }
    }
  }

  lemma TrimLogKeeps(s: State, step: Step, place: Placement)
    requires Inv(s, place) && step.TrimLog? && Enabled(s, step)
    ensures Inv(After(s, step), place)
  {
    var d := s.disk;
    var e := d.(wal := d.wal - {(step.shard, step.number)});
    forall f ensures FileOk(f, e.logs, e.wal, Active(e)) {
      assert FileOk(f, d.logs, d.wal, Active(d));
    }
  }

  lemma TrimSnapshotKeeps(s: State, step: Step, place: Placement)
    requires Inv(s, place) && step.TrimSnapshot? && Enabled(s, step)
    ensures Inv(After(s, step), place)
  {
    var d, n := s.disk, s.node.value;
    var e := d.(snapshots := d.snapshots - {step.id});
    assert step.id != d.manifest.value;
    assert Active(e) == Active(d);
    forall id ensures SnapshotOk(id, e.snapshots, e.logs, place) && PreparedOk(id, n.prepared, e.snapshots, e.store) {
      assert SnapshotOk(id, d.snapshots, d.logs, place) && PreparedOk(id, n.prepared, d.snapshots, d.store);
    }
  }

  lemma FinishKeeps(s: State, step: Step, place: Placement)
    requires Inv(s, place) && step.FinishPublish? && Enabled(s, step)
    ensures Inv(After(s, step), place)
  {
    var n := s.node.value;
    var m := n.(cleaning := false);
    forall i: nat ensures BusyOk(i, s.disk.logs, m, s.acked) {
      assert BusyOk(i, s.disk.logs, n, s.acked);
    }
  }

  // Crashing and opening

  lemma CrashKeeps(s: State, step: Step, place: Placement)
    requires Inv(s, place) && step.Crash?
    ensures Inv(After(s, step), place)
  {
    assert step.wiped ==> Active(s.disk.(store := None)) == Active(s.disk);
  }

  lemma BaseOk(d: Disk, place: Placement)
    requires DiskOk(d, place)
    ensures DbOk(Base(d), d.logs, place) && (Active(d).Some? ==> AtMostVector(Active(d).value.applied, Base(d).applied))
  {
    if d.store.None? {
      if d.manifest.Some? {
        assert SnapshotOk(d.manifest.value, d.snapshots, d.logs, place);
      } else {
        NothingHolds(d.logs, place);
      }
    }
  }

  lemma OpenKeeps(s: State, step: Step, place: Placement)
    requires Inv(s, place) && step.Open? && Enabled(s, step)
    ensures Inv(After(s, step), place)
  {
    var d := s.disk;
    BaseOk(d, place);
    var e, n := d.(store := Some(Base(d))), Node([Base(d)], {}, {}, false, true);
    assert Active(e) == Active(d);
    forall i: nat ensures TrailOk(i, n.trail, e.logs, place) {
    }
  }

  /** While it replays, a process never misses a log file: every record it still lacks has one. */
  lemma NeverMissing(s: State, shard: nat, place: Placement)
    requires Inv(s, place) && s.node.Some? && s.node.value.opening && shard < |s.disk.logs|
    ensures var db := Current(s.node.value);
            |db.applied| == |s.disk.logs| && forall n :: db.applied[shard] < n <= |s.disk.logs[shard]| ==> (shard, n) in s.disk.wal
  {
    var n, d := s.node.value, s.disk;
    var last: nat := |n.trail| - 1;
    assert TrailOk(last, n.trail, d.logs, place) && TrailRises(0, last, n.trail);
    forall k | Current(n).applied[shard] < k <= |d.logs[shard]| ensures (shard, k) in d.wal {
      assert FileOk((shard, k), d.logs, d.wal, Active(d));
    }
  }

  lemma NoneLeft(shard: nat, applied: nat, length: nat, wal: set<(nat, nat)>)
    requires forall n :: applied < n <= length ==> (shard, n) in wal
    requires forall n :: (shard, n) in wal ==> n <= applied
    requires applied <= length
    ensures applied == length
  {
    assert applied < length ==> (shard, length) in wal;
  }

  /** When nothing is left to replay, everything ever synced has been applied. */
  lemma ReplayComplete(s: State, place: Placement)
    requires Inv(s, place) && s.node.Some? && s.node.value.opening && NothingLeft(s.disk, Current(s.node.value).applied)
    ensures Current(s.node.value).applied == Lengths(s.disk.logs)
    ensures Current(s.node.value).content == ShardByShard(s.disk.logs, |s.disk.logs|)
  {
    var n, d := s.node.value, s.disk;
    var db := Current(n);
    var last: nat := |n.trail| - 1;
    assert TrailOk(last, n.trail, d.logs, place);
    forall shard | 0 <= shard < |d.logs| ensures db.applied[shard] == |d.logs[shard]| {
      NeverMissing(s, shard, place);
      NoneLeft(shard, db.applied[shard], |d.logs[shard]|, d.wal);
    }
    assert db.applied == Lengths(d.logs);
    ShardByShardHolds(d.logs, place);
    HoldsDetermines(db.content, ShardByShard(d.logs, |d.logs|), d.logs, db.applied, place);
  }

  lemma ServeKeeps(s: State, step: Step, place: Placement)
    requires Inv(s, place) && step.Serve? && Enabled(s, step)
    ensures Inv(After(s, step), place)
  {
    ReplayComplete(s, place);
    var n := s.node.value;
    var m := n.(opening := false);
    var acked := Current(n).applied;
    forall i: nat ensures BusyOk(i, s.disk.logs, m, acked) && ShardOk(i, s.disk.logs, acked) {
    }
  }

  // ---------------------------------------------------------------------------
  // Every run

  ghost predicate Legal(s: State, step: Step, place: Placement) {
    Enabled(s, step) && (step.Log? ==> Within(step.record, step.shard, place)) && (step.Apply? ==> step.shard < |s.acked|)
  }

  lemma StepKeeps(s: State, step: Step, place: Placement)
    requires Inv(s, place) && Legal(s, step, place)
    ensures Inv(After(s, step), place)
  {
    match step
    case Log(_, _) => LogKeeps(s, step, place);
    case Apply(_) => ApplyKeeps(s, step, place);
    case Flush(_) => FlushKeeps(s, step, place);
    case Prepare(_) => PrepareKeeps(s, step, place);
    case Publish(_) => PublishKeeps(s, step, place);
    case TrimLog(_, _) => TrimLogKeeps(s, step, place);
    case TrimSnapshot(_) => TrimSnapshotKeeps(s, step, place);
    case FinishPublish => FinishKeeps(s, step, place);
    case Crash(_) => CrashKeeps(s, step, place);
    case Open => OpenKeeps(s, step, place);
    case ReplayNext(_) => ReplayKeeps(s, step, place);
    case Serve => ServeKeeps(s, step, place);
  }

  /** Logs only grow, acknowledgements are never taken back, and the published vector regresses in no shard. */
  ghost predicate LogKept(i: nat, x: State, y: State) {
    i < |x.disk.logs| && i < |y.disk.logs| && i < |x.acked| && i < |y.acked| ==> x.disk.logs[i] <= y.disk.logs[i] && x.acked[i] <= y.acked[i]
  }

  ghost predicate Forward(x: State, y: State) {
    && |x.disk.logs| == |y.disk.logs| && |x.acked| == |y.acked|
    && (forall i: nat :: LogKept(i, x, y))
    && (Active(x.disk).Some? ==> Active(y.disk).Some? && AtMostVector(Active(x.disk).value.applied, Active(y.disk).value.applied))
  }

  lemma StepForward(s: State, step: Step, place: Placement)
    requires Inv(s, place) && Legal(s, step, place)
    ensures Forward(s, After(s, step))
  {
    var t := After(s, step);
    StepKeeps(s, step, place);
    if step.Serve? {
      ReplayComplete(s, place);
      forall i: nat ensures LogKept(i, s, t) {
        assert ShardOk(i, s.disk.logs, s.acked);
      }
    } else if step.Apply? {
      forall i: nat ensures LogKept(i, s, t) {
        assert BusyOk(i, s.disk.logs, s.node.value, s.acked);
      }
    } else {
      forall i: nat ensures LogKept(i, s, t) {
      }
    }
    ActiveForward(s, step, place);
  }

  lemma ActiveForward(s: State, step: Step, place: Placement)
    requires Inv(s, place) && Legal(s, step, place)
    ensures Active(s.disk).Some? ==> Active(After(s, step).disk).Some? && AtMostVector(Active(s.disk).value.applied, Active(After(s, step).disk).value.applied)
  {
    if step.Log? {
      LogDisk(s.disk, step.shard, step.record, place);
    }
  }

  lemma ForwardOn(x: State, y: State, z: State)
    requires Forward(x, y) && Forward(y, z)
    ensures Forward(x, z)
  {
    forall i: nat ensures LogKept(i, x, z) {
      assert LogKept(i, x, y) && LogKept(i, y, z);
    }
    if Active(x.disk).Some? { VectorsChain(Active(x.disk).value.applied, Active(y.disk).value.applied, Active(z.disk).value.applied); }
  }

  ghost predicate Runs(s: State, steps: seq<Step>, place: Placement)
    decreases |steps|
  {
    steps != [] ==> Legal(s, steps[0], place) && Runs(After(s, steps[0]), steps[1..], place)
  }

  ghost function Run(s: State, steps: seq<Step>, place: Placement): State
    requires Runs(s, steps, place)
    decreases |steps|
  {
    if steps == [] then s else Run(After(s, steps[0]), steps[1..], place)
  }

  /** Through any commits, flushes, checkpoints, cleanups and crashes. */
  lemma {:induction false} RunKeeps(s: State, steps: seq<Step>, place: Placement)
    requires Inv(s, place) && Runs(s, steps, place)
    ensures Inv(Run(s, steps, place), place) && Forward(s, Run(s, steps, place))
    decreases |steps|
  {
    if steps != [] {
      StepKeeps(s, steps[0], place);
      StepForward(s, steps[0], place);
      RunKeeps(After(s, steps[0]), steps[1..], place);
      ForwardOn(s, After(s, steps[0]), Run(s, steps, place));
    }
  }

  /**
   After any history, a process that reopens finds no gap and ends with every acknowledged transaction, in order, and at most
   one unacknowledged record more per shard; and the active snapshot is always there.
   */
  lemma ReopenedExactly(shards: nat, steps: seq<Step>, place: Placement)
    requires Runs(Empty(shards), steps, place)
    ensures var s := Run(Empty(shards), steps, place);
            && |s.acked| == |s.disk.logs| == shards
            && (forall i :: 0 <= i < shards ==> s.acked[i] <= |s.disk.logs[i]| <= s.acked[i] + 1)
            && (s.disk.manifest.Some? ==> s.disk.manifest.value in s.disk.snapshots)
            && (s.node.Some? && s.node.value.trail != [] && s.node.value.opening && NothingLeft(s.disk, Current(s.node.value).applied) ==>
                  Current(s.node.value).content == ShardByShard(s.disk.logs, shards))
            && (s.node.Some? && s.node.value.opening ==> NoGap(s))
  {
    EmptyHolds(shards, place);
    RunKeeps(Empty(shards), steps, place);
    var s := Run(Empty(shards), steps, place);
    forall i | 0 <= i < shards ensures s.acked[i] <= |s.disk.logs[i]| <= s.acked[i] + 1 {
      assert ShardOk(i, s.disk.logs, s.acked);
    }
    if s.node.Some? && s.node.value.trail != [] && s.node.value.opening && NothingLeft(s.disk, Current(s.node.value).applied) {
      ReplayComplete(s, place);
    }
    if s.node.Some? && s.node.value.opening { NothingMissing(s, place); }
  }

  /** Every record the replaying process still lacks has its file. */
  ghost predicate NoGap(s: State)
    requires s.node.Some?
  {
    && s.node.value.trail != [] && |Current(s.node.value).applied| == |s.disk.logs|
    && forall shard: nat, n: nat :: shard < |s.disk.logs| && Current(s.node.value).applied[shard] < n <= |s.disk.logs[shard]| ==> (shard, n) in s.disk.wal
  }

  lemma NothingMissing(s: State, place: Placement)
    requires Inv(s, place) && s.node.Some? && s.node.value.opening
    ensures NoGap(s)
  {
    var last: nat := |s.node.value.trail| - 1;
    assert TrailOk(last, s.node.value.trail, s.disk.logs, place);
    forall shard: nat | shard < |s.disk.logs|
      ensures forall n: nat :: Current(s.node.value).applied[shard] < n <= |s.disk.logs[shard]| ==> (shard, n) in s.disk.wal
    {
      NeverMissing(s, shard, place);
    }
  }

  /** A process that serves answers from the fold of exactly the acknowledged transactions, besides those being applied. */
  lemma ServesAcknowledged(s: State, place: Placement)
    requires Inv(s, place) && s.node.Some? && !s.node.value.opening
    ensures Current(s.node.value).applied == s.acked && Holds(Current(s.node.value).content, s.disk.logs, s.acked, place)
  {
    var n := s.node.value;
    var last: nat := |n.trail| - 1;
    assert TrailOk(last, n.trail, s.disk.logs, place);
    forall i: nat | i < |s.acked| ensures Current(n).applied[i] == s.acked[i] {
      assert BusyOk(i, s.disk.logs, n, s.acked);
    }
    assert Current(n).applied == s.acked;
  }

  /** After any history, a serving process answers from exactly the acknowledged transactions, besides those being applied. */
  lemma AlwaysServesAcknowledged(shards: nat, steps: seq<Step>, place: Placement)
    requires Runs(Empty(shards), steps, place)
    ensures var s := Run(Empty(shards), steps, place);
            s.node.Some? && !s.node.value.opening ==>
              && s.node.value.trail != [] && Current(s.node.value).applied == s.acked
              && Holds(Current(s.node.value).content, s.disk.logs, s.acked, place)
  {
    EmptyHolds(shards, place);
    RunKeeps(Empty(shards), steps, place);
    var s := Run(Empty(shards), steps, place);
    if s.node.Some? && !s.node.value.opening { ServesAcknowledged(s, place); }
  }

  // ---------------------------------------------------------------------------
  // Which checkpoints are published

  /** A publication moves the pointer exactly if the snapshot covers, in every shard, what the active one covers; otherwise it changes nothing. */
  lemma PublishesExactlyWhen(s: State, id: Id, place: Placement)
    requires Inv(s, place) && Legal(s, Publish(id), place)
    ensures id in s.disk.snapshots && |s.disk.snapshots[id].applied| == |s.disk.logs|
    ensures s.disk.manifest.Some? ==>
              s.disk.manifest.value in s.disk.snapshots && |s.disk.snapshots[s.disk.manifest.value].applied| == |s.disk.logs|
    ensures var d, t := s.disk, After(s, Publish(id));
            if d.manifest.None? || forall i :: 0 <= i < |d.logs| ==> d.snapshots[d.manifest.value].applied[i] <= d.snapshots[id].applied[i]
            then t.disk == d.(manifest := Some(id)) && t.node.Some? && t.node.value.cleaning
            else t == s
  {
    assert SnapshotOk(id, s.disk.snapshots, s.disk.logs, place);
    if s.disk.manifest.Some? {
      assert SnapshotOk(s.disk.manifest.value, s.disk.snapshots, s.disk.logs, place);
    }
  }

  lemma CurrentCoversActive(s: State, place: Placement)
    requires Inv(s, place) && s.node.Some?
    ensures s.node.value.trail != []
    ensures Active(s.disk).Some? ==> AtMostVector(Active(s.disk).value.applied, Current(s.node.value).applied)
  {
    var n := s.node.value;
    var last: nat := |n.trail| - 1;
    assert TrailRises(0, last, n.trail);
    if Active(s.disk).Some? {
      VectorsChain(Active(s.disk).value.applied, s.disk.store.value.applied, n.trail[0].applied);
      VectorsChain(Active(s.disk).value.applied, n.trail[0].applied, n.trail[last].applied);
    }
  }

  /** A checkpoint that a serving process takes while nothing is in flight is accepted, and holds exactly what was acknowledged. */
  lemma CheckpointGoesThrough(s: State, id: Id, place: Placement)
    requires Inv(s, place) && s.node.Some? && !s.node.value.opening && !s.node.value.cleaning && s.node.value.busy == {} && id !in s.disk.snapshots
    ensures Legal(s, Prepare(id), place) && Legal(After(s, Prepare(id)), Publish(id), place)
    ensures var t := After(After(s, Prepare(id)), Publish(id));
            && t.disk.manifest == Some(id) && id in t.disk.snapshots && t.disk.snapshots[id].applied == s.acked
            && Holds(t.disk.snapshots[id].content, s.disk.logs, s.acked, place)
  {
    CurrentCoversActive(s, place);
    ServesAcknowledged(s, place);
    var t := After(s, Prepare(id));
    StepKeeps(s, Prepare(id), place);
    assert t.disk.snapshots[id] == Current(s.node.value);
    PublishesExactlyWhen(t, id, place);
  }
}
