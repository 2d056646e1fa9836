/**
 A node that reopens from the remote store: it restores the published checkpoint, then replays what each shard's
 journal returns above the checkpoint's vector.
 */
module RemoteOpen {
  import opened Wrappers
  import opened Keys
  import opened Transactions
  import opened ShardedReplay
  import JournalLog
  import J = JournalProtocol
  import C = CheckpointPointer

  /** How a record's payload decodes. */
  type Decoder = JournalLog.Payload -> WalRecord

  /** What recovery returned for one shard, in a run of that shard's journal. */
  datatype Recovery = Recovery(states: seq<J.State>, steps: seq<J.Step>, at: nat, read: Option<JournalLog.Cursor>, found: seq<JournalLog.Recovered>)

  /** The recovery read above `after` and was reported in the run's state `at`. */
  ghost predicate Reported(r: Recovery, after: nat) {
    J.Run(r.states, r.steps) && r.at < |r.states| && J.Suffix(r.read, after, r.found) in r.states[r.at].outcomes
  }

  function HeadRead(r: Recovery): nat {
    if r.read.None? then 0 else r.read.value.head.position
  }

  /** The shard's log, decoded, is what the journal holds in that state. */
  ghost predicate Journalled(log: seq<WalRecord>, r: Recovery, decode: Decoder)
    requires r.at < |r.states|
  {
    var s := r.states[r.at].store;
    && J.StoreOk(s) && |log| == |J.LogOf(s)|
    && forall k :: 0 <= k < |log| ==> JournalLog.HeadOk(s.records, s.head) && J.LogOf(s)[k] in s.records && log[k] == decode(s.records[J.LogOf(s)[k]].payload)
  }

  function Decoded(found: seq<JournalLog.Recovered>, decode: Decoder): seq<WalRecord> {
    seq(|found|, k requires 0 <= k < |found| => decode(found[k].payload))
  }

  /** The records recovery returned are those of the log above `after`, up to the head it read, each at its own position. */
  lemma FoundIsSuffix(r: Recovery, after: nat, log: seq<WalRecord>, decode: Decoder, upto: nat)
    requires Reported(r, after) && Journalled(log, r, decode) && after <= |log|
    requires upto == if after <= HeadRead(r) then HeadRead(r) else after
    ensures upto <= |log| && Decoded(r.found, decode) == log[after..upto]
    ensures forall k :: 0 <= k < |r.found| ==> r.found[k].position == after + k + 1
  {
    J.RecoveryIsTheSuffix(r.states, r.steps, r.at, r.at, r.read, after, r.found);
    var s := r.states[r.at].store;
    forall k | 0 <= k < |r.found| ensures Decoded(r.found, decode)[k] == log[after..upto][k] {
      assert J.Holds(s, r.found[k].position, J.LogOf(s)[after + k], r.found[k].payload);
    }
  }

  // ---------------------------------------------------------------------------
  // Replaying suffixes over a checkpoint

  lemma {:induction false} SuffixHolds(db: Table, logs: Logs, v: Vector, place: Placement, s: nat, upto: nat)
    requires Holds(db, logs, v, place) && VectorOk(logs, v) && LogsWithin(logs, place)
    requires s < |logs| && v[s] <= upto <= |logs[s]|
    ensures Holds(Replay(db, logs[s][v[s]..upto]), logs, v[s := upto], place) && VectorOk(logs, v[s := upto])
    decreases upto
  {
    var part := logs[s][v[s]..upto];
    if upto == v[s] {
      assert part == [] && v[s := upto] == v;
    } else {
      var last: nat := upto - 1;
      SuffixHolds(db, logs, v, place, s, last);
      assert part[..|part| - 1] == logs[s][v[s]..last] && part[|part| - 1] == logs[s][last];
      ApplyHolds(Replay(db, logs[s][v[s]..last]), logs, v[s := last], place, s, v[s := upto]);
    }
  }

  /** The shards in turn, each with what its journal returned. */
  function CaughtUp(db: Table, suffixes: seq<seq<WalRecord>>, shards: nat): Table
    requires shards <= |suffixes|
  {
    if shards == 0 then db else Replay(CaughtUp(db, suffixes, shards - 1), suffixes[shards - 1])
  }

  /** `w` for the first shards, `v` for the others. */
  function Reached(v: Vector, w: Vector, shards: nat): Vector
    requires shards <= |v| == |w|
  {
    w[..shards] + v[shards..]
  }

  lemma {:induction false} CaughtUpHolds(db: Table, logs: Logs, v: Vector, w: Vector, place: Placement, suffixes: seq<seq<WalRecord>>, shards: nat)
    requires Holds(db, logs, v, place) && VectorOk(logs, v) && VectorOk(logs, w) && LogsWithin(logs, place)
    requires shards <= |logs| == |suffixes|
    requires forall s :: 0 <= s < |logs| ==> v[s] <= w[s] && suffixes[s] == logs[s][v[s]..w[s]]
    ensures Holds(CaughtUp(db, suffixes, shards), logs, Reached(v, w, shards), place) && VectorOk(logs, Reached(v, w, shards))
    decreases shards
  {
    if shards == 0 {
      assert Reached(v, w, 0) == v;
    } else {
      var last: nat := shards - 1;
      CaughtUpHolds(db, logs, v, w, place, suffixes, last);
      var reached := Reached(v, w, last);
      assert reached[last] == v[last] && reached[last := w[last]] == Reached(v, w, shards);
      SuffixHolds(CaughtUp(db, suffixes, last), logs, reached, place, last, w[last]);
    }
  }

  // ---------------------------------------------------------------------------
  // Nodes that apply the journals and prepare checkpoints

  type Name = string

  /** A database and how many records of each shard it has applied. */
  datatype Copy = Copy(content: Table, applied: Vector)

  /** The journals' records, the nodes' databases, and every snapshot that was prepared. */
  datatype Site = Site(logs: Logs, nodes: map<Name, Copy>, prepared: map<nat, Copy>)

  datatype Action =
    | Append(shard: nat, record: WalRecord)
    | Join(node: Name, snapshot: Option<nat>)
    | ApplyNext(node: Name, shard: nat)
    | Prepare(node: Name, id: nat)
    | Leave(node: Name)

  /** A node starts from a snapshot or from nothing, and applies each shard's records in order; snapshots get fresh names. */
  ghost predicate Possible(x: Site, action: Action, place: Placement) {
    match action
    case Append(s, r) => s < |x.logs| && Within(r, s, place)
    case Join(_, snapshot) => snapshot.Some? ==> snapshot.value in x.prepared
    case ApplyNext(node, s) =>
      node in x.nodes && s < |x.logs| && s < |x.nodes[node].applied| && x.nodes[node].applied[s] < |x.logs[s]|
    case Prepare(node, id) => node in x.nodes && id !in x.prepared
    case Leave(_) => true
  }

  ghost function Did(x: Site, action: Action, place: Placement): Site
    requires Possible(x, action, place)
  {
    match action
    case Append(s, r) => x.(logs := x.logs[s := x.logs[s] + [r]])
    case Join(node, snapshot) =>
      x.(nodes := x.nodes[node := if snapshot.Some? then x.prepared[snapshot.value] else Copy(map[], Zero(|x.logs|))])
    case ApplyNext(node, s) =>
      var db := x.nodes[node];
      x.(nodes := x.nodes[node := Copy(Applied(db.content, x.logs[s][db.applied[s]]), db.applied[s := db.applied[s] + 1])])
    case Prepare(node, id) => x.(prepared := x.prepared[id := x.nodes[node]])
    case Leave(node) => x.(nodes := x.nodes - {node})
  }

  ghost predicate CopyOk(db: Copy, logs: Logs, place: Placement) {
    VectorOk(logs, db.applied) && Holds(db.content, logs, db.applied, place)
  }

  /** Every node's database and every snapshot holds, key by key, the records it counts. */
  ghost predicate SiteInv(x: Site, place: Placement) {
    && LogsWithin(x.logs, place)
    && (forall node :: node in x.nodes ==> CopyOk(x.nodes[node], x.logs, place))
    && (forall id :: id in x.prepared ==> CopyOk(x.prepared[id], x.logs, place))
  }

  lemma CopyLater(db: Copy, logs: Logs, place: Placement, s: nat, r: WalRecord, more: Logs)
    requires CopyOk(db, logs, place) && s < |logs| && more == logs[s := logs[s] + [r]]
    ensures CopyOk(db, more, place)
  {
    AppendHolds(db.content, logs, db.applied, place, s, r, more);
  }

  lemma AppendKeeps(x: Site, s: nat, r: WalRecord, place: Placement)
    requires SiteInv(x, place) && Possible(x, Append(s, r), place)
    ensures SiteInv(Did(x, Append(s, r), place), place)
  {
    var more := x.logs[s := x.logs[s] + [r]];
    forall node | node in x.nodes ensures CopyOk(x.nodes[node], more, place) {
      CopyLater(x.nodes[node], x.logs, place, s, r, more);
    }
    forall id | id in x.prepared ensures CopyOk(x.prepared[id], more, place) {
      CopyLater(x.prepared[id], x.logs, place, s, r, more);
    }
  }

  lemma ApplyKeeps(x: Site, node: Name, s: nat, place: Placement)
    requires SiteInv(x, place) && Possible(x, ApplyNext(node, s), place)
    ensures SiteInv(Did(x, ApplyNext(node, s), place), place)
  {
    var db := x.nodes[node];
    ApplyHolds(db.content, x.logs, db.applied, place, s, db.applied[s := db.applied[s] + 1]);
  }

  lemma DidKeeps(x: Site, action: Action, place: Placement)
    requires SiteInv(x, place) && Possible(x, action, place)
    ensures SiteInv(Did(x, action, place), place)
  {
    match action
    case Append(s, r) => AppendKeeps(x, s, r, place);
    case Join(_, _) => NothingHolds(x.logs, place);
    case ApplyNext(node, s) => ApplyKeeps(x, node, s, place);
    case Prepare(_, _) =>
    case Leave(_) =>
  }

  ghost predicate Acts(x: Site, actions: seq<Action>, place: Placement)
    decreases |actions|
  {
    actions != [] ==> Possible(x, actions[0], place) && Acts(Did(x, actions[0], place), actions[1..], place)
  }

  ghost function Acted(x: Site, actions: seq<Action>, place: Placement): Site
    requires Acts(x, actions, place)
    decreases |actions|
  {
    if actions == [] then x else Acted(Did(x, actions[0], place), actions[1..], place)
  }

  function Fresh(shards: nat): Site {
    Site(seq(shards, _ => []), map[], map[])
  }

  lemma {:induction false} ActedKeeps(x: Site, actions: seq<Action>, place: Placement)
    requires SiteInv(x, place) && Acts(x, actions, place)
    ensures SiteInv(Acted(x, actions, place), place)
    decreases |actions|
  {
    if actions != [] {
      DidKeeps(x, actions[0], place);
      ActedKeeps(Did(x, actions[0], place), actions[1..], place);
    }
  }

  // ---------------------------------------------------------------------------
  // The published checkpoint

  /** The manifest names a prepared snapshot and counts what its node had applied. */
  ghost predicate Names(m: C.Manifest, prepared: map<nat, Copy>) {
    m.id in prepared && prepared[m.id].applied == m.vector
  }

  /** Publishers set out with manifests that a preparation returned. */
  ghost predicate AllPrepared(steps: seq<C.Step>, prepared: map<nat, Copy>) {
    forall i :: 0 <= i < |steps| && steps[i].Check? ==> Names(steps[i].mine, prepared)
  }

  ghost predicate Vouched(s: C.State, prepared: map<nat, Copy>) {
    && (forall i :: 0 <= i < |s.history| ==> Names(s.history[i], prepared))
    && (forall p :: p in s.publishers ==> Names(s.publishers[p].mine, prepared))
  }

  lemma {:induction false} RunVouched(s: C.State, steps: seq<C.Step>, prepared: map<nat, Copy>)
    requires Vouched(s, prepared) && C.Runs(s, steps) && AllPrepared(steps, prepared)
    ensures Vouched(C.Run(s, steps), prepared)
    decreases |steps|
  {
    if steps != [] {
      var t := C.Apply(s, steps[0]);
      assert Vouched(t, prepared);
      assert forall i :: 0 <= i < |steps[1..]| ==> steps[1..][i] == steps[i + 1];
      RunVouched(t, steps[1..], prepared);
    }
  }

  /** Whatever came to be published holds, key by key, the first records of each shard that its vector counts. */
  lemma PublishedTruthful(shards: nat, actions: seq<Action>, publishing: seq<C.Step>, place: Placement)
    requires Acts(Fresh(shards), actions, place) && C.Runs(C.START, publishing) && C.Run(C.START, publishing).pointer.Some?
    requires AllPrepared(publishing, Acted(Fresh(shards), actions, place).prepared)
    ensures var x := Acted(Fresh(shards), actions, place); var m := C.Run(C.START, publishing).pointer.value.manifest;
            Names(m, x.prepared) && CopyOk(x.prepared[m.id], x.logs, place) && LogsWithin(x.logs, place)
  {
    var x, s := Acted(Fresh(shards), actions, place), C.Run(C.START, publishing);
    ActedKeeps(Fresh(shards), actions, place);
    assert forall p :: C.PhaseAt(p, C.START);
    C.RunKeeps(C.START, publishing);
    RunVouched(C.START, publishing, x.prepared);
    assert Names(s.history[|s.history| - 1], x.prepared);
  }

  // ---------------------------------------------------------------------------
  // Reopening

  /** How far each shard gets: to the head its recovery read, and never behind the checkpoint. */
  function Ends(v: Vector, recoveries: seq<Recovery>): Vector
    requires |v| == |recoveries|
  {
    seq(|v|, s requires 0 <= s < |v| => if v[s] <= HeadRead(recoveries[s]) then HeadRead(recoveries[s]) else v[s])
  }

  function Suffixes(recoveries: seq<Recovery>, decode: Decoder): seq<seq<WalRecord>> {
    seq(|recoveries|, s requires 0 <= s < |recoveries| => Decoded(recoveries[s].found, decode))
  }

  /** Each shard's journal was read above what the checkpoint covers. */
  ghost predicate Recovered(logs: Logs, v: Vector, recoveries: seq<Recovery>, decode: Decoder) {
    && |logs| == |v| == |recoveries|
    && forall s :: 0 <= s < |logs| ==> Reported(recoveries[s], v[s]) && Journalled(logs[s], recoveries[s], decode)
  }

  lemma OverCheckpoint(db: Table, logs: Logs, v: Vector, place: Placement, recoveries: seq<Recovery>, decode: Decoder)
    requires Holds(db, logs, v, place) && VectorOk(logs, v) && LogsWithin(logs, place) && Recovered(logs, v, recoveries, decode)
    ensures var reopened := CaughtUp(db, Suffixes(recoveries, decode), |logs|);
            Holds(reopened, logs, Ends(v, recoveries), place) && VectorOk(logs, Ends(v, recoveries))
  {
    var w := Ends(v, recoveries);
    forall s | 0 <= s < |logs| ensures v[s] <= w[s] <= |logs[s]| && Suffixes(recoveries, decode)[s] == logs[s][v[s]..w[s]] {
      FoundIsSuffix(recoveries[s], v[s], logs[s], decode, w[s]);
    }
    CaughtUpHolds(db, logs, v, w, place, Suffixes(recoveries, decode), |logs|);
    assert Reached(v, w, |logs|) == w;
  }

  /**
   After any run of journals, nodes and preparations, a node that restores whatever checkpoint came to be published, through
   any publishers and lost replies, and replays what the journals return above it, holds for each shard exactly the records
   up to the head that was read; and if those are the ends of the journals, exactly the replay of them all.
   */
  lemma ReopensExactly(shards: nat, actions: seq<Action>, publishing: seq<C.Step>, x: Site, m: C.Manifest, place: Placement, recoveries: seq<Recovery>, decode: Decoder)
    requires Acts(Fresh(shards), actions, place) && x == Acted(Fresh(shards), actions, place)
    requires C.Runs(C.START, publishing) && AllPrepared(publishing, x.prepared)
    requires C.Run(C.START, publishing).pointer.Some? && m == C.Run(C.START, publishing).pointer.value.manifest
    requires Recovered(x.logs, m.vector, recoveries, decode)
    ensures m.id in x.prepared
    ensures var reopened := CaughtUp(x.prepared[m.id].content, Suffixes(recoveries, decode), |x.logs|);
            && Holds(reopened, x.logs, Ends(m.vector, recoveries), place)
            && (Ends(m.vector, recoveries) == Lengths(x.logs) ==> reopened == ShardByShard(x.logs, |x.logs|))
  {
    PublishedTruthful(shards, actions, publishing, place);
    var db := x.prepared[m.id].content;
    OverCheckpoint(db, x.logs, m.vector, place, recoveries, decode);
    AllTheWay(CaughtUp(db, Suffixes(recoveries, decode), |x.logs|), x.logs, Ends(m.vector, recoveries), place);
  }

  /** Without a checkpoint the journals alone give the same. */
  lemma ReopensFromNothing(logs: Logs, place: Placement, recoveries: seq<Recovery>, decode: Decoder)
    requires LogsWithin(logs, place) && Recovered(logs, Zero(|logs|), recoveries, decode)
    ensures var reopened := CaughtUp(map[], Suffixes(recoveries, decode), |logs|);
            && Holds(reopened, logs, Ends(Zero(|logs|), recoveries), place)
            && (Ends(Zero(|logs|), recoveries) == Lengths(logs) ==> reopened == ShardByShard(logs, |logs|))
  {
    NothingHolds(logs, place);
    OverCheckpoint(map[], logs, Zero(|logs|), place, recoveries, decode);
    AllTheWay(CaughtUp(map[], Suffixes(recoveries, decode), |logs|), logs, Ends(Zero(|logs|), recoveries), place);
  }

  lemma AllTheWay(db: Table, logs: Logs, w: Vector, place: Placement)
    requires Holds(db, logs, w, place) && LogsWithin(logs, place)
    ensures w == Lengths(logs) ==> db == ShardByShard(logs, |logs|)
  {
    if w == Lengths(logs) {
      ShardByShardHolds(logs, place);
      HoldsDetermines(db, ShardByShard(logs, |logs|), logs, w, place);
    }
  }
}
