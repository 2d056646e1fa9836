/**
 Nodes that share one partition's journal: each replays it into a local database, computes transactions on that database
 and appends them where it last read to. A journal append either wins at the writer's cursor or leaves the log as it was;
 a winner may still be told that it failed.
 */
module Replication {
  import opened Wrappers
  import opened Keys
  import opened Transactions
  import opened ShardedReplay

  type Name = string

  /** Where a partition's owner record is kept, and the epoch its stored form decodes to. */
  datatype Format = Format(owner: Key, decode: Value -> Option<nat>)

  /** A committed record, the length of the log its transaction had read, and whether the node read further before appending. */
  datatype Entry = Entry(epoch: nat, record: WalRecord, basis: nat, seen: Table, moved: bool)

  /** A transaction between its operation and its append; the shard lock admits one at a time. */
  datatype Job = Job(record: WalRecord, basis: nat, seen: Table, moved: bool)

  datatype Node = Node(db: Table, sequence: nat, cursor: nat, job: Option<Job>)

  datatype State = State(format: Format, log: seq<Entry>, nodes: map<Name, Node>)

  datatype Reply = Won | WonUnseen | Refused

  datatype Step =
    | Join(node: Name)
    | Sync(node: Name)
    | Operate(node: Name, record: WalRecord)
    | Append(node: Name, reply: Reply)
    | Drop(node: Name)

  function Records(log: seq<Entry>): seq<WalRecord> {
    seq(|log|, i requires 0 <= i < |log| => log[i].record)
  }

  function Replayed(log: seq<Entry>): Table {
    Replay(map[], Records(log))
  }

  /** The first value a record puts under a key. */
  function FirstPut(puts: seq<(Key, Value)>, key: Key): Option<Value> {
    if puts == [] then None
    else if puts[0].0 == key then Some(puts[0].1)
    else FirstPut(puts[1..], key)
  }

  function Decoded(f: Format, stored: Option<Value>): Option<nat> {
    if stored.None? then None else f.decode(stored.value)
  }

  /** The epoch in the owner record that a log replays to. */
  function OwnerEpoch(f: Format, log: seq<Entry>): Option<nat> {
    Decoded(f, Lookup(Replayed(log), f.owner))
  }

  /** A record commits under the owner epoch it puts, or else under the one in the node's own database. */
  function EpochFor(f: Format, record: WalRecord, db: Table): Option<nat> {
    Decoded(f, if FirstPut(record.puts, f.owner).Some? then FirstPut(record.puts, f.owner) else Lookup(db, f.owner))
  }

  /** No key is put twice, as in the record of any transaction, and the owner record is never deleted. */
  predicate Committable(f: Format, record: WalRecord) {
    DistinctPuts(record.puts) && f.owner !in record.deletes && !Covered(f.owner, record.ranges)
  }

  function Synced(n: Node, log: seq<Entry>): Node {
    n.(db := Replayed(log), sequence := |log|, cursor := |log|,
       job := match n.job
              case None => None
              case Some(j) => Some(j.(moved := j.moved || n.sequence != |log|)))
  }

  /** The epoch the node would commit under; without an owner record the commit fails before it reaches the journal. */
  function CommitEpoch(f: Format, n: Node): Option<nat>
    requires n.job.Some?
  {
    EpochFor(f, n.job.value.record, n.db)
  }

  predicate Enabled(s: State, step: Step) {
    match step
    case Join(node) => node !in s.nodes
    case Sync(node) => node in s.nodes
    case Operate(node, record) => node in s.nodes && s.nodes[node].job.None? && Committable(s.format, record)
    case Append(node, reply) =>
      && node in s.nodes && s.nodes[node].job.Some?
      && (reply != Refused ==> s.nodes[node].cursor == |s.log| && CommitEpoch(s.format, s.nodes[node]).Some?)
    case Drop(node) => node in s.nodes
  }

  function Entered(j: Job, epoch: nat): Entry {
    Entry(epoch, j.record, j.basis, j.seen, j.moved)
  }

  function Apply(s: State, step: Step): State
    requires Enabled(s, step)
  {
    match step
    case Join(node) => s.(nodes := s.nodes[node := Node(Replayed(s.log), |s.log|, |s.log|, None)])
    case Sync(node) => s.(nodes := s.nodes[node := Synced(s.nodes[node], s.log)])
    case Operate(node, record) =>
      var n := s.nodes[node];
      s.(nodes := s.nodes[node := n.(job := Some(Job(record, n.sequence, n.db, false)))])
    case Append(node, reply) =>
      var n := s.nodes[node];
      if reply == Refused then s.(nodes := s.nodes[node := n.(job := None)])
      else
        var e := Entered(n.job.value, CommitEpoch(s.format, n).value);
        var m := if reply == Won then Node(Applied(n.db, e.record), n.sequence + 1, n.cursor + 1, None) else n.(job := None);
        s.(log := s.log + [e], nodes := s.nodes[node := m])
    case Drop(node) => s.(nodes := s.nodes - {node})
  }

  /** Nobody synchronizes a node while one of its transactions is between operation and append. */
  predicate InSection(s: State, step: Step) {
    step.Sync? && step.node in s.nodes ==> s.nodes[step.node].job.None?
  }

  // ---------------------------------------------------------------------------
  // What every run keeps

  /** A node's database is the replay of the first `sequence` records, and it appends where it read to. */
  ghost predicate NodeOk(n: Node, f: Format, log: seq<Entry>) {
    && n.cursor == n.sequence <= |log|
    && n.db == Replayed(log[..n.sequence])
    && (n.job.Some? ==>
          && n.job.value.basis <= n.sequence && Committable(f, n.job.value.record)
          && n.job.value.seen == Replayed(log[..n.job.value.basis])
          && (n.job.value.moved <==> n.job.value.basis < n.sequence))
  }

  ghost predicate NodeAt(node: Name, f: Format, nodes: map<Name, Node>, log: seq<Entry>) {
    node in nodes ==> NodeOk(nodes[node], f, log)
  }

  /** A record was computed from the records before it up to its basis; from all of them exactly if the node did not read on. */
  ghost predicate EntryAt(i: nat, f: Format, log: seq<Entry>) {
    i < |log| ==>
      && log[i].basis <= i
      && log[i].seen == Replayed(log[..log[i].basis])
      && (log[i].moved <==> log[i].basis < i)
      && Some(log[i].epoch) == OwnerEpoch(f, log[..i + 1])
  }

  ghost predicate Inv(s: State) {
    && (forall node :: NodeAt(node, s.format, s.nodes, s.log))
    && (forall i: nat :: EntryAt(i, s.format, s.log))
  }

  lemma RecordsSnoc(log: seq<Entry>, e: Entry)
    ensures Records(log + [e]) == Records(log) + [e.record]
    ensures Replayed(log + [e]) == Applied(Replayed(log), e.record)
  {
    assert (Records(log) + [e.record])[..|log|] == Records(log);
    assert Records(log + [e]) == Records(log) + [e.record];
  }

  lemma {:induction false} FirstIsLast(before: Option<Value>, puts: seq<(Key, Value)>, key: Key)
    requires DistinctPuts(puts)
    ensures PutAt(before, puts, key) == if FirstPut(puts, key).Some? then FirstPut(puts, key) else before
    decreases |puts|
  {
    if puts != [] {
      var first, rest := puts[0], puts[1..];
      assert forall i :: 0 <= i < |rest| ==> rest[i] == puts[i + 1];
      FirstIsLast(if first.0 == key then Some(first.1) else before, rest, key);
      PutFirst(before, puts, key);
      if first.0 == key { NotPut(rest, key); }
    }
  }

  lemma {:induction false} PutFirst(before: Option<Value>, puts: seq<(Key, Value)>, key: Key)
    requires puts != []
    ensures PutAt(before, puts, key) == PutAt(if puts[0].0 == key then Some(puts[0].1) else before, puts[1..], key)
    decreases |puts|
  {
    if |puts| > 1 {
      var front := puts[..|puts| - 1];
      PutFirst(before, front, key);
      assert front[1..] == puts[1..][..|puts| - 2];
    }
  }

  lemma {:induction false} NotPut(puts: seq<(Key, Value)>, key: Key)
    requires forall i :: 0 <= i < |puts| ==> puts[i].0 != key
    ensures FirstPut(puts, key) == None
    decreases |puts|
  {
    if puts != [] { NotPut(puts[1..], key); }
  }

  /** The epoch a record commits under is the one that the log with it replays to. */
  lemma EpochReplays(f: Format, log: seq<Entry>, e: Entry)
    requires Committable(f, e.record)
    ensures OwnerEpoch(f, log + [e]) == EpochFor(f, e.record, Replayed(log))
  {
    RecordsSnoc(log, e);
    AppliedReads(Replayed(log), e.record, f.owner);
    FirstIsLast(Lookup(Replayed(log), f.owner), e.record.puts, f.owner);
  }

  lemma NodeFramed(n: Node, f: Format, log: seq<Entry>, more: seq<Entry>)
    requires NodeOk(n, f, log) && log <= more
    ensures NodeOk(n, f, more)
  {
    assert more[..n.sequence] == log[..n.sequence];
    if n.job.Some? { assert more[..n.job.value.basis] == log[..n.job.value.basis]; }
  }

  lemma LogGrows(f: Format, log: seq<Entry>, e: Entry)
    requires (forall i: nat :: EntryAt(i, f, log)) && e.basis <= |log| && e.seen == Replayed(log[..e.basis])
    requires (e.moved <==> e.basis < |log|) && Committable(f, e.record) && Some(e.epoch) == EpochFor(f, e.record, Replayed(log))
    ensures forall i: nat :: EntryAt(i, f, log + [e])
  {
    var more := log + [e];
    EpochReplays(f, log, e);
    forall i: nat ensures EntryAt(i, f, more) {
      assert EntryAt(i, f, log);
      if i < |log| {
        assert more[..log[i].basis] == log[..log[i].basis] && more[..i + 1] == log[..i + 1];
      } else if i == |log| {
        assert more[..e.basis] == log[..e.basis] && more[..i + 1] == more;
      }
    }
  }

  lemma AppendKeeps(s: State, step: Step)
    requires Inv(s) && Enabled(s, step) && step.Append?
    ensures Inv(Apply(s, step))
  {
    assert NodeAt(step.node, s.format, s.nodes, s.log);
    if step.reply != Refused {
      WonKeeps(s, step, s.nodes[step.node], Entered(s.nodes[step.node].job.value, CommitEpoch(s.format, s.nodes[step.node]).value));
    } else {
      var t := Apply(s, step);
      forall node ensures NodeAt(node, t.format, t.nodes, t.log) {
        assert NodeAt(node, s.format, s.nodes, s.log);
      }
    }
  }

  lemma WonKeeps(s: State, step: Step, n: Node, e: Entry)
    requires Inv(s) && Enabled(s, step) && step.Append? && step.reply != Refused
    requires n == s.nodes[step.node] && NodeOk(n, s.format, s.log) && e == Entered(n.job.value, CommitEpoch(s.format, n).value)
    ensures Inv(Apply(s, step))
  {
    var t := Apply(s, step);
    assert s.log[..|s.log|] == s.log;
    LogGrows(s.format, s.log, e);
    RecordsSnoc(s.log, e);
    assert (s.log + [e])[..|s.log| + 1] == s.log + [e];
    OthersKept(s, t.log);
    forall node ensures NodeAt(node, t.format, t.nodes, t.log) {
      assert NodeAt(node, s.format, s.nodes, t.log);
    }
  }

  lemma OthersKept(s: State, more: seq<Entry>)
    requires Inv(s) && s.log <= more
    ensures forall node :: NodeAt(node, s.format, s.nodes, more)
  {
    forall node ensures NodeAt(node, s.format, s.nodes, more) {
      assert NodeAt(node, s.format, s.nodes, s.log);
      if node in s.nodes { NodeFramed(s.nodes[node], s.format, s.log, more); }
    }
  }

  lemma StepKeeps(s: State, step: Step)
    requires Inv(s) && Enabled(s, step)
    ensures Inv(Apply(s, step))
  {
    var t := Apply(s, step);
    if step.Append? {
      AppendKeeps(s, step);
    } else {
      assert s.log[..|s.log|] == s.log;
      forall node ensures NodeAt(node, t.format, t.nodes, t.log) {
        assert NodeAt(node, s.format, s.nodes, s.log);
      }
    }
  }

  lemma StepExtends(s: State, step: Step)
    requires Enabled(s, step)
    ensures s.log <= Apply(s, step).log && Apply(s, step).format == s.format
  {
  }

  predicate Runs(s: State, steps: seq<Step>)
    decreases |steps|
  {
    steps != [] ==> Enabled(s, steps[0]) && Runs(Apply(s, steps[0]), steps[1..])
  }

  function Run(s: State, steps: seq<Step>): State
    requires Runs(s, steps)
    decreases |steps|
  {
    if steps == [] then s else Run(Apply(s, steps[0]), steps[1..])
  }

  /** No step of the run synchronizes a node inside a critical section. */
  predicate Sectioned(s: State, steps: seq<Step>)
    requires Runs(s, steps)
    decreases |steps|
  {
    steps != [] ==> InSection(s, steps[0]) && Sectioned(Apply(s, steps[0]), steps[1..])
  }

  function Start(f: Format): State {
    State(f, [], map[])
  }

  lemma {:induction false} RunKeeps(s: State, steps: seq<Step>)
    requires Inv(s) && Runs(s, steps)
    ensures Inv(Run(s, steps)) && s.log <= Run(s, steps).log && Run(s, steps).format == s.format
    decreases |steps|
  {
    if steps != [] {
      StepKeeps(s, steps[0]);
      StepExtends(s, steps[0]);
      RunKeeps(Apply(s, steps[0]), steps[1..]);
    }
  }

  // ---------------------------------------------------------------------------
  // Serializability

  ghost predicate Unmoved(s: State) {
    && (forall i :: 0 <= i < |s.log| ==> !s.log[i].moved)
    && (forall node :: node in s.nodes && s.nodes[node].job.Some? ==> !s.nodes[node].job.value.moved)
  }

  lemma StepUnmoved(s: State, step: Step)
    requires Unmoved(s) && Enabled(s, step) && InSection(s, step)
    ensures Unmoved(Apply(s, step))
  {
  }

  lemma {:induction false} RunUnmoved(s: State, steps: seq<Step>)
    requires Unmoved(s) && Runs(s, steps) && Sectioned(s, steps)
    ensures Unmoved(Run(s, steps))
    decreases |steps|
  {
    if steps != [] {
      StepUnmoved(s, steps[0]);
      RunUnmoved(Apply(s, steps[0]), steps[1..]);
    }
  }

  /** Every committed transaction read exactly what the log before it replays to: log order is a serial order. */
  ghost predicate Serial(log: seq<Entry>) {
    forall i: nat :: i < |log| ==> log[i].seen == Replayed(log[..i]) && log[i].basis == i
  }

  /** Inside critical sections the log order is a serial order, through lost replies, fencing and failures. */
  lemma CriticalSectionsSerialize(f: Format, steps: seq<Step>)
    requires Runs(Start(f), steps) && Sectioned(Start(f), steps)
    ensures Serial(Run(Start(f), steps).log)
  {
    RunKeeps(Start(f), steps);
    RunUnmoved(Start(f), steps);
    var log := Run(Start(f), steps).log;
    forall i: nat | i < |log| ensures log[i].seen == Replayed(log[..i]) && log[i].basis == i {
      assert EntryAt(i, f, log);
    }
  }

  /** In general a committed record was computed from all the records before it exactly when its node did not read on in between. */
  lemma ComputedFromAllBefore(f: Format, steps: seq<Step>, i: nat)
    requires Runs(Start(f), steps) && i < |Run(Start(f), steps).log|
    ensures var log := Run(Start(f), steps).log;
            log[i].basis <= i && (log[i].basis == i <==> !log[i].moved) && log[i].seen == Replayed(log[..log[i].basis])
  {
    RunKeeps(Start(f), steps);
    assert EntryAt(i, f, Run(Start(f), steps).log);
  }

  /** Every node, at every moment, holds the replay of the first `sequence` records and appends right after them. */
  lemma NodesReplay(f: Format, steps: seq<Step>, node: Name)
    requires Runs(Start(f), steps) && node in Run(Start(f), steps).nodes
    ensures var s := Run(Start(f), steps); var n := s.nodes[node];
            n.cursor == n.sequence <= |s.log| && n.db == Replayed(s.log[..n.sequence])
  {
    RunKeeps(Start(f), steps);
    assert NodeAt(node, f, Run(Start(f), steps).nodes, Run(Start(f), steps).log);
  }

  /** Each record is journalled under the epoch in the owner record that replaying up to and including it gives. */
  lemma JournalEpochIsOwnerEpoch(f: Format, steps: seq<Step>, i: nat)
    requires Runs(Start(f), steps) && i < |Run(Start(f), steps).log|
    ensures Some(Run(Start(f), steps).log[i].epoch) == Decoded(f, Lookup(Replayed(Run(Start(f), steps).log[..i + 1]), f.owner))
  {
    RunKeeps(Start(f), steps);
    assert EntryAt(i, f, Run(Start(f), steps).log);
  }

  // ---------------------------------------------------------------------------
  // Without the section

  lemma {:induction false} Extend(s: State, steps: seq<Step>, step: Step)
    requires Runs(s, steps) && Enabled(Run(s, steps), step)
    ensures Runs(s, steps + [step]) && Run(s, steps + [step]) == Apply(Run(s, steps), step)
    ensures Sectioned(s, steps + [step]) ==> InSection(Run(s, steps), step) && Sectioned(s, steps)
    decreases |steps|
  {
    var more := steps + [step];
    if steps == [] {
      assert more[0] == step && more[1..] == [];
      assert Runs(Apply(s, step), []);
    } else {
      Extend(Apply(s, steps[0]), steps[1..], step);
      assert more[0] == steps[0] && more[1..] == steps[1..] + [step];
    }
  }

  /** Two nodes have joined, and `b` has operated on the empty log. */
  lemma BothJoin(f: Format, r: WalRecord) returns (steps: seq<Step>)
    requires Committable(f, r)
    ensures Runs(Start(f), steps)
    ensures Run(Start(f), steps) == State(f, [], map["a" := Node(map[], 0, 0, None), "b" := Node(map[], 0, 0, Some(Job(r, 0, map[], false)))])
  {
    steps := [];
    Extend(Start(f), steps, Join("a"));
    steps := steps + [Join("a")];
    Extend(Start(f), steps, Join("b"));
    steps := steps + [Join("b")];
    Extend(Start(f), steps, Operate("b", r));
    steps := steps + [Operate("b", r)];
  }

  /** `a` then operates and commits. */
  lemma OneCommits(f: Format, r: WalRecord, before: seq<Step>) returns (steps: seq<Step>)
    requires Committable(f, r) && EpochFor(f, r, map[]).Some? && Runs(Start(f), before)
    requires Run(Start(f), before) == State(f, [], map["a" := Node(map[], 0, 0, None), "b" := Node(map[], 0, 0, Some(Job(r, 0, map[], false)))])
    ensures Runs(Start(f), steps)
    ensures var s := Run(Start(f), steps);
            && s.format == f && s.log == [Entry(EpochFor(f, r, map[]).value, r, 0, map[], false)]
            && "b" in s.nodes && s.nodes["b"] == Node(map[], 0, 0, Some(Job(r, 0, map[], false)))
  {
    steps := before;
    Extend(Start(f), steps, Operate("a", r));
    steps := steps + [Operate("a", r)];
    Extend(Start(f), steps, Append("a", Won));
    steps := steps + [Append("a", Won)];
  }

  /** A record that puts the owner record commits under that epoch whatever the node holds. */
  lemma OwnEpoch(f: Format, r: WalRecord, db: Table)
    requires FirstPut(r.puts, f.owner).Some?
    ensures EpochFor(f, r, db) == EpochFor(f, r, map[])
  {
  }

  /**
   A reader's synchronization inside the section lets a transaction commit over a record it never saw: two nodes make the
   same change, the second after a reader synchronized it between operation and append.
   */
  lemma ReaderSyncLosesUpdate(f: Format, r: WalRecord) returns (steps: seq<Step>)
    requires Committable(f, r) && FirstPut(r.puts, f.owner).Some? && EpochFor(f, r, map[]).Some?
    ensures Runs(Start(f), steps) && !Sectioned(Start(f), steps)
    ensures var log := Run(Start(f), steps).log;
            |log| == 2 && log[1].record == r && log[1].basis == 0 && log[1].seen == map[] && !Serial(log)
  {
    steps := BothJoin(f, r);
    steps := OneCommits(f, r, steps);
    Extend(Start(f), steps, Sync("b"));
    steps := steps + [Sync("b")];
    OwnEpoch(f, r, Run(Start(f), steps).nodes["b"].db);
    Extend(Start(f), steps, Append("b", Won));
    steps := steps + [Append("b", Won)];
  }

  // ---------------------------------------------------------------------------
  // The node's own loops

  class Replica {
    var db: Table
    var sequence: nat

    constructor ()
      ensures Mirrors([])
    {
      db, sequence := map[], 0;
    }

    ghost predicate Mirrors(log: seq<WalRecord>)
      reads this
    {
      sequence <= |log| && db == Replay(map[], log[..sequence])
    }

    /** Applies what the journal returned after `sequence`; a record out of order is an error. */
    method SyncRemote(ghost log: seq<WalRecord>, recovered: seq<(nat, WalRecord)>) returns (ok: bool)
      requires Mirrors(log) && |recovered| == |log| - sequence
      requires forall i :: 0 <= i < |recovered| ==> recovered[i] == (sequence + 1 + i, log[sequence + i])
      modifies this
      ensures ok && Mirrors(log) && sequence == |log|
    {
      ok := true;
      for i := 0 to |recovered|
        invariant ok && Mirrors(log) && sequence == old(sequence) + i
      {
        if recovered[i].0 != sequence + 1 { ok := false; break; }
        assert log[..sequence + 1][..sequence] == log[..sequence];
        db := ApplyRecord(db, recovered[i].1);
        sequence := recovered[i].0;
      }
    }

    /** The epoch of the first put under the owner key, or else of the node's own owner record. */
    method OwnerEpochFor(f: Format, record: WalRecord) returns (epoch: Option<nat>)
      ensures epoch == EpochFor(f, record, db)
    {
      assert record.puts[0..] == record.puts;
      for i := 0 to |record.puts|
        invariant FirstPut(record.puts, f.owner) == FirstPut(record.puts[i..], f.owner)
      {
        if record.puts[i].0 == f.owner { return f.decode(record.puts[i].1); }
        assert record.puts[i..][1..] == record.puts[i + 1..];
      }
      return if f.owner in db then f.decode(db[f.owner]) else None;
    }

    /**
     Computes the epoch, appends under it, and applies its own record only if the journal put it right after what this node
     had read. `position` is the journal's answer to an append under the epoch that was sent.
     */
    method CommitShard(f: Format, ghost log: seq<WalRecord>, record: WalRecord, position: Option<nat>) returns (ok: bool, sent: Option<nat>)
      requires Mirrors(log) && sequence == |log|
      modifies this
      ensures sent == EpochFor(f, record, Replay(map[], log))
      ensures ok <==> sent.Some? && position == Some(|log| + 1)
      ensures ok ==> Mirrors(log + [record]) && sequence == |log| + 1
      ensures !ok ==> db == old(db) && sequence == old(sequence)
    {
      assert log[..|log|] == log;
      sent := OwnerEpochFor(f, record);
      if sent.None? || position.None? || position.value != sequence + 1 { return false, sent; }
      assert (log + [record])[..|log| + 1][..|log|] == log;
      assert (log + [record])[..|log| + 1] == log + [record];
      db := ApplyRecord(db, record);
      sequence := sequence + 1;
      ok := true;
    }
  }
}
