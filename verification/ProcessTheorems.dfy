/** Safety of a process partition over whole runs. */
module ProcessTheorems {
  import opened Wrappers
  import opened ProcessShard
  import opened ProcessInvariant
  import opened ProcessFinish
  import opened ProcessSteps
  import opened ProcessGrowth
  import opened ProcessPartition
  import opened ProcessRuns
  import JournalLog

  /** A transaction that faults changes nothing. */
  function Next(p: Limits, x: Partition, step: Step): Partition
    requires GoodLimits(p) && PartitionInv(p, x)
  {
    match Do(p, x, step)
    case Ok(y) => y
    case Err(_) => x
  }

  lemma NextOk(p: Limits, x: Partition, step: Step)
    requires GoodLimits(p) && PartitionInv(p, x)
    ensures StepOk(p, x, Next(p, x, step))
  {
    if Do(p, x, step).Ok? {
      DoOk(p, x, step, Next(p, x, step));
    } else {
      OnlyOwner(p, x, x.owner);
    }
  }

  /** The partition after a run; the invariant holds all along it. */
  ghost function Run(p: Limits, x: Partition, steps: seq<Step>): (y: Partition)
    requires GoodLimits(p) && PartitionInv(p, x)
    ensures PartitionInv(p, y)
    decreases |steps|
  {
    if steps == [] then x
    else
      NextOk(p, x, steps[0]);
      Run(p, Next(p, x, steps[0]), steps[1..])
  }

  /** A run takes nothing back: admissions, terminal outcomes, transitions, messages, finality, epochs and consumed leases. */
  lemma {:induction false} RunForward(p: Limits, x: Partition, steps: seq<Step>)
    requires GoodLimits(p) && PartitionInv(p, x)
    ensures Forward(x, Run(p, x, steps))
    decreases |steps|
  {
    if steps == [] {
      ForwardHere(x);
    } else {
      NextOk(p, x, steps[0]);
      RunForward(p, Next(p, x, steps[0]), steps[1..]);
      ForwardOn(x, Next(p, x, steps[0]), Run(p, x, steps));
    }
  }

  // ---------------------------------------------------------------------------
  // One admission, one terminal outcome

  /** Once admitted an event keeps its record and number for ever; once terminal it keeps its outcome and its message. */
  lemma OutcomesAreFinal(p: Limits, x: Partition, steps: seq<Step>, id: EventKey)
    requires GoodLimits(p) && PartitionInv(p, x) && id in x.shard.dedup
    ensures var y := Run(p, x, steps);
            && id in y.shard.dedup && y.shard.dedup[id] == x.shard.dedup[id]
            && id in x.shard.outcomes && id in y.shard.outcomes
            && (x.shard.outcomes[id].status != Pending ==> y.shard.outcomes[id] == x.shard.outcomes[id])
            && (x.shard.dedup[id].sequence in x.shard.outputs ==>
                  Find(y.shard.outputs, x.shard.dedup[id].sequence) == Find(x.shard.outputs, x.shard.dedup[id].sequence))
  {
    RunForward(p, x, steps);
    var y := Run(p, x, steps);
    assert EntryOk(id, x.shard.nextSequence, x.shard.dedup, x.shard.outcomes);
    assert EntryKept(id, x.shard.dedup, y.shard.dedup) && OutcomeKept(id, x.shard.outcomes, y.shard.outcomes);
    assert MessageKept(x.shard.dedup[id].sequence, x.shard.outputs, y.shard.outputs);
  }

  /** The one transition of a committed event. */
  ghost predicate CommittedBy(s: Shard, id: EventKey, i: nat) {
    i < |s.history| && IdOf(s.history[i].record) == id
  }

  lemma SameEvent(next: nat, dedup: Ledger, outcomes: Outcomes, r: Record, id: EventKey)
    requires LedgerOk(next, dedup, outcomes) && Known(dedup, r) && id in dedup && dedup[id].sequence == r.sequence
    ensures IdOf(r) == id
  {
    assert Apart(IdOf(r), id, dedup);
  }

  /** Where an admitted event is decides its outcome, and every admitted event is in exactly one place. */
  lemma OutcomeByPlace(p: Limits, s: Shard, id: EventKey)
    requires Inv(p, s) && id in s.dedup
    ensures var n := s.dedup[id].sequence; var o := Find(s.outcomes, id);
            && (n in s.mailbox ==> o == Some(Outcome(n, Pending, 0, [])))
            && (n in Live(s.ready, s.leased) ==> o == Some(Outcome(n, Pending, Live(s.ready, s.leased)[n].attempt, [])) && Live(s.ready, s.leased)[n].attempt < p.maxAttempts)
            && (n in s.quarantine ==> o == Some(Outcome(n, Failed, p.maxAttempts, [])))
            && (n !in s.mailbox && n !in Live(s.ready, s.leased) && n !in s.quarantine ==> exists i: nat :: CommittedBy(s, id, i))
  {
    var n := s.dedup[id].sequence;
    var live := Live(s.ready, s.leased);
    assert EntryOk(id, s.nextSequence, s.dedup, s.outcomes);
    assert PlaceOk(n, s.nextSequence, s.mailbox.Keys, s.ready.Keys, s.leased.Keys, s.quarantine.Keys, Done(s.history));
    if n in s.mailbox {
      assert MailItemOk(n, s.mailbox, s.dedup, s.outcomes);
      SameEvent(s.nextSequence, s.dedup, s.outcomes, s.mailbox[n], id);
    } else if n in live {
      assert LiveAt(p, n, live, s.dedup, s.outcomes, s.states);
      SameEvent(s.nextSequence, s.dedup, s.outcomes, live[n].record, id);
    } else if n in s.quarantine {
      assert FailedAt(p, n, s.quarantine, s.dedup, s.outcomes);
      SameEvent(s.nextSequence, s.dedup, s.outcomes, s.quarantine[n], id);
    } else {
      var i :| 0 <= i < |s.history| && s.history[i].record.sequence == n;
      assert CommittedAt(p, i, s.history, s.dedup, s.outcomes, s.outputs);
      SameEvent(s.nextSequence, s.dedup, s.outcomes, s.history[i].record, id);
      assert CommittedBy(s, id, i);
    }
  }

  /** As many numbers as transitions: each transition has its own. */
  lemma {:induction false} NumbersDiffer(history: seq<Transition>, i: nat, j: nat)
    requires |Done(history)| == |history| && i < j < |history|
    ensures history[i].record.sequence != history[j].record.sequence
    decreases |history|
  {
    var front, last := history[..|history| - 1], history[|history| - 1];
    assert history == front + [last];
    DoneAppended(front, last);
    DoneAtMost(front);
    if j < |front| {
      NumbersDiffer(front, i, j);
    } else {
      assert front[i].record.sequence in Done(front);
    }
  }

  lemma EventsDiffer(p: Limits, history: seq<Transition>, dedup: Ledger, outcomes: Outcomes, outputs: map<nat, Message>, i: nat, j: nat)
    requires DoneOk(p, history, dedup, outcomes, outputs) && i < j < |history|
    ensures history[i].record.sequence != history[j].record.sequence
    ensures IdOf(history[i].record) != IdOf(history[j].record)
  {
    NumbersDiffer(history, i, j);
    assert CommittedAt(p, i, history, dedup, outcomes, outputs) && CommittedAt(p, j, history, dedup, outcomes, outputs);
  }

  /** No event is committed twice: two places of the committed history hold different events. */
  lemma CommittedOnce(p: Limits, x: Partition, i: nat, j: nat)
    requires PartitionInv(p, x) && i < j < |x.shard.history|
    ensures x.shard.history[i].record.sequence != x.shard.history[j].record.sequence
    ensures IdOf(x.shard.history[i].record) != IdOf(x.shard.history[j].record)
  {
    var s := x.shard;
    EventsDiffer(p, s.history, s.dedup, s.outcomes, s.outputs, i, j);
  }

  lemma {:induction false} DoneAtMost(history: seq<Transition>)
    ensures |Done(history)| <= |history|
  {
    if history != [] {
      var front := history[..|history| - 1];
      assert history == front + [history[|history| - 1]];
      DoneAppended(front, history[|history| - 1]);
      DoneAtMost(front);
    }
  }

  /** An event fails exactly when its attempts are used up, and otherwise has charged fewer. */
  lemma FailsWhenSpent(p: Limits, x: Partition, id: EventKey)
    requires GoodLimits(p) && PartitionInv(p, x) && id in x.shard.dedup
    ensures id in x.shard.outcomes
    ensures var o := x.shard.outcomes[id];
            o.attempts <= p.maxAttempts && (o.status == Failed <==> o.attempts == p.maxAttempts)
  {
    var s := x.shard;
    OutcomeByPlace(p, s, id);
    assert EntryOk(id, s.nextSequence, s.dedup, s.outcomes);
    var n := s.dedup[id].sequence;
    if n !in s.mailbox && n !in Live(s.ready, s.leased) && n !in s.quarantine {
      var i :| CommittedBy(s, id, i);
      assert CommittedAt(p, i, s.history, s.dedup, s.outcomes, s.outputs);
    }
  }

  /** A committed event has sent one message exactly if its transition emitted; any other event has sent none. */
  lemma OneMessagePerEmit(p: Limits, x: Partition, id: EventKey)
    requires PartitionInv(p, x) && id in x.shard.dedup
    ensures var s := x.shard; var n := s.dedup[id].sequence;
            n in s.outputs <==> exists i: nat :: CommittedBy(s, id, i) && s.history[i].emit.Some?
    ensures var s := x.shard;
            forall i: nat :: CommittedBy(s, id, i) && s.history[i].emit.Some? ==>
              Find(s.outputs, s.dedup[id].sequence) == Some(Message(id.0, id.1, s.dedup[id].sequence, s.history[i].emit.value))
  {
    var s := x.shard;
    var n := s.dedup[id].sequence;
    assert EntryOk(id, s.nextSequence, s.dedup, s.outcomes);
    forall i: nat | CommittedBy(s, id, i)
      ensures s.history[i].record == s.dedup[id] && Find(s.outputs, n) == Emitted(s.history[i].record, s.history[i].emit)
    {
      assert CommittedAt(p, i, s.history, s.dedup, s.outcomes, s.outputs);
    }
    if n in s.outputs {
      assert n in Done(s.history);
      var i :| 0 <= i < |s.history| && s.history[i].record.sequence == n;
      assert CommittedAt(p, i, s.history, s.dedup, s.outcomes, s.outputs);
      SameEvent(s.nextSequence, s.dedup, s.outcomes, s.history[i].record, id);
      assert CommittedBy(s, id, i);
    }
  }

  // ---------------------------------------------------------------------------
  // No lost update

  /** Every accepted transition is what the handler computes from the state it was given. */
  ghost predicate Honest(history: seq<Transition>, handler: (Option<StateValue>, Record) -> StateValue) {
    forall i :: 0 <= i < |history| ==> history[i].next == handler(history[i].prior, history[i].record)
  }

  /** The handler folded over one key's committed events, in commit order. */
  function Folded(history: seq<Transition>, key: Name, handler: (Option<StateValue>, Record) -> StateValue): Option<StateValue> {
    if history == [] then None
    else
      var before := Folded(history[..|history| - 1], key, handler);
      var r := history[|history| - 1].record;
      if r.key == key then Some(handler(before, r)) else before
  }

  lemma {:induction false} FoldedState(history: seq<Transition>, key: Name, handler: (Option<StateValue>, Record) -> StateValue)
    requires (forall i: nat :: Continues(i, history)) && Honest(history, handler)
    ensures StateAfter(history, key) == Folded(history, key, handler)
    decreases |history|
  {
    if history != [] {
      var last := |history| - 1;
      var front := history[..last];
      forall i: nat ensures Continues(i, front) {
        assert Continues(i, history);
        if i < |front| { assert front[..i] == history[..i]; }
      }
      FoldedState(front, key, handler);
      assert Continues(last, history);
    }
  }

  /** Through retries, expiry, recovery and handoff a key's state is the handler folded over its committed events. */
  lemma NoLostUpdate(p: Limits, x: Partition, key: Name, handler: (Option<StateValue>, Record) -> StateValue)
    requires PartitionInv(p, x) && Honest(x.shard.history, handler)
    ensures Find(x.shard.states, key) == Folded(x.shard.history, key, handler)
  {
    FoldedState(x.shard.history, key, handler);
    assert Find(x.shard.states, key) == StateAfter(x.shard.history, key);
  }

  /** Two live executions never share a key, and a live execution starts from its key's committed state. */
  lemma OneExecutionPerKey(p: Limits, x: Partition, a: nat, b: nat)
    requires PartitionInv(p, x) && a in Live(x.shard.ready, x.shard.leased) && b in Live(x.shard.ready, x.shard.leased)
    ensures var live := Live(x.shard.ready, x.shard.leased);
            && live[a].prior == Find(x.shard.states, live[a].record.key)
            && (live[a].record.key == live[b].record.key ==> a == b)
  {
    var live := Live(x.shard.ready, x.shard.leased);
    assert LiveAt(p, a, live, x.shard.dedup, x.shard.outcomes, x.shard.states);
    assert OnePerKey(a, b, live);
  }

  // ---------------------------------------------------------------------------
  // Fencing

  /** Once a later epoch exists, no completion or renewal under an earlier one is ever accepted again. */
  lemma FencedForever(p: Limits, x: Partition, steps: seq<Step>, step: Step)
    requires GoodLimits(p) && PartitionInv(p, x) && x.owner.Some?
    requires step.Complete? || step.RenewLease?
    requires step.epoch < x.owner.value.epoch
    ensures Do(p, Run(p, x, steps), step).Err?
  {
    RunForward(p, x, steps);
  }

  /** A lease that was consumed is never honoured again. */
  lemma ConsumedForever(p: Limits, x: Partition, steps: seq<Step>, step: Step)
    requires GoodLimits(p) && PartitionInv(p, x)
    requires step.Complete? || step.RenewLease?
    requires Consumed(step.token, x)
    ensures Do(p, Run(p, x, steps), step).Err?
  {
    RunForward(p, x, steps);
    assert TokenKept(step.token, x, Run(p, x, steps));
  }

  /** A completion consumes its lease, so repeating it is refused for ever. */
  lemma CompletesOnce(p: Limits, x: Partition, steps: seq<Step>, step: Step)
    requires GoodLimits(p) && PartitionInv(p, x) && step.Complete? && Do(p, x, step).Ok?
    ensures PartitionInv(p, Next(p, x, step)) && Do(p, Run(p, Next(p, x, step), steps), step).Err?
  {
    NextOk(p, x, step);
    LeaseIsStored(p, x.shard, step.token);
    CompleteLeases(p, x.shard, step.token, step.items, step.build, step.now);
    assert LeaseIssued(step.token, x.shard.leases, x.issued, x.used);
    ConsumedForever(p, Next(p, x, step), steps, step);
  }

  /** Handed-out pairs of epoch and activation strictly increase over a run, also across owners. */
  lemma PairsIncrease(p: Limits, x: Partition, steps: seq<Step>, i: nat, j: nat)
    requires GoodLimits(p) && PartitionInv(p, x) && i < j < |Run(p, x, steps).issued|
    ensures x.issued <= Run(p, x, steps).issued
    ensures Before(Run(p, x, steps).issued[i], Run(p, x, steps).issued[j])
  {
    RunForward(p, x, steps);
  }

  function EpochOf(owner: Option<Owner>): nat {
    if owner.Some? then owner.value.epoch else 0
  }

  lemma FirstEpoch(p: Limits, x: Partition, step: Step)
    requires GoodLimits(p) && PartitionInv(p, x) && x.owner.None?
    ensures JournalLog.EpochStep(0, EpochOf(Next(p, x, step).owner))
  {
  }

  /** Each transaction moves the owner epoch the way the partition's journal admits. */
  lemma EpochsFitTheJournal(p: Limits, x: Partition, step: Step)
    requires GoodLimits(p) && PartitionInv(p, x)
    ensures JournalLog.EpochStep(EpochOf(x.owner), EpochOf(Next(p, x, step).owner))
  {
    if x.owner.None? {
      FirstEpoch(p, x, step);
    } else {
      NextOk(p, x, step);
    }
  }

  // ---------------------------------------------------------------------------
  // Transfer and finality

  /** After any run, when a transfer's last commit succeeds no lease of the partition is left. */
  lemma TransferLeavesNothing(p: Limits, x: Partition, steps: seq<Step>, step: Step)
    requires GoodLimits(p) && PartitionInv(p, x) && step.TransferFinish?
    requires var y := Run(p, x, steps); Do(p, y, step).Ok? && EpochOf(y.owner) < JournalLog.U64_MAX
    ensures Do(p, Run(p, x, steps), step).value.shard.leases == map[]
    ensures Do(p, Run(p, x, steps), step).value.shard.leased == map[]
  {
    var y := Run(p, x, steps);
    FinishLeavesNoLease(p, y, step);
    forall n ensures n !in y.shard.leased {
      assert GrantOk(n, y.shard.leased, y.shard.leases);
    }
    assert y.shard.leased == map[];
  }

  /** A finalized key keeps its state for ever. */
  lemma FinalizedForever(p: Limits, x: Partition, steps: seq<Step>, key: Name)
    requires GoodLimits(p) && PartitionInv(p, x) && key in x.shard.finalized
    ensures var y := Run(p, x, steps);
            && key in y.shard.finalized && Find(y.shard.states, key) == Find(x.shard.states, key)
            && key !in y.shard.activeKeys && forall n :: n in y.shard.mailbox ==> y.shard.mailbox[n].key != key
  {
    RunForward(p, x, steps);
    var y := Run(p, x, steps);
    assert StateKept(key, x.shard.finalized, x.shard.states, y.shard.states);
    assert IdleKey(key, y.shard.finalized, y.shard.activeKeys);
    forall n | n in y.shard.mailbox ensures y.shard.mailbox[n].key != key {
      assert IdleMail(n, y.shard.finalized, y.shard.mailbox);
    }
  }

  // ---------------------------------------------------------------------------
  // Conservation

  /** Every admitted event is counted once, and the running work stays within the limits. */
  ghost predicate Counted(p: Limits, s: Shard) {
    && s.nextSequence == s.pending + s.running + s.retryPending + s.retryRunning + s.completed + s.failed
    && s.pending == |s.mailbox| && s.running == |Fresh(s.ready)| + |Fresh(Held(s.leased))|
    && s.retryPending == |Retries(s.ready)| && s.retryRunning == |Retries(Held(s.leased))|
    && s.completed == |s.history| && s.failed == |s.quarantine|
    && s.running <= p.concurrency && s.retryRunning <= p.retryConcurrency && Total(s) <= p.capacity
  }

  lemma InvCounts(p: Limits, s: Shard)
    requires Inv(p, s)
    ensures Counted(p, s)
  {
  }

  lemma EveryEventCounted(p: Limits, steps: seq<Step>)
    requires GoodLimits(p)
    ensures PartitionInv(p, UNASSIGNED) && Counted(p, Run(p, UNASSIGNED, steps).shard)
  {
    UnassignedHolds(p);
    InvCounts(p, Run(p, UNASSIGNED, steps).shard);
  }

  lemma {:induction false} AdmitBatchesRefuse(p: Limits, s: Shard, batches: seq<seq<Request>>, build: Name, now: real)
    requires GoodLimits(p) && Inv(p, s)
    ensures AdmitBatches(p, s, batches, build, now) != Err(OutcomeConflict)
    ensures AdmitBatches(p, s, batches, build, now) != Err(OutputCollision)
    decreases |batches|
  {
    if batches != [] {
      AdmitKeeps(p, s, batches[0], build, now);
      AdmitNoCollision(p, s, batches[0], build, now);
      if Admit(p, s, batches[0], build, now).Ok? {
        AdmitBatchesRefuse(p, Admit(p, s, batches[0], build, now).value, batches[1..], build, now);
      }
    }
  }

  lemma {:induction false} AdmitAllNoCollision(p: Limits, s: Shard, requests: seq<Request>, build: Name, now: real)
    ensures AdmitAll(p, s, requests, build, now) != Err(OutputCollision)
    decreases |requests|
  {
    if requests != [] {
      AdmitAllNoCollision(p, s, requests[..|requests| - 1], build, now);
    }
  }

  lemma AdmitNoCollision(p: Limits, s: Shard, requests: seq<Request>, build: Name, now: real)
    ensures Admit(p, s, requests, build, now) != Err(OutputCollision)
  {
    AdmitAllNoCollision(p, s, requests, build, now);
  }

  ghost predicate NoConflict(r: Result<Shard, Refusal>) {
    r != Err(OutcomeConflict) && r != Err(OutputCollision)
  }

  lemma LeaseNeverConflicts(p: Limits, s: Shard, token: Name, items: seq<Item>, build: Name, now: real)
    requires Inv(p, s) && token in s.leases
    ensures LeaseStored(s, token) && NoConflict(CompleteLease(p, s, token, items, build, now))
  {
    LeaseIsStored(p, s, token);
    if |items| == |s.leases[token].members| {
      FinishAllKeeps(p, s, token, items, now);
    }
  }

  lemma CompleteNeverConflicts(p: Limits, x: Partition, step: Step)
    requires Inv(p, x.shard) && step.Complete?
    ensures DoComplete(p, x, step) != Err(Rejected(OutcomeConflict)) && DoComplete(p, x, step) != Err(Rejected(OutputCollision))
  {
    if step.token in x.shard.leases {
      LeaseNeverConflicts(p, x.shard, step.token, step.items, step.build, step.now);
    }
  }

  ghost predicate Harmless(result: Result<Partition, Fault>) {
    result != Err(Rejected(OutcomeConflict)) && result != Err(Rejected(OutputCollision))
  }

  lemma PollHarmless(p: Limits, x: Partition, step: Step)
    requires step.Poll?
    ensures Harmless(DoPoll(p, x, step))
  {
  }

  lemma RenewHarmless(x: Partition, step: Step)
    requires step.RenewLease?
    ensures Harmless(DoRenew(x, step))
  {
  }

  lemma TransferHarmless(p: Limits, x: Partition, step: Step)
    requires (step.TransferBegin? || step.TransferReturn? || step.TransferFinish?) && Inv(p, x.shard)
    ensures Harmless(DoTransfer(p, x, step))
  {
  }

  /** No transaction ever meets an outcome or a message of another event. */
  lemma NeverConflicts(p: Limits, x: Partition, step: Step)
    requires GoodLimits(p) && PartitionInv(p, x)
    ensures Harmless(Do(p, x, step))
  {
    if step.Ingress? {
      AdmitBatchesRefuse(p, x.shard, step.batches, step.build, step.now);
    } else if step.Complete? {
      CompleteNeverConflicts(p, x, step);
    } else if step.Poll? {
      PollHarmless(p, x, step);
    } else if step.RenewLease? {
      RenewHarmless(x, step);
    } else if step.TransferBegin? || step.TransferReturn? || step.TransferFinish? {
      TransferHarmless(p, x, step);
    } else {
    }
  }
}
