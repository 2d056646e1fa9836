/** Who may change a partition, when it changes hands, how leases are extended, and when a key may be closed. */
module ProcessOwnership {
  import opened Wrappers
  import opened ProcessShard
  import opened ProcessInvariant
  import opened ProcessSteps
  import opened ProcessPartition
  import opened ProcessRuns
  import opened ProcessTheorems
  import opened ProcessResults

  /** The runtime is the owner, active, and its time has not run out. */
  ghost predicate Holds(x: Partition, runtime: Name, now: real) {
    x.owner.Some? && x.owner.value.runtime == runtime && x.owner.value.status == Active && x.owner.value.expires > now
  }

  /** Whoever asks for the step, if it has an asker and a time. */
  ghost predicate AskedByHolder(x: Partition, step: Step) {
    match step
    case Ingress(runtime, _, _, now) => Holds(x, runtime, now)
    case Poll(runtime, _, _, _, now, _) => Holds(x, runtime, now)
    case Complete(runtime, _, _, _, _, _, now) => Holds(x, runtime, now)
    case RenewLease(runtime, _, _, _, _, now) => Holds(x, runtime, now)
    case Recover(runtime, _, _, _, now) => Holds(x, runtime, now)
    case FinalizeKey(runtime, _, now) => Holds(x, runtime, now)
    case TransferReturn(handler) => handler in x.handoffs
    case _ => false
  }

  /** Nobody but the live owner changes what a partition holds, except a transfer that has begun. */
  lemma OnlyTheHolderWrites(p: Limits, x: Partition, step: Step)
    requires GoodLimits(p) && PartitionInv(p, x) && Next(p, x, step).shard != x.shard
    ensures AskedByHolder(x, step)
  {
    if step.Poll? {
      PollNeedsHolder(p, x, step);
    } else if step.Complete? {
      CompleteNeedsHolder(p, x, step);
    } else if step.RenewLease? {
      ExtendNeedsHolder(x, step);
    } else if step.TransferBegin? || step.TransferReturn? || step.TransferFinish? {
      TransferNeedsBeginning(p, x, step);
    }
  }

  lemma PollNeedsHolder(p: Limits, x: Partition, step: Step)
    requires step.Poll?
    ensures !Holds(x, step.runtime, step.now) ==> DoPoll(p, x, step) == Ok(x)
  {
  }

  lemma CompleteNeedsHolder(p: Limits, x: Partition, step: Step)
    requires Inv(p, x.shard) && step.Complete?
    ensures !Holds(x, step.runtime, step.now) ==> DoComplete(p, x, step).Err?
  {
  }

  lemma ExtendNeedsHolder(x: Partition, step: Step)
    requires step.RenewLease?
    ensures !Holds(x, step.runtime, step.now) ==> DoRenew(x, step).Err?
  {
  }

  lemma TransferNeedsBeginning(p: Limits, x: Partition, step: Step)
    requires (step.TransferBegin? || step.TransferReturn? || step.TransferFinish?) && Inv(p, x.shard)
    ensures var r := DoTransfer(p, x, step); r.Ok? ==> r.value.shard == x.shard || (step.TransferReturn? && step.handler in x.handoffs)
  {
  }

  // ---------------------------------------------------------------------------
  // Taking a partition over

  /** The partition still belongs to a live owner elsewhere: a node of another name, or one without a name whose runtime is not this node's. */
  ghost predicate HeldElsewhere(o: Owner, node: Name, now: real) {
    o.expires > now && o.node != node && (o.node == "" ==> !(node + ":" <= o.runtime))
  }

  /** An acquisition takes a partition that has no owner, and otherwise exactly one that is neither its own already nor held elsewhere. */
  lemma AcquiresExactlyWhen(p: Limits, x: Partition, step: Step)
    requires GoodLimits(p) && PartitionInv(p, x) && step.Acquire?
    ensures var y := Next(p, x, step);
            && y.shard == x.shard
            && (x.owner.None? ==> y.owner == Some(Owner(step.runtime, step.node, 1, step.now + step.ttl, Active, 0)))
            && (x.owner.Some? ==>
                  var o := x.owner.value;
                  if Holds(x, step.runtime, step.now) || HeldElsewhere(o, step.node, step.now) then y == x
                  else
                    && y.owner.Some? && y.owner.value.runtime == step.runtime && y.owner.value.node == step.node
                    && y.owner.value.status == Active && y.owner.value.expires == step.now + step.ttl
                    && y.owner.value.nextActivation == o.nextActivation
                    && y.owner.value.epoch == if o.epoch < 0xFFFF_FFFF_FFFF_FFFF then o.epoch + 1 else o.epoch)
  {
  }

  /** A rival's attempt: an acquisition from another node while the owner's time runs. */
  ghost predicate Attempt(o: Owner, step: Step) {
    step.Acquire? && step.node != o.node && step.now < o.expires
  }

  /** While the owner's time runs, no other node takes the partition, however often it tries. */
  lemma {:induction false} NeverStolen(p: Limits, x: Partition, steps: seq<Step>)
    requires GoodLimits(p) && PartitionInv(p, x) && x.owner.Some? && x.owner.value.node != ""
    requires forall i :: 0 <= i < |steps| ==> Attempt(x.owner.value, steps[i])
    ensures Run(p, x, steps) == x
    decreases |steps|
  {
    if steps != [] {
      assert Attempt(x.owner.value, steps[0]);
      AcquiresExactlyWhen(p, x, steps[0]);
      assert forall i :: 0 <= i < |steps[1..]| ==> steps[1..][i] == steps[i + 1];
      NeverStolen(p, x, steps[1..]);
    }
  }

  /** Renewing leaves the owner more than half of its time, never takes time away, and helps no one else. */
  lemma RenewalLasts(p: Limits, x: Partition, step: Step)
    requires GoodLimits(p) && PartitionInv(p, x) && step.RenewOwner? && step.ttl > 0.0 && x.owner.Some?
    ensures var o, y := x.owner.value, Next(p, x, step);
            && y.owner.Some? && y.shard == x.shard && y.owner.value.expires >= o.expires
            && y.owner.value == o.(expires := y.owner.value.expires)
            && (o.runtime == step.runtime && o.status == Active ==>
                  y.owner.value.expires > step.now + step.ttl / 2.0 && (y.owner.value.expires == o.expires || y.owner.value.expires == step.now + step.ttl))
            && (o.runtime != step.runtime || o.status != Active ==> y == x)
  {
  }

  // ---------------------------------------------------------------------------
  // Extending a lease

  /** A lease is extended exactly for the live owner that granted it, and for a positive time. */
  lemma ExtendsExactlyWhen(p: Limits, x: Partition, step: Step)
    requires GoodLimits(p) && PartitionInv(p, x) && step.RenewLease?
    ensures Do(p, x, step).Ok? <==>
              && step.extend > 0.0 && Holds(x, step.runtime, step.now) && step.token in x.shard.leases
              && x.shard.leases[step.token].epoch == x.owner.value.epoch
              && step.epoch == x.shard.leases[step.token].epoch && step.activation == x.shard.leases[step.token].activation
  {
  }

  /** An extended lease lasts as long as was asked, or as it did before if that is longer, but no ask reaches beyond five minutes; nothing else changes. */
  lemma ExtendedLease(p: Limits, x: Partition, step: Step, y: Partition)
    requires GoodLimits(p) && PartitionInv(p, x) && step.RenewLease? && Do(p, x, step) == Ok(y)
    ensures step.token in x.shard.leases && step.token in y.shard.leases
    ensures var was, lease := x.shard.leases[step.token], y.shard.leases[step.token];
            && lease == was.(expires := lease.expires) && lease.expires >= was.expires
            && (step.extend <= 300.0 ==> lease.expires >= step.now + step.extend)
            && (step.extend > 300.0 ==> lease.expires >= step.now + 300.0)
            && (lease.expires == was.expires || lease.expires == step.now + 300.0 < step.now + step.extend || lease.expires == step.now + step.extend <= step.now + 300.0)
            && y == x.(shard := x.shard.(leases := x.shard.leases[step.token := lease]))
  {
  }

  // ---------------------------------------------------------------------------
  // Transfers

  /** A transfer begins exactly for the active owner at its own epoch, which then grants no more; the shard is not touched. */
  lemma BeginsExactlyWhen(p: Limits, x: Partition, step: Step)
    requires GoodLimits(p) && PartitionInv(p, x) && step.TransferBegin?
    ensures var r := Do(p, x, step);
            && (r.Ok? <==> x.owner.Some? && x.owner.value.runtime == step.runtime && x.owner.value.epoch == step.epoch
                             && x.owner.value.status == Active && step.handler !in x.handoffs)
            && (r.Ok? ==>
                  && r.value.shard == x.shard && step.handler in r.value.handoffs && r.value.handoffs[step.handler] == Handoff(step.epoch, false)
                  && r.value.owner == Some(x.owner.value.(status := Draining, expires := step.now + step.ttl)))
  {
  }

  /** A transfer ends exactly after its leases were returned, while the same owner still drains at the same epoch. */
  lemma EndsExactlyWhen(p: Limits, x: Partition, step: Step)
    requires GoodLimits(p) && PartitionInv(p, x) && step.TransferFinish?
    ensures Do(p, x, step).Ok? <==>
              && step.handler in x.handoffs && x.handoffs[step.handler].returned && x.owner.Some?
              && x.owner.value.runtime == step.runtime && x.owner.value.epoch == x.handoffs[step.handler].epoch && x.owner.value.status == Draining
  {
  }

  lemma {:induction false} RunOn(p: Limits, x: Partition, steps: seq<Step>)
    requires GoodLimits(p) && PartitionInv(p, x) && steps != []
    ensures PartitionInv(p, Next(p, x, steps[0])) && Run(p, x, steps) == Run(p, Next(p, x, steps[0]), steps[1..])
  {
    NextOk(p, x, steps[0]);
  }

  /** The first two commits: the owner drains, and nothing is leased any more. */
  lemma Drains(p: Limits, x: Partition, begin: Step, back: Step) returns (y: Partition)
    requires GoodLimits(p) && PartitionInv(p, x) && begin.TransferBegin? && Do(p, x, begin).Ok?
    requires back == TransferReturn(begin.handler)
    ensures PartitionInv(p, Next(p, x, begin)) && y == Next(p, Next(p, x, begin), back) && PartitionInv(p, y)
    ensures x.owner.Some? && y.owner == Some(x.owner.value.(status := Draining, expires := begin.now + begin.ttl)) && y.shard.leases == map[]
    ensures begin.handler in y.handoffs && y.handoffs[begin.handler] == Handoff(begin.epoch, true)
    ensures y.owner.value.runtime == begin.runtime && y.owner.value.epoch == begin.epoch
  {
    NextOk(p, x, begin);
    BeginsExactlyWhen(p, x, begin);
    var drained := Next(p, x, begin);
    NextOk(p, drained, back);
    y := Next(p, drained, back);
    ReturnEverything(p, drained.shard);
  }

  /**
   A transfer that no one interferes with goes through: the active owner begins it, the leases are returned, the partition is
   assigned to a node, and a runtime of that node takes it over at once, two epochs on, with nothing leased and the
   activation numbers going on where they stood.
   */
  lemma TransferGoesThrough(p: Limits, x: Partition, begin: Step, end: Step, take: Step)
    requires GoodLimits(p) && PartitionInv(p, x) && begin.TransferBegin? && end.TransferFinish? && take.Acquire?
    requires Do(p, x, begin).Ok? && x.owner.Some? && x.owner.value.epoch < 0xFFFF_FFFF_FFFF_FFFE
    requires end.handler == begin.handler && end.runtime == begin.runtime && take.node == end.node
    ensures var y := Run(p, x, [begin, TransferReturn(begin.handler), end, take]);
            && y.shard.leases == map[]
            && y.owner == Some(Owner(take.runtime, take.node, x.owner.value.epoch + 2, take.now + take.ttl, Active, x.owner.value.nextActivation))
  {
    var back := TransferReturn(begin.handler);
    var y := Drains(p, x, begin, back);
    FirstTwo(p, x, begin, back, end, take, y);
    MayEnd(p, y, begin, end);
    Arrives(p, y, end, take);
  }

  lemma FirstTwo(p: Limits, x: Partition, begin: Step, back: Step, end: Step, take: Step, y: Partition)
    requires GoodLimits(p) && PartitionInv(p, x) && PartitionInv(p, Next(p, x, begin)) && y == Next(p, Next(p, x, begin), back) && PartitionInv(p, y)
    ensures Run(p, x, [begin, back, end, take]) == Run(p, y, [end, take])
  {
    RunTwo(p, x, begin, back, [end, take]);
    assert [begin, back] + [end, take] == [begin, back, end, take];
  }

  lemma MayEnd(p: Limits, y: Partition, begin: Step, end: Step)
    requires GoodLimits(p) && PartitionInv(p, y) && begin.TransferBegin? && end.TransferFinish?
    requires end.handler == begin.handler && end.runtime == begin.runtime
    requires begin.handler in y.handoffs && y.handoffs[begin.handler] == Handoff(begin.epoch, true)
    requires y.owner.Some? && y.owner.value.status == Draining && y.owner.value.runtime == begin.runtime && y.owner.value.epoch == begin.epoch
    ensures Do(p, y, end).Ok?
  {
    EndsExactlyWhen(p, y, end);
  }

  lemma RunTwo(p: Limits, x: Partition, a: Step, b: Step, rest: seq<Step>)
    requires GoodLimits(p) && PartitionInv(p, x)
    ensures PartitionInv(p, Next(p, x, a)) && PartitionInv(p, Next(p, Next(p, x, a), b))
    ensures Run(p, x, [a, b] + rest) == Run(p, Next(p, Next(p, x, a), b), rest)
  {
    var steps := [a, b] + rest;
    RunOn(p, x, steps);
    assert steps[1..][0] == b && steps[1..][1..] == rest;
    RunOn(p, Next(p, x, a), steps[1..]);
    NextOk(p, Next(p, x, a), b);
  }

  /** The last commit assigns the partition to a node, and a runtime there takes it. */
  lemma Arrives(p: Limits, y: Partition, end: Step, take: Step)
    requires GoodLimits(p) && PartitionInv(p, y) && end.TransferFinish? && take.Acquire? && take.node == end.node
    requires Do(p, y, end).Ok? && y.owner.Some? && y.owner.value.epoch < 0xFFFF_FFFF_FFFF_FFFE
    ensures var z := Run(p, y, [end, take]);
            && z.shard == y.shard
            && z.owner == Some(Owner(take.runtime, take.node, y.owner.value.epoch + 2, take.now + take.ttl, Active, y.owner.value.nextActivation))
  {
    RunTwo(p, y, end, take, []);
    assert [end, take] + [] == [end, take];
    Assigned(p, y, end);
    AcquiresExactlyWhen(p, Next(p, y, end), take);
  }

  lemma Assigned(p: Limits, x: Partition, step: Step)
    requires GoodLimits(p) && PartitionInv(p, x) && step.TransferFinish? && Do(p, x, step).Ok? && x.owner.Some? && x.owner.value.epoch < 0xFFFF_FFFF_FFFF_FFFF
    ensures var y := Next(p, x, step);
            && y.shard == x.shard && y.owner.Some? && y.owner.value.node == step.node && y.owner.value.status == Restoring
            && y.owner.value.epoch == x.owner.value.epoch + 1 && y.owner.value.nextActivation == x.owner.value.nextActivation
  {
  }

  // ---------------------------------------------------------------------------
  // Closing a key

  /** Every event admitted for the key has its final outcome. */
  ghost predicate AllSettled(s: Shard, key: Name) {
    forall id :: id in s.dedup && id.0 == key ==> id in s.outcomes && s.outcomes[id].status != Pending
  }

  lemma MailPends(p: Limits, s: Shard, n: nat)
    requires Inv(p, s) && n in s.mailbox
    ensures var id := IdOf(s.mailbox[n]); id in s.dedup && id.0 == s.mailbox[n].key && id in s.outcomes && s.outcomes[id].status == Pending
  {
    assert MailItemOk(n, s.mailbox, s.dedup, s.outcomes);
  }

  lemma LivePends(p: Limits, s: Shard, key: Name)
    requires Inv(p, s) && key in s.activeKeys
    ensures exists id :: id in s.dedup && id.0 == key && id in s.outcomes && s.outcomes[id].status == Pending
  {
    var live := Live(s.ready, s.leased);
    assert KeyOk(key, live, s.activeKeys);
    var n :| n in live && live[n].record.key == key;
    assert LiveAt(p, n, live, s.dedup, s.outcomes, s.states);
    assert IdOf(live[n].record) in s.dedup;
  }

  /** A key is quiet exactly if each of its admitted events is settled. */
  lemma QuietExactlyWhen(p: Limits, s: Shard, key: Name)
    requires Inv(p, s)
    ensures KeyQuiet(s, key) <==> AllSettled(s, key)
  {
    if AllSettled(s, key) {
      if key in s.activeKeys { LivePends(p, s, key); }
      forall n | n in s.mailbox ensures s.mailbox[n].key != key { MailPends(p, s, n); }
    }
    if KeyQuiet(s, key) {
      forall id | id in s.dedup && id.0 == key ensures id in s.outcomes && s.outcomes[id].status != Pending {
        QuietSettles(p, s, key, id);
      }
    }
  }

  lemma IdleNotLive(live: Work, active: set<Name>, key: Name, n: nat)
    requires ActiveOk(live, active) && key !in active && n in live
    ensures live[n].record.key != key
  {
    assert KeyOk(key, live, active);
  }

  lemma QuietSettles(p: Limits, s: Shard, key: Name, id: EventKey)
    requires Inv(p, s) && KeyQuiet(s, key) && id in s.dedup && id.0 == key
    ensures id in s.outcomes && s.outcomes[id].status != Pending
  {
    var live, n := Live(s.ready, s.leased), s.dedup[id].sequence;
    OutcomeByPlace(p, s, id);
    assert EntryOk(id, s.nextSequence, s.dedup, s.outcomes);
    if n in s.mailbox {
      assert MailItemOk(n, s.mailbox, s.dedup, s.outcomes);
      SameEvent(s.nextSequence, s.dedup, s.outcomes, s.mailbox[n], id);
    } else if n in live {
      assert LiveAt(p, n, live, s.dedup, s.outcomes, s.states);
      SameEvent(s.nextSequence, s.dedup, s.outcomes, live[n].record, id);
      IdleNotLive(live, s.activeKeys, key, n);
    } else if n !in s.quarantine {
      var i :| CommittedBy(s, id, i);
      assert CommittedAt(p, i, s.history, s.dedup, s.outcomes, s.outputs);
    }
  }

  /** A key may be closed, by the live owner, exactly if it is closed already or each of its admitted events has its final outcome. */
  lemma ClosesExactlyWhen(p: Limits, x: Partition, step: Step)
    requires GoodLimits(p) && PartitionInv(p, x) && step.FinalizeKey?
    ensures var r := Do(p, x, step);
            && (r.Ok? <==> Holds(x, step.runtime, step.now) && step.key != "" && (step.key in x.shard.finalized || AllSettled(x.shard, step.key)))
            && (r.Ok? ==> r.value == x.(shard := x.shard.(finalized := x.shard.finalized + {step.key})))
  {
    QuietExactlyWhen(p, x.shard, step.key);
    if step.key in x.shard.finalized {
      assert x.shard.finalized + {step.key} == x.shard.finalized;
    }
  }
}
