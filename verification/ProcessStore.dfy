/** The durable partition: every operation runs in a transaction that is committed whole or dropped. */
module ProcessStore {
  import opened Wrappers
  import opened Sequences
  import opened ProcessShard
  import opened ProcessInvariant
  import opened ProcessSteps
  import opened ProcessPartition
  import opened ProcessRuns
  import opened ProcessWork
  import JournalLog
  import Keys

  /** A method's answer and the partition it leaves are those of the transaction; a fault leaves everything as it was. */
  ghost predicate Follows<T>(spec: Result<Partition, Fault>, r: Result<T, Fault>, before: Partition, after: Partition) {
    match spec
    case Ok(y) => r.Ok? && after == y
    case Err(e) => r == Err(e) && after == before
  }

  /** What an owned poll with something to grant does. */
  function NextGrant(p: Limits, x: Partition, step: Step, expires: real): Result<Partition, Fault>
    requires step.Poll? && x.owner.Some?
  {
    if x.owner.value.nextActivation >= JournalLog.U64_MAX then Err(Spent)
    else
      var o := Bumped(x.owner.value);
      var selected := Selected(p, x.shard, step.builds, step.now);
      SelectedSound(p, x.shard, step.builds, step.now);
      if selected == [] then Ok(x.(owner := Some(o)))
      else Ok(Polled(x, o, step.token, Granted(x.shard, step.token, o.epoch, o.nextActivation, expires, selected)))
  }

  lemma PollGrantsNext(p: Limits, x: Partition, step: Step, expires: real, candidates: nat)
    requires step.Poll? && x.owner.Some? && Owns(x.owner.value, step.runtime, step.now) && step.token !in x.used
    requires candidates == |Candidates(x.shard, step.builds, step.now)| && candidates > 0 && !(candidates < BatchRoom(p) && step.waiting)
    requires expires == step.now + step.ttl
    ensures DoPoll(p, x, step) == NextGrant(p, x, step, expires)
  {
  }

  class PartitionStore {
    var shard: Shard
    var owner: Option<Owner>
    ghost var issued: seq<(nat, nat)>
    ghost var used: set<Name>
    ghost var handoffs: map<Name, Handoff>

    ghost function View(): Partition
      reads this
    {
      Partition(shard, owner, issued, used, handoffs)
    }

    constructor ()
      ensures View() == UNASSIGNED
    {
      shard, owner := EMPTY, None;
      issued, used, handoffs := [], {}, map[];
    }

    /** Refused unless the runtime owns the partition now. */
    method Owned(runtime: Name, now: real) returns (r: Result<nat, Fault>)
      ensures r == OwnedEpoch(View(), runtime, now)
    {
      if owner.None? { return Err(Unassigned); }
      if owner.value.runtime != runtime || owner.value.status != Active || owner.value.expires <= now { return Err(NotOwner); }
      return Ok(owner.value.epoch);
    }

    method Ingest(p: Limits, step: Step) returns (r: Result<(), Fault>)
      requires GoodLimits(p) && PartitionInv(p, View()) && step.Ingress?
      modifies this
      ensures Follows(Do(p, old(View()), step), r, old(View()), View())
    {
      var epoch := Owned(step.runtime, step.now);
      if epoch.Err? { return Err(epoch.error); }
      var work := new ShardWork(shard);
      for i := 0 to |step.batches|
        invariant View() == old(View()) && fresh(work)
        invariant AdmitBatches(p, work.shard, step.batches[i..], step.build, step.now) == AdmitBatches(p, shard, step.batches, step.build, step.now)
      {
        assert step.batches[i..][0] == step.batches[i] && step.batches[i..][1..] == step.batches[i + 1..];
        var result := work.Append(p, step.batches[i], step.build, step.now);
        if result.Err? { return Err(Rejected(result.error)); }
      }
      shard := work.shard;
      return Ok(());
    }

    /** Takes over a partition that is free, expired, on this node or handed to it. */
    method Initialize(p: Limits, step: Step)
      requires GoodLimits(p) && PartitionInv(p, View()) && step.Acquire?
      modifies this
      ensures Do(p, old(View()), step) == Ok(View())
    {
      var epoch, next := 1, 0;
      if owner.Some? {
        var o := owner.value;
        if o.runtime == step.runtime && o.status == Active && o.expires > step.now { return; }
        var sameNode := o.node == step.node || (o.node == "" && step.node + ":" <= o.runtime);
        var assignedHere := o.status == Restoring && o.node == step.node;
        if o.expires > step.now && !sameNode && !assignedHere { return; }
        epoch, next := JournalLog.SaturatingSucc(o.epoch), o.nextActivation;
      }
      owner := Some(Owner(step.runtime, step.node, epoch, step.now + step.ttl, Active, next));
    }

    method Renew(p: Limits, step: Step) returns (r: Result<(), Fault>)
      requires GoodLimits(p) && PartitionInv(p, View()) && step.RenewOwner?
      modifies this
      ensures Follows(Do(p, old(View()), step), r, old(View()), View())
    {
      if owner.None? { return Err(Unassigned); }
      var o := owner.value;
      if o.runtime == step.runtime && o.status == Active && o.expires <= step.now + step.ttl / 2.0 {
        owner := Some(o.(expires := step.now + step.ttl));
      }
      return Ok(());
    }

    /** Draws the next activation number; it is spent even if nothing is granted under it. */
    method NextActivation(step: Step) returns (r: Result<(nat, nat), Fault>)
      requires step.Poll? && owner.Some? && Owns(owner.value, step.runtime, step.now)
      modifies this`owner
      ensures r.Err? <==> old(owner).value.nextActivation >= JournalLog.U64_MAX
      ensures r.Err? ==> r == Err(Spent) && owner == old(owner)
      ensures r.Ok? ==> owner == Some(Bumped(old(owner).value)) && r == Ok((owner.value.epoch, owner.value.nextActivation))
    {
      var o := owner.value;
      if o.nextActivation >= JournalLog.U64_MAX { return Err(Spent); }
      o := o.(nextActivation := o.nextActivation + 1);
      owner := Some(o);
      return Ok((o.epoch, o.nextActivation));
    }

    /** Grants a batch to a worker; a standby grants nothing. */
    method PollPartition(p: Limits, step: Step) returns (r: Result<seq<nat>, Fault>)
      requires step.Poll? && step.token !in used && step.token !in shard.leases
      modifies this
      ensures Follows(DoPoll(p, old(View()), step), r, old(View()), View())
    {
      if owner.None? || owner.value.runtime != step.runtime || owner.value.status != Active || owner.value.expires <= step.now { return Ok([]); }
      var candidates := |Candidates(shard, step.builds, step.now)|;
      if candidates == 0 || (candidates < BatchRoom(p) && step.waiting) { return Ok([]); }
      var expires := step.now + step.ttl;
      PollGrantsNext(p, View(), step, expires, candidates);
      r := GrantNext(p, step, expires);
    }

    /** Draws a number and grants what the poll may take under it. */
    method GrantNext(p: Limits, step: Step, expires: real) returns (r: Result<seq<nat>, Fault>)
      requires step.Poll? && step.token !in used && step.token !in shard.leases
      requires owner.Some? && Owns(owner.value, step.runtime, step.now)
      modifies this
      ensures Follows(NextGrant(p, old(View()), step, expires), r, old(View()), View())
    {
      var drawn := NextActivation(step);
      if drawn.Err? { return Err(drawn.error); }
      var granted := GrantBatch(p, owner.value, step.token, expires, step.builds, step.now);
      return Ok(granted);
    }

    /** Leases what may run now under the activation number the owner has just drawn. */
    method GrantBatch(p: Limits, o: Owner, token: Name, expires: real, builds: set<Name>, now: real) returns (granted: seq<nat>)
      requires token !in shard.leases && owner == Some(o)
      modifies this`shard, this`issued, this`used
      ensures granted == Selected(p, old(shard), builds, now) && Grantable(old(shard), granted)
      ensures granted == [] ==> View() == old(View())
      ensures granted != [] ==> View() == Polled(old(View()), o, token, Granted(old(shard), token, o.epoch, o.nextActivation, expires, granted))
    {
      var work := new ShardWork(shard);
      granted := work.PollBatch(p, token, o.epoch, o.nextActivation, expires, builds, now);
      shard := work.shard;
      if granted != [] {
        issued, used := issued + [(o.epoch, o.nextActivation)], used + {token};
      }
    }

    /** Accepts one worker's results if its lease, its epoch and its activation are still current. */
    method CompletePartition(p: Limits, step: Step) returns (r: Result<(), Fault>)
      requires PartitionInv(p, View()) && step.Complete?
      modifies this
      ensures Follows(DoComplete(p, old(View()), step), r, old(View()), View())
    {
      if step.token !in shard.leases { return Err(LostLease); }
      var lease := shard.leases[step.token];
      if |step.items| != |lease.members| { return Err(Rejected(Incomplete)); }
      if step.epoch != lease.epoch || step.activation != lease.activation { return Err(LostLease); }
      var epoch := Owned(step.runtime, step.now);
      if epoch.Err? { return Err(epoch.error); }
      if lease.epoch != epoch.value { return Err(LostLease); }
      LeaseIsStored(p, shard, step.token);
      var work := new ShardWork(shard);
      var result := work.CompleteBatch(p, step.token, step.items, step.build, step.now);
      if result.Err? { return Err(Rejected(result.error)); }
      shard := work.shard;
      return Ok(());
    }

    method RenewBatch(step: Step) returns (r: Result<real, Fault>)
      requires step.RenewLease?
      modifies this
      ensures Follows(DoRenew(old(View()), step), r, old(View()), View())
      ensures r.Ok? ==> step.token in shard.leases && r.value == shard.leases[step.token].expires
    {
      if step.extend <= 0.0 { return Err(BadExtension); }
      var epoch := Owned(step.runtime, step.now);
      if epoch.Err? { return Err(epoch.error); }
      if step.token !in shard.leases { return Err(LostLease); }
      var lease := shard.leases[step.token];
      if lease.epoch != epoch.value || lease.epoch != step.epoch || lease.activation != step.activation { return Err(LostLease); }
      var until := step.now + if step.extend <= 300.0 then step.extend else 300.0;
      if lease.expires < until { lease := lease.(expires := until); }
      shard := shard.(leases := shard.leases[step.token := lease]);
      return Ok(lease.expires);
    }

    /** Fails the executions of every listed lease that has expired or was fenced. */
    method RecoverTasks(p: Limits, step: Step) returns (r: Result<(), Fault>)
      requires GoodLimits(p) && PartitionInv(p, View()) && step.Recover?
      modifies this
      ensures Follows(Do(p, old(View()), step), r, old(View()), View())
    {
      if owner.None? { return Err(Unassigned); }
      if owner.value.runtime != step.runtime || owner.value.status != Active || owner.value.expires <= step.now { return Ok(()); }
      var epoch := owner.value.epoch;
      var work := new ShardWork(shard);
      for i := 0 to |step.tokens|
        invariant View() == old(View()) && fresh(work) && Inv(p, work.shard)
        invariant RecoverLeases(p, work.shard, epoch, step.orphans, step.tokens[i..], step.build, step.now)
               == RecoverLeases(p, shard, epoch, step.orphans, step.tokens, step.build, step.now)
      {
        var token := step.tokens[i];
        assert step.tokens[i..][0] == token && step.tokens[i..][1..] == step.tokens[i + 1..];
        if token !in work.shard.leases { continue; }
        var lease := work.shard.leases[token];
        if lease.expires > step.now && !(step.orphans && lease.epoch != epoch) { continue; }
        LoseBatch(p, work, token, step.build, step.now);
      }
      shard := work.shard;
      return Ok(());
    }

    /** Fails every execution of one lease. */
    method LoseBatch(p: Limits, work: ShardWork, token: Name, build: Name, now: real)
      requires GoodLimits(p) && Inv(p, work.shard) && token in work.shard.leases
      modifies work
      ensures LeaseStored(old(work.shard), token) && LoseLease(p, old(work.shard), token, build, now) == Ok(work.shard) && Inv(p, work.shard)
    {
      LeaseIsStored(p, work.shard, token);
      LoseKeeps(p, work.shard, token, build, now);
      var lost := seq(|work.shard.leases[token].members|, _ => Failure("lost"));
      var result := work.CompleteBatch(p, token, lost, build, now);
    }

    /** A transfer's first commit: the owner stops granting. */
    method BeginTransfer(p: Limits, step: Step) returns (r: Result<(), Fault>)
      requires PartitionInv(p, View()) && step.TransferBegin? && step.handler !in handoffs
      modifies this
      ensures Follows(DoTransfer(p, old(View()), step), r, old(View()), View())
    {
      if owner.None? { return Err(Unassigned); }
      var o := owner.value;
      if o.runtime != step.runtime || o.epoch != step.epoch || o.status != Active { return Err(NotOwner); }
      owner := Some(o.(status := Draining, expires := step.now + step.ttl));
      handoffs := handoffs[step.handler := Handoff(step.epoch, false)];
      return Ok(());
    }

    /** Its second commit: every lease goes back to ready. */
    method ReturnTransfer(p: Limits, step: Step)
      requires PartitionInv(p, View()) && step.TransferReturn? && step.handler in handoffs
      modifies this
      ensures DoTransfer(p, old(View()), step) == Ok(View())
    {
      var work := new ShardWork(shard);
      ReturnEach(p, work, Keys.Sorted(shard.leases.Keys));
      shard := work.shard;
      handoffs := handoffs[step.handler := handoffs[step.handler].(returned := true)];
    }

    method ReturnEach(p: Limits, work: ShardWork, tokens: seq<Name>)
      requires Inv(p, work.shard)
      modifies work
      ensures work.shard == ReturnLeases(p, old(work.shard), tokens)
    {
      for i := 0 to |tokens|
        invariant Inv(p, work.shard)
        invariant ReturnLeases(p, work.shard, tokens[i..]) == ReturnLeases(p, old(work.shard), tokens)
      {
        assert tokens[i..][0] == tokens[i] && tokens[i..][1..] == tokens[i + 1..];
        if tokens[i] in work.shard.leases {
          ReturnOne(p, work, tokens[i]);
        }
      }
    }

    /** Puts back every execution of one lease. */
    method ReturnOne(p: Limits, work: ShardWork, token: Name)
      requires Inv(p, work.shard) && token in work.shard.leases
      modifies work
      ensures LeaseStored(old(work.shard), token) && work.shard == ReturnAll(old(work.shard), token) && Inv(p, work.shard)
    {
      LeaseIsStored(p, work.shard, token);
      ReturnAllKeeps(p, work.shard, token);
      work.ReturnBatch(token);
    }

    /** Its third commit: the next owner, under the next epoch. */
    method FinishTransfer(p: Limits, step: Step, expected: nat) returns (r: Result<(), Fault>)
      requires PartitionInv(p, View()) && step.TransferFinish? && step.handler in handoffs && handoffs[step.handler] == Handoff(expected, true)
      modifies this
      ensures Follows(DoTransfer(p, old(View()), step), r, old(View()), View())
    {
      if owner.None? { return Err(Unassigned); }
      var o := owner.value;
      if o.runtime != step.runtime || o.epoch != expected || o.status != Draining { return Err(NotOwner); }
      owner := Some(Owner(step.node + ":pending", step.node, JournalLog.SaturatingSucc(o.epoch), step.now + step.ttl, Restoring, o.nextActivation));
      return Ok(());
    }
  }
}
