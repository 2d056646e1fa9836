/** One process partition: its shard, the record of its owner, and the transactions that change them. */
module ProcessPartition {
  import opened Wrappers
  import opened Sequences
  import opened ProcessShard
  import opened ProcessInvariant
  import opened ProcessSteps
  import JournalLog
  import Keys

  datatype Ownership = Active | Draining | Restoring

  datatype Owner = Owner(runtime: Name, node: Name, epoch: nat, expires: real, status: Ownership, nextActivation: nat)

  /** How far one transfer has come: the epoch it drains, and whether its leases were returned. */
  datatype Handoff = Handoff(epoch: nat, returned: bool)

  /** `issued`, `used` and `handoffs` record what was handed out; no transaction reads them. */
  datatype Partition = Partition(
    shard: Shard,
    owner: Option<Owner>,
    issued: seq<(nat, nat)>,
    used: set<Name>,
    handoffs: map<Name, Handoff>)

  const UNASSIGNED := Partition(EMPTY, None, [], {}, map[])

  datatype Fault = Unassigned | NotOwner | LostLease | Spent | BadExtension | Rejected(refusal: Refusal)

  datatype Step =
    | Acquire(runtime: Name, node: Name, now: real, ttl: real)
    | RenewOwner(runtime: Name, now: real, ttl: real)
    | Ingress(runtime: Name, batches: seq<seq<Request>>, build: Name, now: real)
    | Poll(runtime: Name, token: Name, builds: set<Name>, waiting: bool, now: real, ttl: real)
    | Complete(runtime: Name, token: Name, epoch: nat, activation: nat, items: seq<Item>, build: Name, now: real)
    | RenewLease(runtime: Name, token: Name, epoch: nat, activation: nat, extend: real, now: real)
    | Recover(runtime: Name, orphans: bool, tokens: seq<Name>, build: Name, now: real)
    | FinalizeKey(runtime: Name, key: Name, now: real)
    | TransferBegin(handler: Name, runtime: Name, epoch: nat, now: real, ttl: real)
    | TransferReturn(handler: Name)
    | TransferFinish(handler: Name, runtime: Name, node: Name, now: real, ttl: real)

  predicate Owns(owner: Owner, runtime: Name, now: real) {
    owner.runtime == runtime && owner.status == Active && owner.expires > now
  }

  /** The epoch of the runtime that may change the partition now. */
  function OwnedEpoch(x: Partition, runtime: Name, now: real): Result<nat, Fault> {
    if x.owner.None? then Err(Unassigned)
    else if !Owns(x.owner.value, runtime, now) then Err(NotOwner)
    else Ok(x.owner.value.epoch)
  }

  predicate SameNode(owner: Owner, node: Name) {
    owner.node == node || (owner.node == "" && node + ":" <= owner.runtime)
  }

  /** A runtime takes a partition that is free, expired, already on its node, or handed to it; every takeover raises the epoch. */
  function AcquireOwner(owner: Option<Owner>, runtime: Name, node: Name, now: real, ttl: real): Option<Owner> {
    if owner.None? then Some(Owner(runtime, node, 1, now + ttl, Active, 0))
    else
      var o := owner.value;
      if Owns(o, runtime, now) then owner
      else if o.expires > now && !SameNode(o, node) && !(o.status == Restoring && o.node == node) then owner
      else Some(Owner(runtime, node, JournalLog.SaturatingSucc(o.epoch), now + ttl, Active, o.nextActivation))
  }

  function RenewedOwner(o: Owner, runtime: Name, now: real, ttl: real): Owner {
    if o.runtime == runtime && o.status == Active && o.expires <= now + ttl / 2.0 then o.(expires := now + ttl) else o
  }

  function Max(a: real, b: real): real {
    if a >= b then a else b
  }

  function AdmitBatches(p: Limits, s: Shard, batches: seq<seq<Request>>, build: Name, now: real): Result<Shard, Refusal>
    decreases |batches|
  {
    if batches == [] then Ok(s)
    else
      match Admit(p, s, batches[0], build, now)
      case Err(e) => Err(e)
      case Ok(t) => AdmitBatches(p, t, batches[1..], build, now)
  }

  /** Each listed lease that is still there and has expired, or belongs to a fenced owner, fails its executions. */
  function RecoverLeases(p: Limits, s: Shard, epoch: nat, orphans: bool, tokens: seq<Name>, build: Name, now: real): Shard
    requires GoodLimits(p) && Inv(p, s)
    decreases |tokens|
  {
    if tokens == [] then s
    else
      var token := tokens[0];
      if token in s.leases && (s.leases[token].expires <= now || (orphans && s.leases[token].epoch != epoch)) then
        LeaseIsStored(p, s, token);
        LoseKeeps(p, s, token, build, now);
        RecoverLeases(p, LoseLease(p, s, token, build, now).value, epoch, orphans, tokens[1..], build, now)
      else RecoverLeases(p, s, epoch, orphans, tokens[1..], build, now)
  }

  function ReturnLeases(p: Limits, s: Shard, tokens: seq<Name>): Shard
    requires Inv(p, s)
    decreases |tokens|
  {
    if tokens == [] then s
    else if tokens[0] !in s.leases then ReturnLeases(p, s, tokens[1..])
    else
      LeaseIsStored(p, s, tokens[0]);
      ReturnAllKeeps(p, s, tokens[0]);
      ReturnLeases(p, ReturnAll(s, tokens[0]), tokens[1..])
  }

  /** Opens a lease for the selection and moves every selected execution into it. */
  function Granted(s: Shard, token: Name, epoch: nat, activation: nat, expires: real, selected: seq<nat>): Shard
    requires Grantable(s, selected)
  {
    GrantAll(OpenLease(s, token, epoch, activation, expires), token, selected)
  }

  function Bumped(o: Owner): Owner {
    o.(nextActivation := o.nextActivation + 1)
  }

  /** The partition after a grant under the activation number `o` has just drawn. */
  function Polled(x: Partition, o: Owner, token: Name, granted: Shard): Partition {
    Partition(granted, Some(o), x.issued + [(o.epoch, o.nextActivation)], x.used + {token}, x.handoffs)
  }

  /** The activation number is spent even when no candidate may be granted. Tokens are fresh: a poll that draws a used one does not happen. */
  function DoPoll(p: Limits, x: Partition, step: Step): Result<Partition, Fault>
    requires step.Poll?
  {
    if x.owner.None? || !Owns(x.owner.value, step.runtime, step.now) || step.token in x.used then Ok(x)
    else
      var candidates := |Candidates(x.shard, step.builds, step.now)|;
      if candidates == 0 || (candidates < BatchRoom(p) && step.waiting) then Ok(x)
      else if x.owner.value.nextActivation >= JournalLog.U64_MAX then Err(Spent)
      else
        var o := Bumped(x.owner.value);
        var selected := Selected(p, x.shard, step.builds, step.now);
        SelectedSound(p, x.shard, step.builds, step.now);
        if selected == [] then Ok(x.(owner := Some(o)))
        else Ok(Polled(x, o, step.token, Granted(x.shard, step.token, o.epoch, o.nextActivation, step.now + step.ttl, selected)))
  }

  function DoComplete(p: Limits, x: Partition, step: Step): Result<Partition, Fault>
    requires step.Complete? && Inv(p, x.shard)
  {
    var s := x.shard;
    if step.token !in s.leases then Err(LostLease)
    else if |step.items| != |s.leases[step.token].members| then Err(Rejected(Incomplete))
    else if step.epoch != s.leases[step.token].epoch || step.activation != s.leases[step.token].activation then Err(LostLease)
    else
      match OwnedEpoch(x, step.runtime, step.now)
      case Err(e) => Err(e)
      case Ok(epoch) =>
        if s.leases[step.token].epoch != epoch then Err(LostLease)
        else
          LeaseIsStored(p, s, step.token);
          match CompleteLease(p, s, step.token, step.items, step.build, step.now)
          case Err(e) => Err(Rejected(e))
          case Ok(t) => Ok(x.(shard := t))
  }

  function DoRenew(x: Partition, step: Step): Result<Partition, Fault>
    requires step.RenewLease?
  {
    var s := x.shard;
    if step.extend <= 0.0 then Err(BadExtension)
    else
      match OwnedEpoch(x, step.runtime, step.now)
      case Err(e) => Err(e)
      case Ok(epoch) =>
        if step.token !in s.leases then Err(LostLease)
        else
          var lease := s.leases[step.token];
          if lease.epoch != epoch || lease.epoch != step.epoch || lease.activation != step.activation then Err(LostLease)
          else
            var until := step.now + if step.extend <= 300.0 then step.extend else 300.0;
            Ok(x.(shard := s.(leases := s.leases[step.token := lease.(expires := Max(lease.expires, until))])))
  }

  function DoTransfer(p: Limits, x: Partition, step: Step): Result<Partition, Fault>
    requires (step.TransferBegin? || step.TransferReturn? || step.TransferFinish?) && Inv(p, x.shard)
  {
    if step.TransferBegin? then
      if x.owner.None? then Err(Unassigned)
      else
        var o := x.owner.value;
        if o.runtime != step.runtime || o.epoch != step.epoch || o.status != Active || step.handler in x.handoffs then Err(NotOwner)
        else Ok(x.(owner := Some(o.(status := Draining, expires := step.now + step.ttl)),
                   handoffs := x.handoffs[step.handler := Handoff(step.epoch, false)]))
    else if step.handler !in x.handoffs then Err(NotOwner)
    else if step.TransferReturn? then
      Ok(x.(shard := ReturnLeases(p, x.shard, Keys.Sorted(x.shard.leases.Keys)),
            handoffs := x.handoffs[step.handler := x.handoffs[step.handler].(returned := true)]))
    else if x.owner.None? then Err(Unassigned)
    else
      var o := x.owner.value;
      if !x.handoffs[step.handler].returned || o.runtime != step.runtime || o.epoch != x.handoffs[step.handler].epoch || o.status != Draining then Err(NotOwner)
      else Ok(x.(owner := Some(Owner(step.node + ":pending", step.node, JournalLog.SaturatingSucc(o.epoch), step.now + step.ttl, Restoring, o.nextActivation))))
  }

  /** One transaction on the partition; a fault changes nothing. */
  function Do(p: Limits, x: Partition, step: Step): Result<Partition, Fault>
    requires GoodLimits(p) && Inv(p, x.shard)
  {
    match step
    case Acquire(runtime, node, now, ttl) => Ok(x.(owner := AcquireOwner(x.owner, runtime, node, now, ttl)))
    case RenewOwner(runtime, now, ttl) =>
      if x.owner.None? then Err(Unassigned) else Ok(x.(owner := Some(RenewedOwner(x.owner.value, runtime, now, ttl))))
    case Ingress(runtime, batches, build, now) =>
      (match OwnedEpoch(x, runtime, now)
       case Err(e) => Err(e)
       case Ok(_) =>
         match AdmitBatches(p, x.shard, batches, build, now)
         case Err(e) => Err(Rejected(e))
         case Ok(t) => Ok(x.(shard := t)))
    case Poll(_, _, _, _, _, _) => DoPoll(p, x, step)
    case Complete(_, _, _, _, _, _, _) => DoComplete(p, x, step)
    case RenewLease(_, _, _, _, _, _) => DoRenew(x, step)
    case Recover(runtime, orphans, tokens, build, now) =>
      if x.owner.None? then Err(Unassigned)
      else if !Owns(x.owner.value, runtime, now) then Ok(x)
      else Ok(x.(shard := RecoverLeases(p, x.shard, x.owner.value.epoch, orphans, tokens, build, now)))
    case FinalizeKey(runtime, key, now) =>
      (match OwnedEpoch(x, runtime, now)
       case Err(e) => Err(e)
       case Ok(_) =>
         match Finalize(x.shard, key)
         case Err(e) => Err(Rejected(e))
         case Ok(t) => Ok(x.(shard := t)))
    case TransferBegin(_, _, _, _, _) => DoTransfer(p, x, step)
    case TransferReturn(_) => DoTransfer(p, x, step)
    case TransferFinish(_, _, _, _, _) => DoTransfer(p, x, step)
  }
}
