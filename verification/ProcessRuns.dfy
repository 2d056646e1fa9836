/** What holds of a process partition over every run of its transactions, in any order and by any runtime. */
module ProcessRuns {
  import opened Wrappers
  import opened Sequences
  import opened ProcessShard
  import opened ProcessInvariant
  import opened ProcessFinish
  import opened ProcessSteps
  import opened ProcessGrowth
  import opened ProcessPartition
  import JournalLog
  import Keys

  type Leases = map<Name, Lease>

  // ---------------------------------------------------------------------------
  // What each transaction does to the leases

  lemma {:induction false} DispatchWindowLeases(p: Limits, s: Shard, window: seq<nat>, build: Name, now: real)
    ensures DispatchWindow(p, s, window, build, now).leases == s.leases
    decreases |window|
  {
    if window != [] && s.running < p.concurrency {
      var n := window[0];
      if n in s.mailbox && s.mailbox[n].key !in s.activeKeys {
        DispatchWindowLeases(p, StartRecord(Dequeue(s, n), s.mailbox[n], build, now), window[1..], build, now);
      } else {
        DispatchWindowLeases(p, s, window[1..], build, now);
      }
    }
  }

  lemma PlacedLeases(s: Shard, r: Record, o: Outcome, build: Name, now: real)
    ensures StartRecord(Recorded(s, r, o), r, build, now).leases == s.leases
    ensures Enqueue(Recorded(s, r, o), r).leases == s.leases
  {
  }

  lemma AdmitOneLeases(p: Limits, s: Shard, q: Request, build: Name, now: real)
    requires AdmitOne(p, s, q, build, now).Ok?
    ensures AdmitOne(p, s, q, build, now).value.leases == s.leases
  {
    var r := Numbered(s, q);
    PlacedLeases(s, r, if IdOf(r) in s.outcomes then s.outcomes[IdOf(r)] else Unstarted(r), build, now);
  }

  lemma {:induction false} AdmitAllLeases(p: Limits, s: Shard, requests: seq<Request>, build: Name, now: real)
    requires AdmitAll(p, s, requests, build, now).Ok?
    ensures AdmitAll(p, s, requests, build, now).value.leases == s.leases
    decreases |requests|
  {
    if requests != [] {
      AdmitAllLeases(p, s, requests[..|requests| - 1], build, now);
      AdmitOneLeases(p, AdmitAll(p, s, requests[..|requests| - 1], build, now).value, requests[|requests| - 1], build, now);
    }
  }

  lemma AdmitLeases(p: Limits, s: Shard, requests: seq<Request>, build: Name, now: real)
    requires Admit(p, s, requests, build, now).Ok?
    ensures Admit(p, s, requests, build, now).value.leases == s.leases
  {
    var t := AdmitAll(p, s, requests, build, now).value;
    AdmitAllLeases(p, s, requests, build, now);
    DispatchWindowLeases(p, t, Window(p, t), build, now);
  }

  lemma {:induction false} AdmitBatchesKeeps(p: Limits, s: Shard, batches: seq<seq<Request>>, build: Name, now: real)
    requires GoodLimits(p) && Inv(p, s) && AdmitBatches(p, s, batches, build, now).Ok?
    ensures var t := AdmitBatches(p, s, batches, build, now).value;
            Inv(p, t) && Growth(s, t) && t.leases == s.leases
    decreases |batches|
  {
    if batches != [] {
      var t := Admit(p, s, batches[0], build, now).value;
      AdmitKeeps(p, s, batches[0], build, now);
      AdmitGrows(p, s, batches[0], build, now);
      AdmitLeases(p, s, batches[0], build, now);
      AdmitBatchesKeeps(p, t, batches[1..], build, now);
      GrowthOn(s, t, AdmitBatches(p, s, batches, build, now).value);
    }
  }

  lemma CompleteLeases(p: Limits, s: Shard, token: Name, items: seq<Item>, build: Name, now: real)
    requires LeaseStored(s, token) && CompleteLease(p, s, token, items, build, now).Ok?
    ensures CompleteLease(p, s, token, items, build, now).value.leases == s.leases - {token}
  {
    var t := FinishAll(p, s, token, items, now).value;
    FinishAllEmpties(p, s, token, items, now);
    DispatchWindowLeases(p, CloseLease(t, token), Window(p, CloseLease(t, token)), build, now);
  }

  /** Leases only disappear. */
  ghost predicate Fewer(after: Leases, before: Leases) {
    forall token :: token in after ==> token in before && after[token] == before[token]
  }

  lemma LoseTakesLease(p: Limits, s: Shard, token: Name, build: Name, now: real)
    requires GoodLimits(p) && Inv(p, s) && LeaseStored(s, token) && LoseLease(p, s, token, build, now).Ok?
    ensures Growth(s, LoseLease(p, s, token, build, now).value)
    ensures LoseLease(p, s, token, build, now).value.leases == s.leases - {token}
  {
    var lost := seq(|s.leases[token].members|, _ => Failure("lost"));
    CompleteGrows(p, s, token, lost, build, now);
    CompleteLeases(p, s, token, lost, build, now);
  }

  lemma {:induction false} RecoverKeeps(p: Limits, s: Shard, epoch: nat, orphans: bool, tokens: seq<Name>, build: Name, now: real)
    requires GoodLimits(p) && Inv(p, s)
    ensures var t := RecoverLeases(p, s, epoch, orphans, tokens, build, now);
            Inv(p, t) && Growth(s, t) && Fewer(t.leases, s.leases)
    decreases |tokens|
  {
    if tokens == [] {
      GrowthHere(s);
    } else {
      var token := tokens[0];
      if token in s.leases && (s.leases[token].expires <= now || (orphans && s.leases[token].epoch != epoch)) {
        LeaseIsStored(p, s, token);
        LoseKeeps(p, s, token, build, now);
        var t := LoseLease(p, s, token, build, now).value;
        LoseTakesLease(p, s, token, build, now);
        RecoverKeeps(p, t, epoch, orphans, tokens[1..], build, now);
        GrowthOn(s, t, RecoverLeases(p, s, epoch, orphans, tokens, build, now));
      } else {
        RecoverKeeps(p, s, epoch, orphans, tokens[1..], build, now);
      }
    }
  }

  /** Returning leases one by one leaves exactly those not listed. */
  lemma {:induction false} ReturnKeeps(p: Limits, s: Shard, tokens: seq<Name>)
    requires Inv(p, s)
    ensures var t := ReturnLeases(p, s, tokens);
            Inv(p, t) && Growth(s, t) && Fewer(t.leases, s.leases) && forall i :: 0 <= i < |tokens| ==> tokens[i] !in t.leases
    decreases |tokens|
  {
    if tokens == [] {
      GrowthHere(s);
    } else if tokens[0] !in s.leases {
      ReturnKeeps(p, s, tokens[1..]);
    } else {
      LeaseIsStored(p, s, tokens[0]);
      ReturnAllKeeps(p, s, tokens[0]);
      ReturnAllCloses(s, tokens[0]);
      ReturnAllGrows(s, tokens[0]);
      var t := ReturnAll(s, tokens[0]);
      ReturnKeeps(p, t, tokens[1..]);
      GrowthOn(s, t, ReturnLeases(p, s, tokens));
    }
  }

  lemma ReturnEverything(p: Limits, s: Shard)
    requires Inv(p, s)
    ensures var t := ReturnLeases(p, s, Keys.Sorted(s.leases.Keys));
            Inv(p, t) && Growth(s, t) && t.leases == map[]
  {
    var all := Keys.Sorted(s.leases.Keys);
    ReturnKeeps(p, s, all);
    var t := ReturnLeases(p, s, all);
    forall token ensures token !in t.leases {
      if token in s.leases {
        assert token in all;
        var i :| 0 <= i < |all| && all[i] == token;
      }
    }
    assert t.leases.Keys == {};
    assert t.leases == map[];
  }

  lemma {:induction false} GrantAllLeases(s: Shard, token: Name, selected: seq<nat>)
    requires token in s.leases && Grantable(s, selected)
    ensures GrantAll(s, token, selected).leases == s.leases[token := s.leases[token].(members := s.leases[token].members + selected)]
    decreases |selected|
  {
    if selected != [] {
      GrantableRest(s, token, selected);
      GrantAllLeases(GrantOne(s, token, selected[0]), token, selected[1..]);
      var members := s.leases[token].members;
      assert members + selected == (members + [selected[0]]) + selected[1..];
    } else {
      assert s.leases[token].members + selected == s.leases[token].members;
    }
  }

  lemma GrantedLeases(s: Shard, token: Name, epoch: nat, activation: nat, expires: real, selected: seq<nat>)
    requires Grantable(s, selected)
    ensures Granted(s, token, epoch, activation, expires, selected).leases == s.leases[token := Lease(epoch, activation, expires, selected)]
  {
    GrantAllLeases(OpenLease(s, token, epoch, activation, expires), token, selected);
    assert [] + selected == selected;
  }

  lemma GrantedKeeps(p: Limits, s: Shard, token: Name, epoch: nat, activation: nat, expires: real, selected: seq<nat>)
    requires Inv(p, s) && token !in s.leases && MayGrant(p, s, selected)
    ensures var t := Granted(s, token, epoch, activation, expires, selected);
            Inv(p, t) && Growth(s, t)
  {
    PollKeeps(p, s, token, epoch, activation, expires, selected);
    PollGrows(s, token, epoch, activation, expires, selected);
  }

  // ---------------------------------------------------------------------------
  // The invariant of a partition

  ghost predicate Before(a: (nat, nat), b: (nat, nat)) {
    a.0 <= b.0 && a.1 < b.1
  }

  ghost predicate NotAfter(a: (nat, nat), owner: Option<Owner>) {
    owner.Some? && a.0 <= owner.value.epoch && a.1 <= owner.value.nextActivation
  }

  /** Handed-out pairs strictly increase, and the owner record is never behind them. */
  ghost predicate IssuedOk(issued: seq<(nat, nat)>, owner: Option<Owner>) {
    && (forall i, j :: 0 <= i < j < |issued| ==> Before(issued[i], issued[j]))
    && (forall i :: 0 <= i < |issued| ==> NotAfter(issued[i], owner))
  }

  ghost predicate LeaseIssued(token: Name, leases: Leases, issued: seq<(nat, nat)>, used: set<Name>) {
    token in leases ==> token in used && (leases[token].epoch, leases[token].activation) in issued
  }

  ghost predicate LeasesIssued(leases: Leases, issued: seq<(nat, nat)>, used: set<Name>) {
    forall token :: LeaseIssued(token, leases, issued, used)
  }

  /** While a transfer drains epoch `e` nobody else is active at `e`, and once it returned the leases there are none. */
  ghost predicate HandoffOk(h: Name, handoffs: map<Name, Handoff>, owner: Option<Owner>, leases: Leases) {
    h in handoffs ==>
      && owner.Some?
      && (|| owner.value.epoch > handoffs[h].epoch
          || handoffs[h].epoch >= JournalLog.U64_MAX
          || (&& owner.value.epoch == handoffs[h].epoch
              && owner.value.status == Draining
              && (handoffs[h].returned ==> leases == map[])))
  }

  ghost predicate HandoffsOk(handoffs: map<Name, Handoff>, owner: Option<Owner>, leases: Leases) {
    forall h :: HandoffOk(h, handoffs, owner, leases)
  }

  ghost predicate PartitionInv(p: Limits, x: Partition) {
    && Inv(p, x.shard)
    && IssuedOk(x.issued, x.owner)
    && LeasesIssued(x.shard.leases, x.issued, x.used)
    && HandoffsOk(x.handoffs, x.owner, x.shard.leases)
  }

  lemma UnassignedHolds(p: Limits)
    ensures PartitionInv(p, UNASSIGNED)
  {
    EmptyHolds(p);
    NothingIssued();
  }

  lemma NothingIssued()
    ensures IssuedOk([], None) && LeasesIssued(map[], [], {}) && HandoffsOk(map[], None, map[])
  {
  }

  /** An owner record moves forward, and leaves draining only with a new epoch. */
  ghost predicate OwnerMoves(before: Option<Owner>, after: Option<Owner>) {
    before.Some? ==>
      && after.Some?
      && before.value.epoch <= after.value.epoch
      && before.value.nextActivation <= after.value.nextActivation
      && (before.value.status == Draining && after.value.epoch == before.value.epoch ==>
            after.value.status == Draining || before.value.epoch >= JournalLog.U64_MAX)
      && (after.value.epoch == before.value.epoch || after.value.epoch == JournalLog.SaturatingSucc(before.value.epoch))
  }

  lemma OwnerMoved(issued: seq<(nat, nat)>, handoffs: map<Name, Handoff>, before: Option<Owner>, after: Option<Owner>, leases: Leases)
    requires IssuedOk(issued, before) && HandoffsOk(handoffs, before, leases) && OwnerMoves(before, after)
    ensures IssuedOk(issued, after) && HandoffsOk(handoffs, after, leases)
  {
    forall i | 0 <= i < |issued| ensures NotAfter(issued[i], after) {
      assert NotAfter(issued[i], before);
    }
    forall h ensures HandoffOk(h, handoffs, after, leases) {
      assert HandoffOk(h, handoffs, before, leases);
    }
  }

  lemma LeasesGone(issued: seq<(nat, nat)>, used: set<Name>, handoffs: map<Name, Handoff>, owner: Option<Owner>, before: Leases, after: Leases)
    requires LeasesIssued(before, issued, used) && HandoffsOk(handoffs, owner, before) && Fewer(after, before)
    ensures LeasesIssued(after, issued, used) && HandoffsOk(handoffs, owner, after)
  {
    forall token ensures LeaseIssued(token, after, issued, used) {
      assert LeaseIssued(token, before, issued, used);
    }
    forall h ensures HandoffOk(h, handoffs, owner, after) {
      assert HandoffOk(h, handoffs, owner, before);
      if before == map[] {
        assert forall token :: token in after ==> token in before;
        assert after == map[];
      }
    }
  }

  // ---------------------------------------------------------------------------
  // What a partition never takes back

  /** A lease token that was consumed never names a lease again. */
  ghost predicate Consumed(token: Name, x: Partition) {
    token in x.used && token !in x.shard.leases
  }

  ghost predicate TokenKept(token: Name, x: Partition, y: Partition) {
    Consumed(token, x) ==> Consumed(token, y)
  }

  ghost predicate EpochKept(before: Option<Owner>, after: Option<Owner>) {
    before.Some? ==> after.Some? && before.value.epoch <= after.value.epoch && before.value.nextActivation <= after.value.nextActivation
  }

  ghost predicate Forward(x: Partition, y: Partition) {
    && Growth(x.shard, y.shard)
    && x.issued <= y.issued
    && EpochKept(x.owner, y.owner)
    && (forall token :: TokenKept(token, x, y))
  }

  lemma ForwardHere(x: Partition)
    ensures Forward(x, x)
  {
    GrowthHere(x.shard);
  }

  lemma ForwardOn(x: Partition, y: Partition, z: Partition)
    requires Forward(x, y) && Forward(y, z)
    ensures Forward(x, z)
  {
    GrowthOn(x.shard, y.shard, z.shard);
    forall token ensures TokenKept(token, x, z) {
      assert TokenKept(token, x, y) && TokenKept(token, y, z);
    }
  }

  /** What one transaction keeps, and what it moves forward. */
  ghost predicate StepOk(p: Limits, x: Partition, y: Partition) {
    PartitionInv(p, y) && Forward(x, y) && OwnerMoves(x.owner, y.owner)
  }

  lemma OnlyOwner(p: Limits, x: Partition, owner: Option<Owner>)
    requires PartitionInv(p, x) && OwnerMoves(x.owner, owner)
    ensures StepOk(p, x, x.(owner := owner))
  {
    var y := x.(owner := owner);
    OwnerMoved(x.issued, x.handoffs, x.owner, owner, x.shard.leases);
    GrowthHere(x.shard);
    forall token ensures TokenKept(token, x, y) {
    }
  }

  lemma OnlyShard(p: Limits, x: Partition, t: Shard)
    requires PartitionInv(p, x) && Inv(p, t) && Growth(x.shard, t) && Fewer(t.leases, x.shard.leases)
    ensures StepOk(p, x, x.(shard := t))
  {
    var y := x.(shard := t);
    LeasesGone(x.issued, x.used, x.handoffs, x.owner, x.shard.leases, t.leases);
    forall token ensures TokenKept(token, x, y) {
    }
  }

  // ---------------------------------------------------------------------------
  // Every transaction

  lemma AcquireMoves(owner: Option<Owner>, runtime: Name, node: Name, now: real, ttl: real)
    ensures OwnerMoves(owner, AcquireOwner(owner, runtime, node, now, ttl))
  {
  }

  lemma NewPair(issued: seq<(nat, nat)>, owner: Owner)
    requires IssuedOk(issued, Some(owner))
    ensures IssuedOk(issued + [(owner.epoch, Bumped(owner).nextActivation)], Some(Bumped(owner)))
  {
    var pair := (owner.epoch, Bumped(owner).nextActivation);
    var more, owner' := issued + [pair], Some(Bumped(owner));
    forall i | 0 <= i < |more| ensures NotAfter(more[i], owner') {
      if i < |issued| { assert NotAfter(issued[i], Some(owner)); }
    }
    forall i, j | 0 <= i < j < |more| ensures Before(more[i], more[j]) {
      if j < |issued| {
        assert Before(issued[i], issued[j]);
      } else {
        assert NotAfter(issued[i], Some(owner));
      }
    }
  }

  lemma NewLease(leases: Leases, issued: seq<(nat, nat)>, used: set<Name>, token: Name, lease: Lease)
    requires LeasesIssued(leases, issued, used)
    ensures LeasesIssued(leases[token := lease], issued + [(lease.epoch, lease.activation)], used + {token})
  {
    var leases', issued', used' := leases[token := lease], issued + [(lease.epoch, lease.activation)], used + {token};
    assert issued'[|issued|] == (lease.epoch, lease.activation);
    forall other ensures LeaseIssued(other, leases', issued', used') {
      assert LeaseIssued(other, leases, issued, used);
    }
  }

  lemma NewLeaseHandoffs(handoffs: map<Name, Handoff>, owner: Owner, before: Leases, after: Leases)
    requires HandoffsOk(handoffs, Some(owner), before) && owner.status == Active
    ensures HandoffsOk(handoffs, Some(Bumped(owner)), after)
  {
    var owner' := Some(Bumped(owner));
    forall h ensures HandoffOk(h, handoffs, owner', after) {
      assert HandoffOk(h, handoffs, Some(owner), before);
    }
  }

  /** Handing out a lease on an active partition. */
  lemma GrantStep(p: Limits, x: Partition, y: Partition, token: Name, lease: Lease)
    requires PartitionInv(p, x) && x.owner.Some? && x.owner.value.status == Active && token !in x.used
    requires Inv(p, y.shard) && Growth(x.shard, y.shard) && y.shard.leases == x.shard.leases[token := lease]
    requires y.owner == Some(Bumped(x.owner.value))
    requires lease.epoch == y.owner.value.epoch && lease.activation == y.owner.value.nextActivation
    requires y.issued == x.issued + [(lease.epoch, lease.activation)] && y.used == x.used + {token} && y.handoffs == x.handoffs
    ensures StepOk(p, x, y)
  {
    NewPair(x.issued, x.owner.value);
    NewLease(x.shard.leases, x.issued, x.used, token, lease);
    NewLeaseHandoffs(x.handoffs, x.owner.value, x.shard.leases, y.shard.leases);
    forall other ensures TokenKept(other, x, y) {
    }
  }

  lemma UnusedToken(p: Limits, x: Partition, token: Name)
    requires PartitionInv(p, x) && token !in x.used
    ensures token !in x.shard.leases
  {
    assert LeaseIssued(token, x.shard.leases, x.issued, x.used);
  }

  lemma PollSelected(p: Limits, x: Partition, o: Owner, token: Name, expires: real, selected: seq<nat>)
    requires PartitionInv(p, x) && x.owner.Some? && x.owner.value.status == Active && o == Bumped(x.owner.value)
    requires token !in x.used && MayGrant(p, x.shard, selected)
    ensures StepOk(p, x, Polled(x, o, token, Granted(x.shard, token, o.epoch, o.nextActivation, expires, selected)))
  {
    UnusedToken(p, x, token);
    GrantedKeeps(p, x.shard, token, o.epoch, o.nextActivation, expires, selected);
    GrantedLeases(x.shard, token, o.epoch, o.nextActivation, expires, selected);
    var y := Polled(x, o, token, Granted(x.shard, token, o.epoch, o.nextActivation, expires, selected));
    GrantStep(p, x, y, token, Lease(o.epoch, o.nextActivation, expires, selected));
  }

  /** A poll does nothing, or spends an activation number, or also grants a selection under it. */
  ghost predicate PollResult(p: Limits, x: Partition, y: Partition, token: Name, expires: real, selected: seq<nat>) {
    || y == x
    || (&& x.owner.Some? && x.owner.value.status == Active && token !in x.used && MayGrant(p, x.shard, selected)
        && var o := Bumped(x.owner.value);
        || y == x.(owner := Some(o))
        || y == Polled(x, o, token, Granted(x.shard, token, o.epoch, o.nextActivation, expires, selected)))
  }

  lemma PollCases(p: Limits, x: Partition, step: Step, y: Partition, expires: real) returns (selected: seq<nat>)
    requires step.Poll? && DoPoll(p, x, step) == Ok(y) && x.shard.retryRunning <= p.retryConcurrency && expires == step.now + step.ttl
    ensures PollResult(p, x, y, step.token, expires, selected)
  {
    selected := Selected(p, x.shard, step.builds, step.now);
    SelectedMayGrant(p, x.shard, step.builds, step.now);
  }

  lemma RetriesBounded(p: Limits, x: Partition)
    requires PartitionInv(p, x)
    ensures x.shard.retryRunning <= p.retryConcurrency
  {
  }

  lemma PollResultOk(p: Limits, x: Partition, y: Partition, token: Name, expires: real, selected: seq<nat>)
    requires PartitionInv(p, x) && PollResult(p, x, y, token, expires, selected)
    ensures StepOk(p, x, y)
  {
    if y == x {
      OnlyOwner(p, x, x.owner);
    } else {
      OnlyOwner(p, x, Some(Bumped(x.owner.value)));
      PollSelected(p, x, Bumped(x.owner.value), token, expires, selected);
    }
  }

  lemma PollOk(p: Limits, x: Partition, step: Step, y: Partition)
    requires PartitionInv(p, x) && step.Poll? && DoPoll(p, x, step) == Ok(y)
    ensures StepOk(p, x, y)
  {
    RetriesBounded(p, x);
    var expires := step.now + step.ttl;
    var selected := PollCases(p, x, step, y, expires);
    PollResultOk(p, x, y, step.token, expires, selected);
  }

  lemma CompleteOk(p: Limits, x: Partition, step: Step, y: Partition)
    requires GoodLimits(p) && PartitionInv(p, x) && step.Complete? && DoComplete(p, x, step) == Ok(y)
    ensures StepOk(p, x, y)
  {
    LeaseIsStored(p, x.shard, step.token);
    CompleteKeeps(p, x.shard, step.token, step.items, step.build, step.now);
    CompleteGrows(p, x.shard, step.token, step.items, step.build, step.now);
    CompleteLeases(p, x.shard, step.token, step.items, step.build, step.now);
    OnlyShard(p, x, y.shard);
  }

  lemma RenewedLeases(leased: map<nat, Grant>, leases: Leases, token: Name, expires: real)
    requires LeasesOk(leased, leases) && token in leases
    ensures LeasesOk(leased, leases[token := leases[token].(expires := expires)])
  {
    var leases' := leases[token := leases[token].(expires := expires)];
    forall n ensures GrantOk(n, leased, leases') {
      assert GrantOk(n, leased, leases);
    }
    forall other ensures LeaseOk(other, leased, leases') {
      assert LeaseOk(other, leased, leases);
    }
  }

  lemma RenewShard(p: Limits, s: Shard, token: Name, expires: real)
    requires Inv(p, s) && token in s.leases
    ensures var t := s.(leases := s.leases[token := s.leases[token].(expires := expires)]);
            Inv(p, t) && Growth(s, t)
  {
    RenewedLeases(s.leased, s.leases, token, expires);
    GrowthHere(s);
  }

  lemma RenewOk(p: Limits, x: Partition, step: Step)
    requires GoodLimits(p) && PartitionInv(p, x) && step.RenewLease? && DoRenew(x, step).Ok?
    ensures StepOk(p, x, DoRenew(x, step).value)
  {
    var y := DoRenew(x, step).value;
    var lease := x.shard.leases[step.token];
    var expires := y.shard.leases[step.token].expires;
    RenewShard(p, x.shard, step.token, expires);
    forall token ensures LeaseIssued(token, y.shard.leases, y.issued, y.used) {
      assert LeaseIssued(token, x.shard.leases, x.issued, x.used);
    }
    assert step.token in x.shard.leases && x.shard.leases != map[];
    forall h ensures HandoffOk(h, y.handoffs, y.owner, y.shard.leases) {
      assert HandoffOk(h, x.handoffs, x.owner, x.shard.leases);
    }
    forall token ensures TokenKept(token, x, y) {
    }
  }

  lemma BeginOk(p: Limits, x: Partition, step: Step)
    requires GoodLimits(p) && PartitionInv(p, x) && step.TransferBegin? && DoTransfer(p, x, step).Ok?
    ensures StepOk(p, x, DoTransfer(p, x, step).value)
  {
    var y := DoTransfer(p, x, step).value;
    OnlyOwner(p, x, y.owner);
    forall h ensures HandoffOk(h, y.handoffs, y.owner, y.shard.leases) {
      assert HandoffOk(h, x.handoffs, y.owner, x.shard.leases);
    }
    forall token ensures TokenKept(token, x, y) {
    }
  }

  lemma ReturnOk(p: Limits, x: Partition, step: Step)
    requires GoodLimits(p) && PartitionInv(p, x) && step.TransferReturn? && DoTransfer(p, x, step).Ok?
    ensures StepOk(p, x, DoTransfer(p, x, step).value)
  {
    var y := DoTransfer(p, x, step).value;
    ReturnEverything(p, x.shard);
    OnlyShard(p, x, y.shard);
    forall h ensures HandoffOk(h, y.handoffs, y.owner, y.shard.leases) {
      assert HandoffOk(h, x.handoffs, x.owner, x.shard.leases);
    }
    forall token ensures TokenKept(token, x, y) {
    }
  }

  /** When the last commit of a transfer succeeds, no lease of the partition is left. */
  lemma FinishLeavesNoLease(p: Limits, x: Partition, step: Step)
    requires GoodLimits(p) && PartitionInv(p, x) && step.TransferFinish? && DoTransfer(p, x, step).Ok?
    requires x.owner.value.epoch < JournalLog.U64_MAX
    ensures DoTransfer(p, x, step).value.shard.leases == map[]
  {
    assert HandoffOk(step.handler, x.handoffs, x.owner, x.shard.leases);
  }

  lemma FinishOk(p: Limits, x: Partition, step: Step)
    requires GoodLimits(p) && PartitionInv(p, x) && step.TransferFinish? && DoTransfer(p, x, step).Ok?
    ensures StepOk(p, x, DoTransfer(p, x, step).value)
  {
    OnlyOwner(p, x, DoTransfer(p, x, step).value.owner);
  }

  lemma IngressOk(p: Limits, x: Partition, step: Step, t: Shard)
    requires GoodLimits(p) && PartitionInv(p, x) && step.Ingress?
    requires AdmitBatches(p, x.shard, step.batches, step.build, step.now) == Ok(t)
    ensures StepOk(p, x, x.(shard := t))
  {
    AdmitBatchesKeeps(p, x.shard, step.batches, step.build, step.now);
    OnlyShard(p, x, t);
  }

  lemma RecoverOk(p: Limits, x: Partition, step: Step, epoch: nat)
    requires GoodLimits(p) && PartitionInv(p, x) && step.Recover?
    ensures var t := RecoverLeases(p, x.shard, epoch, step.orphans, step.tokens, step.build, step.now);
            StepOk(p, x, x.(shard := t))
  {
    RecoverKeeps(p, x.shard, epoch, step.orphans, step.tokens, step.build, step.now);
    OnlyShard(p, x, RecoverLeases(p, x.shard, epoch, step.orphans, step.tokens, step.build, step.now));
  }

  lemma FinalizeOk(p: Limits, x: Partition, key: Name)
    requires PartitionInv(p, x) && Finalize(x.shard, key).Ok?
    ensures StepOk(p, x, x.(shard := Finalize(x.shard, key).value))
  {
    FinalizeKeeps(p, x.shard, key);
    FinalizeGrows(x.shard, key);
    OnlyShard(p, x, Finalize(x.shard, key).value);
  }

  /** Every transaction keeps the invariant and takes nothing back. */
  lemma DoOk(p: Limits, x: Partition, step: Step, y: Partition)
    requires GoodLimits(p) && PartitionInv(p, x) && Do(p, x, step) == Ok(y)
    ensures StepOk(p, x, y)
  {
    match step
    case Acquire(runtime, node, now, ttl) =>
      AcquireMoves(x.owner, runtime, node, now, ttl);
      OnlyOwner(p, x, AcquireOwner(x.owner, runtime, node, now, ttl));
    case RenewOwner(runtime, now, ttl) =>
      OnlyOwner(p, x, Some(RenewedOwner(x.owner.value, runtime, now, ttl)));
    case Ingress(runtime, batches, build, now) => IngressOk(p, x, step, y.shard);
    case Poll(_, _, _, _, _, _) => PollOk(p, x, step, y);
    case Complete(_, _, _, _, _, _, _) => CompleteOk(p, x, step, y);
    case RenewLease(_, _, _, _, _, _) => RenewOk(p, x, step);
    case Recover(runtime, orphans, tokens, build, now) =>
      RecoverOk(p, x, step, x.owner.value.epoch);
      OnlyOwner(p, x, x.owner);
    case FinalizeKey(runtime, key, now) => FinalizeOk(p, x, key);
    case TransferBegin(_, _, _, _, _) => BeginOk(p, x, step);
    case TransferReturn(_) => ReturnOk(p, x, step);
    case TransferFinish(_, _, _, _, _) => FinishOk(p, x, step);
  }
}
