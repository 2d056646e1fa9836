/**
 What a poll hands out, told by the ready entries themselves: which of them are due, which of those are passed over and
 why, when nothing is granted, and what the grant does to the shard.
 */
module ProcessPolling {
  import opened Wrappers
  import opened Sequences
  import opened ProcessShard
  import opened ProcessInvariant
  import opened ProcessFinish
  import opened ProcessSteps
  import opened ProcessGrants
  import opened ProcessPartition
  import opened ProcessRuns
  import opened ProcessStore

  /** The due entries: available, of a build the worker serves, and among the first 16384 that are ready. */
  function DueSet(ready: Work, builds: set<Name>, now: real): set<nat> {
    set n | n in ready && ready[n].availableAt <= now && ready[n].build in builds && |Lower(ready.Keys, n)| < 16384
  }

  lemma CandidatesAreDue(s: Shard, builds: set<Name>, now: real, n: nat)
    ensures Increasing(Candidates(s, builds, now))
    ensures n in Candidates(s, builds, now) <==> n in DueSet(s.ready, builds, now)
  {
    var all := Ascend(s.ready.Keys);
    var k := Min2(READY_SCAN, |all|);
    AscendIncreases(s.ready.Keys);
    EligibleAmongSound(s, all[..k], builds, now);
    InScan(s.ready.Keys, k, n);
    if n in s.ready {
      SmallRank(s.ready.Keys, n);
    }
  }

  lemma {:induction false} DistinctCount(c: seq<nat>, keys: set<nat>)
    requires Increasing(c) && forall n :: n in c <==> n in keys
    ensures |c| == |keys|
    decreases |c|
  {
    if c == [] {
      assert keys == {};
    } else {
      var last := |c| - 1;
      var front, n := c[..last], c[last];
      assert c == front + [n];
      forall m ensures m in front <==> m in keys - {n} {
        if m in front { assert m in c; }
      }
      DistinctCount(front, keys - {n});
    }
  }

  lemma DueCounted(s: Shard, builds: set<Name>, now: real)
    ensures |Candidates(s, builds, now)| == |DueSet(s.ready, builds, now)|
  {
    CandidatesAreDue(s, builds, now, 0);
    forall n ensures n in Candidates(s, builds, now) <==> n in DueSet(s.ready, builds, now) {
      CandidatesAreDue(s, builds, now, n);
    }
    DistinctCount(Candidates(s, builds, now), DueSet(s.ready, builds, now));
  }

  // ---------------------------------------------------------------------------
  // Who is passed over

  function RetriesIn(ready: Work, selected: seq<nat>): set<nat> {
    set n | n in selected && n in ready && ready[n].attempt > 0
  }

  lemma {:induction false} RetryCountIs(ready: Work, selected: seq<nat>)
    requires Increasing(selected)
    ensures RetryCount(ready, selected) == |RetriesIn(ready, selected)|
    decreases |selected|
  {
    if selected == [] {
      assert RetriesIn(ready, selected) == {};
    } else {
      var n, rest := selected[0], selected[1..];
      assert selected == [n] + rest;
      TailIncreases(selected);
      RetryCountIs(ready, rest);
      assert n !in rest;
      if n in ready && ready[n].attempt > 0 {
        assert RetriesIn(ready, selected) == RetriesIn(ready, rest) + {n};
      } else {
        assert RetriesIn(ready, selected) == RetriesIn(ready, rest);
      }
    }
  }

  /** Everything taken is older than `n`. */
  ghost predicate AllBelow(taken: set<nat>, n: nat) {
    forall m :: m in taken ==> m < n
  }

  /** The batch filled up with older entries, or `n` is a retry and older retries took the slots. */
  ghost predicate PassedOver(ready: Work, c: seq<nat>, slots: nat, room: nat, n: nat) {
    || (|c| == room && forall m :: m in c ==> m < n)
    || (n in ready && ready[n].attempt > 0 && |RetriesIn(ready, c)| == slots && AllBelow(RetriesIn(ready, c), n))
  }

  lemma TailFirst(candidates: seq<nat>, n: nat)
    requires candidates != [] && Increasing(candidates) && n in candidates && n != candidates[0]
    ensures candidates[0] < n && n in candidates[1..]
  {
    TailIncreases(candidates);
  }

  lemma NoSlotLeft(s: Shard, candidates: seq<nat>, room: nat)
    requires Increasing(candidates)
    ensures RetriesIn(s.ready, Select(s, candidates, 0, room)) == {}
  {
    var c := Select(s, candidates, 0, room);
    SelectSound(s, candidates, 0, room);
    RetryCountIs(s.ready, c);
  }

  lemma RetriesWithFront(ready: Work, first: nat, rest: seq<nat>)
    requires first !in rest
    ensures RetriesIn(ready, [first] + rest) == RetriesIn(ready, rest) + (if first in ready && ready[first].attempt > 0 then {first} else {})
    ensures |RetriesIn(ready, [first] + rest)| == |RetriesIn(ready, rest)| + One(first in ready && ready[first].attempt > 0)
  {
  }

  lemma FrontBelow(first: nat, rest: seq<nat>)
    requires Increasing([first] + rest)
    ensures forall m :: m in rest ==> first < m
  {
    var c := [first] + rest;
    forall m | m in rest ensures first < m {
      var i :| 0 <= i < |rest| && rest[i] == m;
      assert c[0] == first && c[i + 1] == m;
    }
  }

  lemma FrontTaken(ready: Work, first: nat, rest: seq<nat>, slots: nat, room: nat, n: nat)
    requires Increasing([first] + rest) && first < n && PassedOver(ready, rest, slots, room, n)
    ensures PassedOver(ready, [first] + rest, slots + One(first in ready && ready[first].attempt > 0), room + 1, n)
  {
    FrontBelow(first, rest);
    RetriesWithFront(ready, first, rest);
  }

  /** A candidate is passed over only for older ones. */
  lemma {:induction false} SelectOldest(s: Shard, candidates: seq<nat>, slots: nat, room: nat, n: nat)
    requires Increasing(candidates) && n in candidates && n !in Select(s, candidates, slots, room)
    ensures PassedOver(s.ready, Select(s, candidates, slots, room), slots, room, n)
    decreases |candidates|
  {
    if room > 0 {
      var first, tail := candidates[0], candidates[1..];
      TailIncreases(candidates);
      var retry := first in s.ready && s.ready[first].attempt > 0;
      if retry && slots == 0 {
        if n == first {
          NoSlotLeft(s, tail, room);
        } else {
          SelectOldest(s, tail, slots, room, n);
        }
      } else {
        var slots', room' := if retry then slots - 1 else slots, room - 1;
        var rest := Select(s, tail, slots', room');
        assert ([first] + rest)[0] == first;
        TailFirst(candidates, n);
        assert n !in rest;
        SelectOldest(s, tail, slots', room', n);
        SelectSound(s, candidates, slots, room);
        FrontTaken(s.ready, first, rest, slots', room', n);
      }
    }
  }

  function Slots(p: Limits, s: Shard): nat {
    if s.retryRunning <= p.retryConcurrency then p.retryConcurrency - s.retryRunning else 0
  }

  /**
   What a poll selects: only entries that are available now, of a build the worker serves and among the first 16384
   ready ones, oldest first, as many as the batch and the free retry slots hold; and such an entry is passed over only
   if older ones filled the batch, or it is a retry and older retries took the slots.
   */
  lemma SelectedExactly(p: Limits, s: Shard, builds: set<Name>, now: real, n: nat)
    ensures var c := Selected(p, s, builds, now);
            var room := if p.batchMax < 1 then 1 else if p.batchMax > 16384 then 16384 else p.batchMax;
            && Increasing(c) && |c| <= room && |RetriesIn(s.ready, c)| <= Slots(p, s)
            && (n in c ==> n in s.ready && s.ready[n].availableAt <= now && s.ready[n].build in builds && |Lower(s.ready.Keys, n)| < 16384)
            && (n in s.ready && s.ready[n].availableAt <= now && s.ready[n].build in builds && |Lower(s.ready.Keys, n)| < 16384 && n !in c ==>
                  || (|c| == room && forall m :: m in c ==> m < n)
                  || (s.ready[n].attempt > 0 && |RetriesIn(s.ready, c)| == Slots(p, s) && forall m :: m in RetriesIn(s.ready, c) ==> m < n))
  {
    var candidates := Candidates(s, builds, now);
    var slots, room := Monus(p.retryConcurrency, s.retryRunning), BatchRoom(p);
    CandidatesAreDue(s, builds, now, n);
    SelectSound(s, candidates, slots, room);
    var c := Selected(p, s, builds, now);
    RetryCountIs(s.ready, c);
    if n in c {
      var i :| 0 <= i < |c| && c[i] == n;
    }
    if n in candidates && n !in c {
      SelectOldest(s, candidates, slots, room, n);
    }
  }

  // ---------------------------------------------------------------------------
  // The poll as a transaction

  /** The runtime holds the partition now, and the token is new. */
  predicate MayPoll(x: Partition, runtime: Name, token: Name, now: real) {
    && x.owner.Some? && x.owner.value.runtime == runtime && x.owner.value.status == Active && x.owner.value.expires > now
    && token !in x.used
  }

  function Room(p: Limits): nat {
    if p.batchMax < 1 then 1 else if p.batchMax > 16384 then 16384 else p.batchMax
  }

  /** A poll changes nothing unless the runtime holds the partition and enough is due: anything at all, or a full batch while it may wait. */
  lemma PollIdles(p: Limits, x: Partition, step: Step)
    requires step.Poll?
    ensures var due := DueSet(x.shard.ready, step.builds, step.now);
            !MayPoll(x, step.runtime, step.token, step.now) || due == {} || (step.waiting && |due| < Room(p)) ==> DoPoll(p, x, step) == Ok(x)
  {
    DueCounted(x.shard, step.builds, step.now);
  }

  /** Something due can be granted: a first attempt, or a retry while a slot is free. */
  ghost predicate SomeGrantable(p: Limits, s: Shard, builds: set<Name>, now: real) {
    exists n :: n in DueSet(s.ready, builds, now) && (s.ready[n].attempt == 0 || Slots(p, s) > 0)
  }

  lemma SelectedSome(p: Limits, s: Shard, builds: set<Name>, now: real)
    ensures Selected(p, s, builds, now) != [] <==> SomeGrantable(p, s, builds, now)
  {
    var c := Selected(p, s, builds, now);
    assert RetriesIn(s.ready, []) == {};
    if c != [] {
      SelectedExactly(p, s, builds, now, c[0]);
      if s.ready[c[0]].attempt > 0 {
        assert c[0] in RetriesIn(s.ready, c);
        assert |RetriesIn(s.ready, c)| > 0;
      }
      assert c[0] in DueSet(s.ready, builds, now);
    }
    if SomeGrantable(p, s, builds, now) {
      var n :| n in DueSet(s.ready, builds, now) && (s.ready[n].attempt == 0 || Slots(p, s) > 0);
      SelectedExactly(p, s, builds, now, n);
    }
  }

  /** A poll that finds enough spends an activation number, even if nothing can be granted under it, unless none is left. */
  lemma PollSpends(p: Limits, x: Partition, step: Step)
    requires step.Poll? && MayPoll(x, step.runtime, step.token, step.now)
    requires var due := DueSet(x.shard.ready, step.builds, step.now); due != {} && (step.waiting ==> |due| >= Room(p))
    ensures x.owner.value.nextActivation >= 0xFFFF_FFFF_FFFF_FFFF ==> DoPoll(p, x, step) == Err(Spent)
    ensures x.owner.value.nextActivation < 0xFFFF_FFFF_FFFF_FFFF ==>
              && DoPoll(p, x, step).Ok?
              && DoPoll(p, x, step).value.owner == Some(x.owner.value.(nextActivation := x.owner.value.nextActivation + 1))
              && (!SomeGrantable(p, x.shard, step.builds, step.now) ==> DoPoll(p, x, step).value.shard == x.shard)
  {
    PollGoesOn(p, x, step, step.now + step.ttl);
    SelectedSome(p, x.shard, step.builds, step.now);
  }

  lemma ReadyShape(p: Limits, s: Shard, n: nat)
    requires Inv(p, s) && n in s.ready
    ensures n !in s.leased && (s.ready[n].isolatedRetry <==> s.ready[n].attempt > 0)
  {
    assert LiveAt(p, n, Live(s.ready, s.leased), s.dedup, s.outcomes, s.states);
    assert PlaceOk(n, s.nextSequence, s.mailbox.Keys, s.ready.Keys, s.leased.Keys, s.quarantine.Keys, Done(s.history));
    assert n in s.ready.Keys;
  }

  /** What a grant does: the selection leaves ready and is leased as it was, under the new lease; nothing else is moved. */
  ghost predicate Leased(s: Shard, t: Shard, token: Name, lease: Lease) {
    && t.leases == s.leases[token := lease]
    && (forall n :: LeasedAt(s, t, token, lease.members, n))
  }

  ghost predicate LeasedAt(s: Shard, t: Shard, token: Name, members: seq<nat>, n: nat) {
    if n in members then n in s.ready && n !in t.ready && n in t.leased && t.leased[n] == Grant(token, s.ready[n])
    else Find(t.ready, n) == Find(s.ready, n) && Find(t.leased, n) == Find(s.leased, n)
  }

  lemma GrantedFields(s: Shard, token: Name, epoch: nat, activation: nat, expires: real, selected: seq<nat>)
    requires Grantable(s, selected)
    ensures var t := Granted(s, token, epoch, activation, expires, selected);
            && t.ready == Without(s.ready, selected) && t.leased == s.leased + Grants(s.ready, token, selected)
            && t.leases == s.leases[token := Lease(epoch, activation, expires, selected)]
  {
    GrantedLeases(s, token, epoch, activation, expires, selected);
    var empty := OpenLease(s, token, epoch, activation, expires);
    OpenFields(s, token, epoch, activation, expires);
    GrantAllMoves(empty, token, selected);
    MovedFields(empty, token, selected);
  }

  lemma OpenFields(s: Shard, token: Name, epoch: nat, activation: nat, expires: real)
    ensures var t := OpenLease(s, token, epoch, activation, expires); t.ready == s.ready && t.leased == s.leased && token in t.leases
  {
  }

  lemma MovedFields(s: Shard, token: Name, selected: seq<nat>)
    requires token in s.leases
    ensures var t := Moved(s, token, selected); t.ready == Without(s.ready, selected) && t.leased == s.leased + Grants(s.ready, token, selected)
  {
  }

  lemma GrantedLeased(p: Limits, s: Shard, token: Name, lease: Lease, t: Shard)
    requires Inv(p, s) && Grantable(s, lease.members)
    requires t.ready == Without(s.ready, lease.members) && t.leased == s.leased + Grants(s.ready, token, lease.members)
    requires t.leases == s.leases[token := lease]
    ensures Leased(s, t, token, lease)
  {
    forall n ensures LeasedAt(s, t, token, lease.members, n) {
      if n in lease.members {
        var i :| 0 <= i < |lease.members| && lease.members[i] == n;
        ReadyShape(p, s, n);
        assert n in Grants(s.ready, token, lease.members);
      }
    }
  }

  lemma GrantLeased(p: Limits, s: Shard, token: Name, epoch: nat, activation: nat, expires: real, selected: seq<nat>, t: Shard)
    requires Inv(p, s) && Grantable(s, selected) && t == Granted(s, token, epoch, activation, expires, selected)
    ensures Leased(s, t, token, Lease(epoch, activation, expires, selected))
  {
    GrantedFields(s, token, epoch, activation, expires, selected);
    GrantedLeased(p, s, token, Lease(epoch, activation, expires, selected), t);
  }

  lemma NextGrants(p: Limits, x: Partition, step: Step, o: Owner, expires: real, selected: seq<nat>, granted: Shard)
    requires step.Poll? && x.owner.Some? && x.owner.value.nextActivation < 0xFFFF_FFFF_FFFF_FFFF && o == Bumped(x.owner.value)
    requires selected == Selected(p, x.shard, step.builds, step.now) && selected != []
    requires Grantable(x.shard, selected) && granted == Granted(x.shard, step.token, o.epoch, o.nextActivation, expires, selected)
    ensures NextGrant(p, x, step, expires) == Ok(Polled(x, o, step.token, granted))
  {
  }

  /** A poll that finds enough goes on to grant. */
  lemma PollGoesOn(p: Limits, x: Partition, step: Step, expires: real)
    requires step.Poll? && MayPoll(x, step.runtime, step.token, step.now) && expires == step.now + step.ttl
    requires var due := DueSet(x.shard.ready, step.builds, step.now); due != {} && (step.waiting ==> |due| >= Room(p))
    ensures DoPoll(p, x, step) == NextGrant(p, x, step, expires)
  {
    DueCounted(x.shard, step.builds, step.now);
    PollGrantsNext(p, x, step, expires, |Candidates(x.shard, step.builds, step.now)|);
  }

  /** The members of a lease that a poll grants, and why a due entry is not among them. */
  ghost predicate RightMembers(p: Limits, s: Shard, builds: set<Name>, now: real, members: seq<nat>, n: nat) {
    && members != [] && Increasing(members) && |members| <= Room(p) && |RetriesIn(s.ready, members)| <= Slots(p, s)
    && (n in members ==> n in s.ready && s.ready[n].availableAt <= now && s.ready[n].build in builds && |Lower(s.ready.Keys, n)| < 16384)
    && (n in s.ready && s.ready[n].availableAt <= now && s.ready[n].build in builds && |Lower(s.ready.Keys, n)| < 16384 && n !in members ==>
          || (|members| == Room(p) && forall m :: m in members ==> m < n)
          || (s.ready[n].attempt > 0 && |RetriesIn(s.ready, members)| == Slots(p, s) && forall m :: m in RetriesIn(s.ready, members) ==> m < n))
  }

  lemma SelectedRight(p: Limits, s: Shard, builds: set<Name>, now: real, n: nat)
    requires SomeGrantable(p, s, builds, now)
    ensures Grantable(s, Selected(p, s, builds, now)) && RightMembers(p, s, builds, now, Selected(p, s, builds, now), n)
  {
    SelectedSome(p, s, builds, now);
    SelectedExactly(p, s, builds, now, n);
    SelectedSound(p, s, builds, now);
  }

  /**
   What a poll grants. If something due can be granted, the poll opens one lease under the owner's epoch and next
   activation number; its members are exactly the selection, which leaves ready and is leased unchanged.
   */
  lemma PollGrants(p: Limits, x: Partition, step: Step, y: Partition, n: nat)
    requires Inv(p, x.shard) && step.Poll? && MayPoll(x, step.runtime, step.token, step.now)
    requires x.owner.value.nextActivation < 0xFFFF_FFFF_FFFF_FFFF && (step.waiting ==> |DueSet(x.shard.ready, step.builds, step.now)| >= Room(p))
    requires SomeGrantable(p, x.shard, step.builds, step.now) && DoPoll(p, x, step) == Ok(y)
    ensures step.token in y.shard.leases
    ensures var lease := y.shard.leases[step.token];
            && lease.epoch == x.owner.value.epoch && lease.activation == x.owner.value.nextActivation + 1 && lease.expires == step.now + step.ttl
            && Leased(x.shard, y.shard, step.token, lease)
            && RightMembers(p, x.shard, step.builds, step.now, lease.members, n)
  {
    var o, expires, selected := Bumped(x.owner.value), step.now + step.ttl, Selected(p, x.shard, step.builds, step.now);
    SelectedRight(p, x.shard, step.builds, step.now, n);
    var granted := Granted(x.shard, step.token, o.epoch, o.nextActivation, expires, selected);
    PollGoesOn(p, x, step, expires);
    NextGrants(p, x, step, o, expires, selected, granted);
    GrantLeased(p, x.shard, step.token, o.epoch, o.nextActivation, expires, selected, granted);
  }
}
