/** Whole transactions of a process shard keep the invariant and never meet a conflicting outcome or output. */
module ProcessSteps {
  import opened Wrappers
  import opened Sequences
  import opened ProcessShard
  import opened ProcessInvariant
  import opened ProcessFinish

  // ---------------------------------------------------------------------------
  // Completing a lease

  lemma LeaseIsStored(p: Limits, s: Shard, token: Name)
    requires Inv(p, s) && token in s.leases
    ensures LeaseStored(s, token)
  {
    assert LeaseOk(token, s.leased, s.leases);
  }

  /** One result of a completion: only a malformed result is refused. */
  lemma FinishOneKeeps(p: Limits, s: Shard, token: Name, item: Item, now: real)
    requires Inv(p, s) && LeaseStored(s, token) && s.leases[token].members != []
    ensures FinishOne(p, s, token, item, now).Ok? <==> !item.Malformed?
    ensures FinishOne(p, s, token, item, now).Ok? ==> Inv(p, FinishOne(p, s, token, item, now).value)
    ensures FinishOne(p, s, token, item, now).Err? ==> FinishOne(p, s, token, item, now).error == InvalidTransition
  {
    var e := s.leased[s.leases[token].members[0]].execution;
    TakeKeeps(p, s, token);
    match item
    case Failure(_) => RetryKeeps(p, TakeFirst(s, token), e, now);
    case Success(next, emit) => CommitKeeps(p, TakeFirst(s, token), e, next, emit);
    case Malformed =>
  }

  predicate WellFormed(items: seq<Item>) {
    forall i :: 0 <= i < |items| ==> !items[i].Malformed?
  }

  lemma {:induction false} FinishAllKeeps(p: Limits, s: Shard, token: Name, items: seq<Item>, now: real)
    requires Inv(p, s) && LeaseStored(s, token) && |s.leases[token].members| == |items|
    ensures FinishAll(p, s, token, items, now).Ok? <==> WellFormed(items)
    ensures FinishAll(p, s, token, items, now).Ok? ==> Inv(p, FinishAll(p, s, token, items, now).value)
    ensures FinishAll(p, s, token, items, now).Err? ==> FinishAll(p, s, token, items, now).error == InvalidTransition
    decreases |items|
  {
    if items != [] {
      FinishOneKeeps(p, s, token, items[0], now);
      WellFormedSplit(items);
      if FinishOne(p, s, token, items[0], now).Ok? {
        FinishKeepsLease(p, s, token, items[0], now);
        FinishAllKeeps(p, FinishOne(p, s, token, items[0], now).value, token, items[1..], now);
      }
    }
  }

  lemma {:induction false} FinishAllEmpties(p: Limits, s: Shard, token: Name, items: seq<Item>, now: real)
    requires LeaseStored(s, token) && |s.leases[token].members| == |items|
    requires FinishAll(p, s, token, items, now).Ok?
    ensures var t := FinishAll(p, s, token, items, now).value;
            t.leases == s.leases[token := s.leases[token].(members := [])]
    decreases |items|
  {
    if items != [] {
      FinishKeepsLease(p, s, token, items[0], now);
      FinishAllEmpties(p, FinishOne(p, s, token, items[0], now).value, token, items[1..], now);
    }
  }

  lemma WellFormedSplit(items: seq<Item>)
    requires items != []
    ensures WellFormed(items) <==> !items[0].Malformed? && WellFormed(items[1..])
  {
    assert items == [items[0]] + items[1..];
  }

  lemma ClosedLeases(leased: map<nat, Grant>, leases: map<Name, Lease>, token: Name)
    requires LeasesOk(leased, leases) && token in leases && leases[token].members == []
    ensures LeasesOk(leased, leases - {token})
  {
    var leases' := leases - {token};
    forall n ensures GrantOk(n, leased, leases') {
      assert GrantOk(n, leased, leases);
    }
    forall other ensures LeaseOk(other, leased, leases') {
      assert LeaseOk(other, leased, leases);
    }
  }

  lemma CloseKeeps(p: Limits, s: Shard, token: Name)
    requires Inv(p, s) && token in s.leases && s.leases[token].members == []
    ensures Inv(p, CloseLease(s, token))
  {
    ClosedLeases(s.leased, s.leases, token);
  }

  /** A completion is accepted exactly when it has one well-formed result for every execution of the lease. */
  lemma CompleteKeeps(p: Limits, s: Shard, token: Name, items: seq<Item>, build: Name, now: real)
    requires GoodLimits(p) && Inv(p, s) && LeaseStored(s, token)
    ensures CompleteLease(p, s, token, items, build, now).Ok? <==> |items| == |s.leases[token].members| && WellFormed(items)
    ensures CompleteLease(p, s, token, items, build, now).Ok? ==> Inv(p, CompleteLease(p, s, token, items, build, now).value)
  {
    if |items| == |s.leases[token].members| {
      FinishAllKeeps(p, s, token, items, now);
      var all := FinishAll(p, s, token, items, now);
      if all.Ok? {
        FinishAllEmpties(p, s, token, items, now);
        CloseKeeps(p, all.value, token);
        DispatchKeeps(p, CloseLease(all.value, token), build, now);
      }
    }
  }

  /** A lost lease is always given back. */
  lemma LoseKeeps(p: Limits, s: Shard, token: Name, build: Name, now: real)
    requires GoodLimits(p) && Inv(p, s) && LeaseStored(s, token)
    ensures LoseLease(p, s, token, build, now).Ok? && Inv(p, LoseLease(p, s, token, build, now).value)
  {
    CompleteKeeps(p, s, token, seq(|s.leases[token].members|, _ => Failure("lost")), build, now);
  }

  lemma ReturnFirstKeeps(p: Limits, s: Shard, token: Name)
    requires Inv(p, s) && LeaseStored(s, token) && s.leases[token].members != []
    ensures Inv(p, ReturnFirst(s, token))
  {
    TakeKeeps(p, s, token);
    PutBackKeeps(p, TakeFirst(s, token), s.leased[s.leases[token].members[0]].execution);
  }

  lemma {:induction false} ReturnAllKeeps(p: Limits, s: Shard, token: Name)
    requires Inv(p, s) && LeaseStored(s, token)
    ensures Inv(p, ReturnAll(s, token))
    decreases |s.leases[token].members|
  {
    if s.leases[token].members == [] {
      CloseKeeps(p, s, token);
    } else {
      ReturnFirstKeeps(p, s, token);
      ReturnKeepsLease(s, token);
      ReturnAllKeeps(p, ReturnFirst(s, token), token);
    }
  }

  lemma {:induction false} ReturnAllCloses(s: Shard, token: Name)
    requires LeaseStored(s, token)
    ensures ReturnAll(s, token).leases == s.leases - {token}
    decreases |s.leases[token].members|
  {
    if s.leases[token].members != [] {
      ReturnKeepsLease(s, token);
      ReturnAllCloses(ReturnFirst(s, token), token);
    }
  }

  // ---------------------------------------------------------------------------
  // Granting

  lemma OpenedLeases(leased: map<nat, Grant>, leases: map<Name, Lease>, token: Name, lease: Lease)
    requires LeasesOk(leased, leases) && token !in leases && lease.members == []
    ensures LeasesOk(leased, leases[token := lease])
  {
    var leases' := leases[token := lease];
    forall n ensures GrantOk(n, leased, leases') {
      assert GrantOk(n, leased, leases);
    }
    forall other ensures LeaseOk(other, leased, leases') {
      assert LeaseOk(other, leased, leases);
    }
  }

  lemma OpenKeeps(p: Limits, s: Shard, token: Name, epoch: nat, activation: nat, expires: real)
    requires Inv(p, s) && token !in s.leases
    ensures Inv(p, OpenLease(s, token, epoch, activation, expires))
  {
    OpenedLeases(s.leased, s.leases, token, Lease(epoch, activation, expires, []));
  }

  lemma GrantFrame(p: Limits, s: Shard, token: Name, n: nat)
    requires n in s.ready && n !in s.leased && token in s.leases && CountsOk(s)
    requires s.ready[n].isolatedRetry <==> s.ready[n].attempt > 0
    requires s.ready[n].attempt > 0 ==> s.retryRunning < p.retryConcurrency
    ensures var t := GrantOne(s, token, n); var lease := s.leases[token];
            && t.nextSequence == s.nextSequence && t.mailbox == s.mailbox && t.dedup == s.dedup && t.outcomes == s.outcomes
            && t.states == s.states && t.outputs == s.outputs && t.quarantine == s.quarantine && t.finalized == s.finalized
            && t.history == s.history && t.activeKeys == s.activeKeys
            && t.running == s.running && Total(t) == Total(s)
            && t.retryRunning == s.retryRunning + One(s.ready[n].attempt > 0)
            && t.ready == s.ready - {n} && t.leased == s.leased[n := Grant(token, s.ready[n])]
            && t.leases == s.leases[token := lease.(members := lease.members + [n])]
            && CountsOk(t)
  {
    HeldAdded(s.leased, n, Grant(token, s.ready[n]));
    FreshAdded(Held(s.leased), n, s.ready[n]);
    FreshRemoved(s.ready, n);
  }

  lemma GrantPlaces(next: nat, mail: set<nat>, ready: Work, leased: map<nat, Grant>, quarantine: set<nat>, done: set<nat>, n: nat, g: Grant)
    requires PlacesOk(next, mail, ready.Keys, leased.Keys, quarantine, done) && n in ready
    ensures PlacesOk(next, mail, (ready - {n}).Keys, leased[n := g].Keys, quarantine, done)
    ensures n !in leased
  {
    var ready', leased' := (ready - {n}).Keys, leased[n := g].Keys;
    assert PlaceOk(n, next, mail, ready.Keys, leased.Keys, quarantine, done);
    forall m ensures PlaceOk(m, next, mail, ready', leased', quarantine, done) {
      assert PlaceOk(m, next, mail, ready.Keys, leased.Keys, quarantine, done);
    }
  }

  lemma GrantLive(ready: Work, leased: map<nat, Grant>, n: nat, token: Name)
    requires n in ready && n !in leased
    ensures Live(ready - {n}, leased[n := Grant(token, ready[n])]) == Live(ready, leased)
    ensures n in Live(ready, leased) && Live(ready, leased)[n] == ready[n]
  {
  }

  lemma GrantLeases(leased: map<nat, Grant>, leases: map<Name, Lease>, token: Name, n: nat, e: Execution)
    requires LeasesOk(leased, leases) && token in leases && n !in leased
    ensures LeasesOk(leased[n := Grant(token, e)], leases[token := leases[token].(members := leases[token].members + [n])])
  {
    var members := leases[token].members;
    var leased', leases' := leased[n := Grant(token, e)], leases[token := leases[token].(members := members + [n])];
    assert (members + [n])[|members|] == n;
    forall m ensures GrantOk(m, leased', leases') {
      assert GrantOk(m, leased, leases);
    }
    forall other ensures LeaseOk(other, leased', leases') {
      assert LeaseOk(other, leased, leases);
    }
  }

  lemma GrantOneKeeps(p: Limits, s: Shard, token: Name, n: nat)
    requires Inv(p, s) && token in s.leases && n in s.ready
    requires s.ready[n].attempt > 0 ==> s.retryRunning < p.retryConcurrency
    ensures Inv(p, GrantOne(s, token, n))
    ensures n !in s.leased && (s.ready[n].isolatedRetry <==> s.ready[n].attempt > 0)
  {
    GrantPlaces(s.nextSequence, s.mailbox.Keys, s.ready, s.leased, s.quarantine.Keys, Done(s.history), n, Grant(token, s.ready[n]));
    GrantLive(s.ready, s.leased, n, token);
    assert LiveAt(p, n, Live(s.ready, s.leased), s.dedup, s.outcomes, s.states);
    GrantFrame(p, s, token, n);
    GrantLeases(s.leased, s.leases, token, n, s.ready[n]);
  }

  function RetryCount(ready: Work, selected: seq<nat>): nat {
    if selected == [] then 0
    else One(selected[0] in ready && ready[selected[0]].attempt > 0) + RetryCount(ready, selected[1..])
  }

  lemma {:induction false} RetryCountElsewhere(ready: Work, n: nat, selected: seq<nat>)
    requires forall i :: 0 <= i < |selected| ==> selected[i] != n
    ensures RetryCount(ready - {n}, selected) == RetryCount(ready, selected)
  {
    if selected != [] {
      RetryCountElsewhere(ready, n, selected[1..]);
    }
  }

  ghost predicate Grantable(s: Shard, selected: seq<nat>) {
    && (forall i :: 0 <= i < |selected| ==> selected[i] in s.ready)
    && (forall i, j :: 0 <= i < j < |selected| ==> selected[i] != selected[j])
  }

  lemma GrantableRest(s: Shard, token: Name, selected: seq<nat>)
    requires selected != [] && token in s.leases && Grantable(s, selected)
    ensures GrantOne(s, token, selected[0]).ready == s.ready - {selected[0]}
    ensures Grantable(GrantOne(s, token, selected[0]), selected[1..])
    ensures RetryCount(s.ready - {selected[0]}, selected[1..]) == RetryCount(s.ready, selected[1..])
  {
    RetryCountElsewhere(s.ready, selected[0], selected[1..]);
  }

  lemma {:induction false} GrantAllKeeps(p: Limits, s: Shard, token: Name, selected: seq<nat>)
    requires Inv(p, s) && token in s.leases && Grantable(s, selected)
    requires s.retryRunning + RetryCount(s.ready, selected) <= p.retryConcurrency
    ensures Inv(p, GrantAll(s, token, selected))
    decreases |selected|
  {
    if selected != [] {
      GrantOneKeeps(p, s, token, selected[0]);
      GrantFrame(p, s, token, selected[0]);
      GrantableRest(s, token, selected);
      GrantAllKeeps(p, GrantOne(s, token, selected[0]), token, selected[1..]);
    }
  }

  // ---------------------------------------------------------------------------
  // Selecting

  lemma {:induction false} EligibleAmongSound(s: Shard, scan: seq<nat>, builds: set<Name>, now: real)
    requires Increasing(scan)
    ensures var c := EligibleAmong(s, scan, builds, now);
            && Increasing(c)
            && (forall n :: n in c <==> n in scan && n in s.ready && Eligible(s.ready[n], builds, now))
  {
    if scan != [] {
      var front, n := scan[..|scan| - 1], scan[|scan| - 1];
      assert scan == front + [n];
      EligibleAmongSound(s, front, builds, now);
      assert forall m :: m in front ==> m < n;
      var rest := EligibleAmong(s, front, builds, now);
      assert forall i :: 0 <= i < |rest| ==> rest[i] in rest;
    }
  }

  ghost predicate Within(selected: seq<nat>, candidates: seq<nat>) {
    forall i :: 0 <= i < |selected| ==> selected[i] in candidates
  }

  lemma TailIncreases(candidates: seq<nat>)
    requires candidates != [] && Increasing(candidates)
    ensures Increasing(candidates[1..]) && Within(candidates[1..], candidates)
    ensures forall n :: n in candidates && n != candidates[0] ==> n in candidates[1..]
  {
    forall n | n in candidates && n != candidates[0] ensures n in candidates[1..] {
      var i :| 0 <= i < |candidates| && candidates[i] == n;
      assert candidates[1..][i - 1] == n;
    }
  }

  lemma WithinAll(selected: seq<nat>, tail: seq<nat>, candidates: seq<nat>)
    requires Within(selected, tail) && Within(tail, candidates)
    ensures Within(selected, candidates)
  {
    forall i | 0 <= i < |selected| ensures selected[i] in candidates {
      var j :| 0 <= j < |tail| && tail[j] == selected[i];
    }
  }

  lemma FrontSound(n: nat, rest: seq<nat>, candidates: seq<nat>)
    requires candidates != [] && candidates[0] == n && Increasing(candidates)
    requires Increasing(rest) && Within(rest, candidates[1..])
    ensures Increasing([n] + rest) && Within([n] + rest, candidates)
  {
    forall j | 0 <= j < |rest| ensures n < rest[j] {
      var k :| 0 <= k < |candidates[1..]| && candidates[1..][k] == rest[j];
      assert candidates[k + 1] == rest[j];
    }
    TailIncreases(candidates);
    WithinAll(rest, candidates[1..], candidates);
  }

  /** The selection keeps the order of the candidates and respects both bounds. */
  lemma {:induction false} SelectSound(s: Shard, candidates: seq<nat>, slots: nat, room: nat)
    requires Increasing(candidates)
    ensures var c := Select(s, candidates, slots, room);
            && Increasing(c) && Within(c, candidates) && |c| <= room && RetryCount(s.ready, c) <= slots
    decreases |candidates|
  {
    if candidates != [] && room > 0 {
      var n, tail := candidates[0], candidates[1..];
      TailIncreases(candidates);
      var retry := n in s.ready && s.ready[n].attempt > 0;
      if retry && slots == 0 {
        SelectSound(s, tail, slots, room);
        WithinAll(Select(s, tail, slots, room), tail, candidates);
      } else {
        var slots', room' := if retry then slots - 1 else slots, room - 1;
        SelectSound(s, tail, slots', room');
        var rest := Select(s, tail, slots', room');
        FrontSound(n, rest, candidates);
        assert ([n] + rest)[1..] == rest && ([n] + rest)[0] == n;
      }
    }
  }

  /** Within the scan, only retries are passed over, and only once every retry slot is taken. */
  lemma {:induction false} SelectFair(s: Shard, candidates: seq<nat>, slots: nat, room: nat, n: nat)
    requires Increasing(candidates) && n in candidates && n !in Select(s, candidates, slots, room)
    ensures var c := Select(s, candidates, slots, room);
            |c| == room || (n in s.ready && s.ready[n].attempt > 0 && RetryCount(s.ready, c) == slots)
    decreases |candidates|
  {
    if room > 0 {
      var first, tail := candidates[0], candidates[1..];
      TailIncreases(candidates);
      var retry := first in s.ready && s.ready[first].attempt > 0;
      if retry && slots == 0 {
        SelectSound(s, candidates, slots, room);
        if n != first {
          SelectFair(s, tail, slots, room, n);
        }
      } else {
        var slots', room' := if retry then slots - 1 else slots, room - 1;
        var rest := Select(s, tail, slots', room');
        assert ([first] + rest)[1..] == rest && ([first] + rest)[0] == first;
        assert n != first && n !in rest;
        SelectFair(s, tail, slots', room', n);
      }
    }
  }

  lemma CandidatesSound(s: Shard, builds: set<Name>, now: real)
    ensures Increasing(Candidates(s, builds, now))
    ensures forall n :: n in Candidates(s, builds, now) ==> n in s.ready && Eligible(s.ready[n], builds, now)
  {
    var all := Ascend(s.ready.Keys);
    AscendIncreases(s.ready.Keys);
    EligibleAmongSound(s, all[..Min2(READY_SCAN, |all|)], builds, now);
  }

  /** The selection lists distinct ready entries that are due, in order, within the free retry slots and the batch size. */
  lemma SelectedSound(p: Limits, s: Shard, builds: set<Name>, now: real)
    ensures var c := Selected(p, s, builds, now);
            && Increasing(c) && Grantable(s, c) && |c| <= BatchRoom(p)
            && (forall n :: n in c ==> n in s.ready && Eligible(s.ready[n], builds, now))
            && RetryCount(s.ready, c) <= Monus(p.retryConcurrency, s.retryRunning)
  {
    CandidatesSound(s, builds, now);
    SelectSound(s, Candidates(s, builds, now), Monus(p.retryConcurrency, s.retryRunning), BatchRoom(p));
    var c := Selected(p, s, builds, now);
    assert forall n :: n in c ==> exists i :: 0 <= i < |c| && c[i] == n;
  }

  /** Ready entries that may be granted together. */
  ghost predicate MayGrant(p: Limits, s: Shard, selected: seq<nat>) {
    Grantable(s, selected) && s.retryRunning + RetryCount(s.ready, selected) <= p.retryConcurrency
  }

  lemma SelectedMayGrant(p: Limits, s: Shard, builds: set<Name>, now: real)
    requires s.retryRunning <= p.retryConcurrency
    ensures MayGrant(p, s, Selected(p, s, builds, now))
  {
    SelectedSound(p, s, builds, now);
  }

  /** Granting a selection under a fresh token. */
  lemma PollKeeps(p: Limits, s: Shard, token: Name, epoch: nat, activation: nat, expires: real, selected: seq<nat>)
    requires Inv(p, s) && token !in s.leases && MayGrant(p, s, selected)
    ensures Grantable(OpenLease(s, token, epoch, activation, expires), selected)
    ensures Inv(p, GrantAll(OpenLease(s, token, epoch, activation, expires), token, selected))
  {
    OpenKeeps(p, s, token, epoch, activation, expires);
    GrantAllKeeps(p, OpenLease(s, token, epoch, activation, expires), token, selected);
  }

  // ---------------------------------------------------------------------------
  // Finality

  lemma FinalizeFields(finalized: set<Name>, active: set<Name>, mailbox: map<nat, Record>, key: Name)
    requires FinalOk(finalized, active, mailbox) && key !in active
    requires forall n :: n in mailbox ==> mailbox[n].key != key
    ensures FinalOk(finalized + {key}, active, mailbox)
  {
    var more := finalized + {key};
    forall k ensures IdleKey(k, more, active) {
      assert IdleKey(k, finalized, active);
    }
    forall n ensures IdleMail(n, more, mailbox) {
      assert IdleMail(n, finalized, mailbox);
    }
  }

  lemma FinalizeKeeps(p: Limits, s: Shard, key: Name)
    requires Inv(p, s) && Finalize(s, key).Ok?
    ensures Inv(p, Finalize(s, key).value) && key in Finalize(s, key).value.finalized
  {
    if key !in s.finalized {
      FinalizeFields(s.finalized, s.activeKeys, s.mailbox, key);
    }
  }
}
