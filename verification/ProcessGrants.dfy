/** Taking a batch out of ready: the scan, the selection, and the one range deletion that stands for many deletions. */
module ProcessGrants {
  import opened Wrappers
  import opened Sequences
  import opened ProcessShard
  import opened ProcessInvariant
  import opened ProcessFinish
  import opened ProcessSteps
  import opened ProcessPartition

  /** A ready entry the poll may take, with its position in the scan. */
  datatype Candidate = Candidate(position: nat, number: nat)

  function Numbers(c: seq<Candidate>): (r: seq<nat>)
    ensures |r| == |c|
    ensures forall i :: 0 <= i < |c| ==> r[i] == c[i].number
  {
    seq(|c|, i requires 0 <= i < |c| => c[i].number)
  }

  ghost predicate FromScan(c: seq<Candidate>, scan: seq<nat>) {
    && (forall i :: 0 <= i < |c| ==> c[i].position < |scan| && scan[c[i].position] == c[i].number)
    && (forall i, j :: 0 <= i < j < |c| ==> c[i].position < c[j].position)
  }

  predicate Contiguous(c: seq<Candidate>) {
    forall i :: 0 <= i < |c| - 1 ==> c[i + 1].position == c[i].position + 1
  }

  lemma {:induction false} ContiguousFromFirst(c: seq<Candidate>, i: nat)
    requires Contiguous(c) && i < |c|
    ensures c[i].position == c[0].position + i
  {
    if i > 0 { ContiguousFromFirst(c, i - 1); }
  }

  lemma RangeAt(all: seq<nat>, c: seq<Candidate>, k: nat, i: nat)
    requires Increasing(all) && k <= |all| && FromScan(c, all[..k]) && Contiguous(c) && c != [] && i < |all|
    ensures c[0].number <= all[i] <= c[|c| - 1].number <==> exists j :: 0 <= j < |c| && c[j].number == all[i]
  {
    var first, last := c[0], c[|c| - 1];
    ContiguousFromFirst(c, |c| - 1);
    assert all[first.position] == first.number && all[last.position] == last.number;
    if first.number <= all[i] <= last.number {
      assert first.position <= i <= last.position;
      var j := i - first.position;
      ContiguousFromFirst(c, j);
      assert c[j].number == all[i];
    } else {
      forall j | 0 <= j < |c| ensures c[j].number != all[i] {
        ContiguousFromFirst(c, j);
        assert all[c[j].position] == c[j].number;
      }
    }
  }

  lemma RangeOf(all: seq<nat>, c: seq<Candidate>, k: nat, n: nat)
    requires Increasing(all) && k <= |all| && FromScan(c, all[..k]) && Contiguous(c) && c != [] && n in all
    ensures c[0].number <= n <= c[|c| - 1].number <==> n in Numbers(c)
  {
    var i :| 0 <= i < |all| && all[i] == n;
    RangeAt(all, c, k, i);
    InNumbers(c, n);
  }

  /** What one range delete leaves. */
  function Outside(ready: Work, first: nat, last: nat): Work {
    map n | n in ready && !(first <= n <= last) :: ready[n]
  }

  /** Entries at adjacent scan positions are all the ready entries between the first and the last. */
  lemma RangeIsSelection(ready: Work, c: seq<Candidate>, k: nat)
    requires k <= |ready.Keys| && FromScan(c, Ascend(ready.Keys)[..k]) && Contiguous(c) && c != []
    ensures Outside(ready, c[0].number, c[|c| - 1].number) == Without(ready, Numbers(c))
  {
    AscendIncreases(ready.Keys);
    forall n | n in ready ensures c[0].number <= n <= c[|c| - 1].number <==> n in Numbers(c) {
      RangeOf(Ascend(ready.Keys), c, k, n);
    }
  }

  lemma InNumbers(c: seq<Candidate>, n: nat)
    ensures n in Numbers(c) <==> exists j :: 0 <= j < |c| && c[j].number == n
  {
    if j :| 0 <= j < |c| && c[j].number == n {
      assert Numbers(c)[j] == n;
    }
  }

  lemma EligibleNext(s: Shard, scan: seq<nat>, i: nat, builds: set<Name>, now: real)
    requires i < |scan| && scan[i] in s.ready
    ensures EligibleAmong(s, scan[..i + 1], builds, now)
         == EligibleAmong(s, scan[..i], builds, now) + if Eligible(s.ready[scan[i]], builds, now) then [scan[i]] else []
  {
    assert scan[..i + 1][..i] == scan[..i] && scan[..i + 1][i] == scan[i];
  }

  lemma OneMoreFound(candidates: seq<Candidate>, scan: seq<nat>, i: nat, n: nat)
    requires i < |scan| && scan[i] == n && FromScan(candidates, scan) && forall j :: 0 <= j < |candidates| ==> candidates[j].position < i
    ensures FromScan(candidates + [Candidate(i, n)], scan)
    ensures Numbers(candidates + [Candidate(i, n)]) == Numbers(candidates) + [n]
  {
  }

  method Scan(s: Shard, builds: set<Name>, now: real) returns (candidates: seq<Candidate>)
    ensures Numbers(candidates) == Candidates(s, builds, now)
    ensures FromScan(candidates, Ascend(s.ready.Keys)[..Min2(READY_SCAN, |s.ready|)])
  {
    var all := Ascend(s.ready.Keys);
    var scan := all[..Min2(READY_SCAN, |all|)];
    candidates := [];
    for i := 0 to |scan|
      invariant Numbers(candidates) == EligibleAmong(s, scan[..i], builds, now)
      invariant FromScan(candidates, scan)
      invariant forall j :: 0 <= j < |candidates| ==> candidates[j].position < i
    {
      var n := scan[i];
      assert n in all;
      EligibleNext(s, scan, i, builds, now);
      if Eligible(s.ready[n], builds, now) {
        OneMoreFound(candidates, scan, i, n);
        candidates := candidates + [Candidate(i, n)];
      }
    }
    assert scan[..|scan|] == scan;
  }

  predicate IsRetry(s: Shard, n: nat) {
    n in s.ready && s.ready[n].attempt > 0
  }

  /** What is chosen, with the selection from the candidates still to come, is the whole selection. */
  ghost predicate Toward(s: Shard, numbers: seq<nat>, i: nat, free: nat, space: nat, chosen: seq<nat>, goal: seq<nat>) {
    i <= |numbers| && chosen + Select(s, numbers[i..], free, space) == goal
  }

  lemma PassOver(s: Shard, numbers: seq<nat>, i: nat, space: nat, next: nat, chosen: seq<nat>, goal: seq<nat>)
    requires i < |numbers| && space > 0 && next == i + 1 && IsRetry(s, numbers[i])
    requires Toward(s, numbers, i, 0, space, chosen, goal)
    ensures Toward(s, numbers, next, 0, space, chosen, goal)
  {
    var rest := numbers[i..];
    assert rest[0] == numbers[i] && rest[1..] == numbers[next..];
  }

  lemma TakeNext(s: Shard, numbers: seq<nat>, i: nat, free: nat, space: nat, next: nat, chosen: seq<nat>, goal: seq<nat>,
                 free': nat, space': nat)
    requires i < |numbers| && next == i + 1 && space == space' + 1
    requires free == if IsRetry(s, numbers[i]) then free' + 1 else free'
    requires Toward(s, numbers, i, free, space, chosen, goal)
    ensures Toward(s, numbers, next, free', space', chosen + [numbers[i]], goal)
  {
    var rest := numbers[i..];
    assert rest[0] == numbers[i] && rest[1..] == numbers[next..];
    var after := Select(s, numbers[next..], free', space');
    assert chosen + ([numbers[i]] + after) == (chosen + [numbers[i]]) + after;
  }

  /** Walks the candidates, passing over retries beyond the free slots, until the batch is full. */
  method Choose(p: Limits, s: Shard, candidates: seq<Candidate>, ghost scan: seq<nat>) returns (selected: seq<Candidate>)
    requires FromScan(candidates, scan) && forall i :: 0 <= i < |candidates| ==> candidates[i].number in s.ready
    ensures Numbers(selected) == Select(s, Numbers(candidates), Monus(p.retryConcurrency, s.retryRunning), BatchRoom(p))
    ensures FromScan(selected, scan)
  {
    var slots, room := Monus(p.retryConcurrency, s.retryRunning), BatchRoom(p);
    var retries := 0;
    selected := [];
    var i := 0;
    ghost var numbers, chosen, free: nat, space: nat := Numbers(candidates), [], slots, room;
    ghost var goal := Select(s, numbers, slots, room);
    assert numbers[0..] == numbers;
    while i < |candidates| && |selected| < room
      invariant 0 <= i <= |candidates| && retries <= slots && |selected| <= room && free == slots - retries && space == room - |selected|
      invariant Toward(s, numbers, i, free, space, chosen, goal)
      invariant Chosen(selected, candidates, scan, i, chosen)
    {
      var c := candidates[i];
      ghost var was, free', space' := i, free, space;
      i := i + 1;
      if s.ready[c.number].attempt > 0 {
        if retries >= slots {
          PassOver(s, numbers, was, space, i, chosen, goal);
          ChosenSkip(selected, candidates, scan, was, chosen, i);
          continue;
        }
        retries := retries + 1;
        free := free - 1;
      }
      space := space - 1;
      TakeNext(s, numbers, was, free', space', i, chosen, goal, free, space);
      ChosenNext(selected, candidates, scan, was, chosen, i);
      selected := selected + [c];
      chosen := chosen + [c.number];
    }
    Arrived(s, numbers, i, free, space, chosen, goal);
  }

  lemma Arrived(s: Shard, numbers: seq<nat>, i: nat, free: nat, space: nat, chosen: seq<nat>, goal: seq<nat>)
    requires Toward(s, numbers, i, free, space, chosen, goal) && (i == |numbers| || space == 0)
    ensures chosen == goal
  {
  }

  /** The selection so far, in scan order and before the candidates still to come. */
  ghost predicate Chosen(selected: seq<Candidate>, candidates: seq<Candidate>, scan: seq<nat>, i: nat, chosen: seq<nat>) {
    FromScan(selected, scan) && FromScan(candidates, scan) && Precedes(selected, candidates, i) && chosen == Numbers(selected)
  }

  lemma ChosenSkip(selected: seq<Candidate>, candidates: seq<Candidate>, scan: seq<nat>, i: nat, chosen: seq<nat>, next: nat)
    requires Chosen(selected, candidates, scan, i, chosen) && next == i + 1
    ensures Chosen(selected, candidates, scan, next, chosen)
  {
  }

  lemma ChosenNext(selected: seq<Candidate>, candidates: seq<Candidate>, scan: seq<nat>, i: nat, chosen: seq<nat>, next: nat)
    requires Chosen(selected, candidates, scan, i, chosen) && i < |candidates| && next == i + 1
    ensures Chosen(selected + [candidates[i]], candidates, scan, next, chosen + [candidates[i].number])
  {
  }

  /** Everything selected so far comes earlier in the scan than the candidates still to come. */
  ghost predicate Precedes(selected: seq<Candidate>, candidates: seq<Candidate>, i: nat) {
    forall a, b :: 0 <= a < |selected| && i <= b < |candidates| ==> selected[a].position < candidates[b].position
  }

  function Grants(ready: Work, token: Name, selected: seq<nat>): map<nat, Grant> {
    map n | n in selected && n in ready :: Grant(token, if ready[n].attempt > 0 then ready[n].(isolatedRetry := true) else ready[n])
  }

  /** Retries that still hold an ordinary slot. */
  function LegacyCount(ready: Work, selected: seq<nat>): nat {
    if selected == [] then 0
    else One(selected[0] in ready && ready[selected[0]].attempt > 0 && !ready[selected[0]].isolatedRetry) + LegacyCount(ready, selected[1..])
  }

  function Without(ready: Work, selected: seq<nat>): Work {
    map n | n in ready && n !in selected :: ready[n]
  }

  /** The shard after a selection moved into the lease as a whole. */
  function Moved(s: Shard, token: Name, selected: seq<nat>): Shard
    requires token in s.leases
  {
    s.(ready := Without(s.ready, selected),
       leased := s.leased + Grants(s.ready, token, selected),
       leases := s.leases[token := s.leases[token].(members := s.leases[token].members + selected)],
       running := Monus(s.running, LegacyCount(s.ready, selected)),
       retryPending := Monus(s.retryPending, RetryCount(s.ready, selected)),
       retryRunning := s.retryRunning + RetryCount(s.ready, selected))
  }

  lemma {:induction false} LegacyCountElsewhere(ready: Work, n: nat, selected: seq<nat>)
    requires forall i :: 0 <= i < |selected| ==> selected[i] != n
    ensures LegacyCount(ready - {n}, selected) == LegacyCount(ready, selected)
  {
    if selected != [] {
      LegacyCountElsewhere(ready, n, selected[1..]);
    }
  }

  /** Granting one by one and moving as a whole are the same. */
  lemma {:induction false} GrantAllMoves(s: Shard, token: Name, selected: seq<nat>)
    requires token in s.leases && Grantable(s, selected)
    ensures GrantAll(s, token, selected) == Moved(s, token, selected)
    decreases |selected|
  {
    if selected == [] {
      assert Without(s.ready, selected) == s.ready;
      assert s.leases[token].members + [] == s.leases[token].members;
    } else {
      var n, rest := selected[0], selected[1..];
      assert selected == [n] + rest;
      GrantableRest(s, token, selected);
      GrantAllMoves(GrantOne(s, token, n), token, rest);
      assert forall i :: 0 <= i < |rest| ==> rest[i] == selected[i + 1];
      MovedOneMore(s, token, n, rest);
    }
  }

  lemma MovedOneMore(s: Shard, token: Name, n: nat, rest: seq<nat>)
    requires token in s.leases && n in s.ready && n !in rest
    ensures Moved(GrantOne(s, token, n), token, rest) == Moved(s, token, [n] + rest)
  {
    var all := [n] + rest;
    assert all[0] == n && all[1..] == rest;
    LegacyCountElsewhere(s.ready, n, rest);
    RetryCountElsewhere(s.ready, n, rest);
    WithoutMore(s.ready, n, rest);
    GrantsMore(s.ready, s.leased, token, n, rest);
    LeaseMore(s.leases, token, n, rest);
  }

  lemma LeaseMore(leases: map<Name, Lease>, token: Name, n: nat, rest: seq<nat>)
    requires token in leases
    ensures var one := leases[token := leases[token].(members := leases[token].members + [n])];
            one[token := one[token].(members := one[token].members + rest)] == leases[token := leases[token].(members := leases[token].members + ([n] + rest))]
  {
    assert (leases[token].members + [n]) + rest == leases[token].members + ([n] + rest);
  }

  lemma WithoutMore(ready: Work, n: nat, rest: seq<nat>)
    ensures Without(ready - {n}, rest) == Without(ready, [n] + rest)
  {
  }

  lemma GrantsMore(ready: Work, leased: map<nat, Grant>, token: Name, n: nat, rest: seq<nat>)
    requires n in ready && n !in rest
    ensures leased[n := Grant(token, if ready[n].attempt > 0 then ready[n].(isolatedRetry := true) else ready[n])] + Grants(ready - {n}, token, rest)
            == leased + Grants(ready, token, [n] + rest)
  {
  }

  lemma {:induction false} CountsAppend(ready: Work, selected: seq<nat>, n: nat)
    ensures RetryCount(ready, selected + [n]) == RetryCount(ready, selected) + One(n in ready && ready[n].attempt > 0)
    ensures LegacyCount(ready, selected + [n]) == LegacyCount(ready, selected) + One(n in ready && ready[n].attempt > 0 && !ready[n].isolatedRetry)
  {
    if selected == [] {
      assert ([] + [n])[1..] == [];
    } else {
      assert (selected + [n])[1..] == selected[1..] + [n];
      CountsAppend(ready, selected[1..], n);
    }
  }
}
