/**
 Counters of a shard never go below zero: wherever the code subtracts and stops at zero, what it subtracts is there.
 The places are the ones between which the invariant, or the invariant with one execution in hand, was proved to hold.
 */
module ProcessExact {
  import opened Wrappers
  import opened Sequences
  import opened ProcessShard
  import opened ProcessInvariant
  import opened ProcessFinish
  import opened ProcessSteps
  import opened ProcessGrants

  /** Starting a waiting event takes one from the pending ones. */
  lemma DequeueExact(p: Limits, s: Shard, n: nat)
    requires Inv(p, s) && n in s.mailbox
    ensures s.pending >= 1 && Dequeue(s, n).pending == s.pending - 1
  {
    assert n in s.mailbox.Keys;
    Counted(s.mailbox.Keys, n);
  }

  lemma Counted(keys: set<nat>, n: nat)
    requires n in keys
    ensures |keys| >= 1
  {
    assert keys == keys - {n} + {n};
  }

  /** A ready retry is counted as pending, and none still holds an ordinary slot. */
  lemma ReadyExact(p: Limits, s: Shard, n: nat)
    requires Inv(p, s) && n in s.ready && s.ready[n].attempt > 0
    ensures s.ready[n].isolatedRetry && s.retryPending >= 1
  {
    assert LiveAt(p, n, Live(s.ready, s.leased), s.dedup, s.outcomes, s.states);
    assert PlaceOk(n, s.nextSequence, s.mailbox.Keys, s.ready.Keys, s.leased.Keys, s.quarantine.Keys, Done(s.history));
    assert n in Retries(s.ready);
    Counted(Retries(s.ready), n);
  }

  lemma {:induction false} RetriesCounted(ready: Work, selected: seq<nat>)
    requires forall i :: 0 <= i < |selected| ==> selected[i] in ready
    requires forall i, j :: 0 <= i < j < |selected| ==> selected[i] != selected[j]
    ensures RetryCount(ready, selected) <= |Retries(ready)|
    decreases |selected|
  {
    if selected != [] {
      var n, rest := selected[0], selected[1..];
      var less := ready - {n};
      assert forall i :: 0 <= i < |rest| ==> rest[i] == selected[i + 1];
      RetriesCounted(less, rest);
      RetryCountElsewhere(ready, n, rest);
      if ready[n].attempt > 0 {
        assert Retries(ready) == Retries(less) + {n};
      } else {
        assert Retries(ready) == Retries(less);
      }
    }
  }

  lemma {:induction false} NoLegacy(p: Limits, s: Shard, selected: seq<nat>)
    requires Inv(p, s) && forall i :: 0 <= i < |selected| ==> selected[i] in s.ready
    ensures LegacyCount(s.ready, selected) == 0
    decreases |selected|
  {
    if selected != [] {
      if s.ready[selected[0]].attempt > 0 { ReadyExact(p, s, selected[0]); }
      NoLegacy(p, s, selected[1..]);
    }
  }

  /** A granted batch takes its retries from the pending ones, within the retry slots, and nothing from the ordinary slots. */
  lemma GrantExact(p: Limits, s: Shard, token: Name, selected: seq<nat>)
    requires Inv(p, s) && token in s.leases
    requires forall i :: 0 <= i < |selected| ==> selected[i] in s.ready
    requires forall i, j :: 0 <= i < j < |selected| ==> selected[i] != selected[j]
    ensures s.retryRunning <= p.retryConcurrency && RetryCount(s.ready, selected) <= s.retryPending
    ensures Moved(s, token, selected).retryPending == s.retryPending - RetryCount(s.ready, selected)
    ensures Moved(s, token, selected).running == s.running
  {
    RetriesCounted(s.ready, selected);
    NoLegacy(p, s, selected);
  }

  /** An execution in hand holds the slot that finishing it frees, whatever becomes of it. */
  lemma ReleaseExact(p: Limits, s: Shard, e: Execution)
    requires InHand(p, s, e)
    ensures e.isolatedRetry ==> s.retryRunning >= 1 && Release(s, true).retryRunning == s.retryRunning - 1
    ensures !e.isolatedRetry ==> s.running >= 1 && Release(s, false).running == s.running - 1
  {
  }

  /** So does one that is put back: only a retry frees a slot, and it is counted there. */
  lemma PutBackExact(p: Limits, s: Shard, e: Execution)
    requires InHand(p, s, e)
    ensures e.attempt > 0 ==> e.isolatedRetry && s.retryRunning >= 1 && PutBack(s, e).retryRunning == s.retryRunning - 1
    ensures PutBack(s, e).running == s.running
  {
  }
}
