/** What a shard never takes back: admissions, terminal outcomes, accepted transitions, messages and finality. */
module ProcessGrowth {
  import opened Wrappers
  import opened Sequences
  import opened ProcessShard
  import opened ProcessInvariant
  import opened ProcessFinish
  import opened ProcessSteps

  ghost predicate EntryKept(id: EventKey, before: Ledger, after: Ledger) {
    id in before ==> id in after && after[id] == before[id]
  }

  /** An outcome keeps its number, its attempts never fall, and once terminal it never changes. */
  ghost predicate OutcomeKept(id: EventKey, before: Outcomes, after: Outcomes) {
    id in before ==>
      && id in after
      && after[id].sequence == before[id].sequence
      && before[id].attempts <= after[id].attempts
      && (before[id].status != Pending ==> after[id] == before[id])
  }

  ghost predicate OutcomesKept(before: Outcomes, after: Outcomes) {
    forall id :: OutcomeKept(id, before, after)
  }

  ghost predicate MessageKept(n: nat, before: map<nat, Message>, after: map<nat, Message>) {
    n in before ==> n in after && after[n] == before[n]
  }

  ghost predicate StateKept(k: Name, finalized: set<Name>, before: map<Name, StateValue>, after: map<Name, StateValue>) {
    k in finalized ==> Find(after, k) == Find(before, k)
  }

  ghost predicate Growth(s: Shard, t: Shard) {
    && s.nextSequence <= t.nextSequence
    && s.history <= t.history
    && s.starts <= t.starts
    && s.finalized <= t.finalized
    && (forall id :: EntryKept(id, s.dedup, t.dedup))
    && OutcomesKept(s.outcomes, t.outcomes)
    && (forall n :: MessageKept(n, s.outputs, t.outputs))
    && (forall k :: StateKept(k, s.finalized, s.states, t.states))
  }

  lemma GrowthHere(s: Shard)
    ensures Growth(s, s)
  {
  }

  lemma GrowthOn(s: Shard, t: Shard, u: Shard)
    requires Growth(s, t) && Growth(t, u)
    ensures Growth(s, u)
  {
    forall id ensures EntryKept(id, s.dedup, u.dedup) && OutcomeKept(id, s.outcomes, u.outcomes) {
      assert EntryKept(id, s.dedup, t.dedup) && EntryKept(id, t.dedup, u.dedup);
      assert OutcomeKept(id, s.outcomes, t.outcomes) && OutcomeKept(id, t.outcomes, u.outcomes);
    }
    forall n ensures MessageKept(n, s.outputs, u.outputs) {
      assert MessageKept(n, s.outputs, t.outputs) && MessageKept(n, t.outputs, u.outputs);
    }
    forall k ensures StateKept(k, s.finalized, s.states, u.states) {
      assert StateKept(k, s.finalized, s.states, t.states) && StateKept(k, t.finalized, t.states, u.states);
    }
  }

  // ---------------------------------------------------------------------------
  // Starting and admitting

  lemma StartGrows(s: Shard, r: Record, build: Name, now: real)
    ensures Growth(s, StartRecord(s, r, build, now))
  {
  }

  lemma EnqueueGrows(s: Shard, r: Record)
    ensures Growth(s, Enqueue(s, r))
  {
  }

  lemma DequeueGrows(s: Shard, n: nat)
    ensures Growth(s, Dequeue(s, n))
  {
  }

  lemma {:induction false} DispatchWindowGrows(p: Limits, s: Shard, window: seq<nat>, build: Name, now: real)
    ensures Growth(s, DispatchWindow(p, s, window, build, now))
    decreases |window|
  {
    if window != [] && s.running < p.concurrency {
      var n := window[0];
      if n in s.mailbox && s.mailbox[n].key !in s.activeKeys {
        var t := Dequeue(s, n);
        var u := StartRecord(t, s.mailbox[n], build, now);
        DequeueGrows(s, n);
        StartGrows(t, s.mailbox[n], build, now);
        GrowthOn(s, t, u);
        DispatchWindowGrows(p, u, window[1..], build, now);
        GrowthOn(s, u, DispatchWindow(p, s, window, build, now));
      } else {
        DispatchWindowGrows(p, s, window[1..], build, now);
      }
    }
  }

  lemma RecordedGrows(s: Shard, r: Record, o: Outcome)
    requires IdOf(r) !in s.dedup && IdOf(r) !in s.outcomes && r.sequence >= s.nextSequence
    ensures Growth(s, Recorded(s, r, o))
  {
  }

  lemma AdmitOneGrows(p: Limits, s: Shard, q: Request, build: Name, now: real)
    requires LedgerOk(s.nextSequence, s.dedup, s.outcomes) && AdmitOne(p, s, q, build, now).Ok?
    ensures Growth(s, AdmitOne(p, s, q, build, now).value)
  {
    AdmitOneSteps(p, s, q, build, now);
    var r := Numbered(s, q);
    if IdOf(r) !in s.dedup {
      assert EntryOk(IdOf(r), s.nextSequence, s.dedup, s.outcomes);
      var t := Recorded(s, r, Unstarted(r));
      RecordedGrows(s, r, Unstarted(r));
      if s.running < p.concurrency && q.key !in s.activeKeys {
        StartGrows(t, r, build, now);
        GrowthOn(s, t, StartRecord(t, r, build, now));
      } else {
        EnqueueGrows(t, r);
        GrowthOn(s, t, Enqueue(t, r));
      }
    }
  }

  lemma {:induction false} AdmitAllGrows(p: Limits, s: Shard, requests: seq<Request>, build: Name, now: real)
    requires GoodLimits(p) && Inv(p, s) && Total(s) + |NewEvents(s, requests)| <= p.capacity
    requires AdmitAll(p, s, requests, build, now).Ok?
    ensures Growth(s, AdmitAll(p, s, requests, build, now).value)
    decreases |requests|
  {
    if requests != [] {
      var front := requests[..|requests| - 1];
      NewEventsShrink(s, requests);
      AdmitAllGrows(p, s, front, build, now);
      AdmitAllKeeps(p, s, front, build, now);
      var t := AdmitAll(p, s, front, build, now).value;
      AdmitOneGrows(p, t, requests[|requests| - 1], build, now);
      GrowthOn(s, t, AdmitAll(p, s, requests, build, now).value);
    }
  }

  lemma AdmitGrows(p: Limits, s: Shard, requests: seq<Request>, build: Name, now: real)
    requires GoodLimits(p) && Inv(p, s) && Admit(p, s, requests, build, now).Ok?
    ensures Growth(s, Admit(p, s, requests, build, now).value)
  {
    var t := AdmitAll(p, s, requests, build, now).value;
    AdmitAllGrows(p, s, requests, build, now);
    if t.pending > 0 {
      DispatchWindowGrows(p, t, Window(p, t), build, now);
      GrowthOn(s, t, Dispatch(p, t, build, now));
    }
  }

  // ---------------------------------------------------------------------------
  // Finishing

  lemma TakeGrows(s: Shard, token: Name)
    requires token in s.leases && s.leases[token].members != []
    ensures Growth(s, TakeFirst(s, token))
  {
  }

  /** The key of an execution in hand is not finalized, and its number has sent no message. */
  lemma InHandOpen(p: Limits, s: Shard, e: Execution)
    requires InHand(p, s, e)
    ensures e.record.key !in s.finalized && e.record.sequence !in s.outputs
  {
    var live := Live(s.ready, s.leased)[e.record.sequence := e];
    assert e.record.sequence in live && live[e.record.sequence].record.key == e.record.key;
    assert KeyOk(e.record.key, live, s.activeKeys);
    assert IdleKey(e.record.key, s.finalized, s.activeKeys);
    CommitBooks(p, s, e, "", None);
  }

  lemma OutcomesGrow(outcomes: Outcomes, e: Execution, o: Outcome)
    requires Find(outcomes, IdOf(e.record)) == Some(Outcome(e.record.sequence, Pending, e.attempt, []))
    requires o.sequence == e.record.sequence && o.attempts >= e.attempt
    ensures OutcomesKept(outcomes, outcomes[IdOf(e.record) := o])
  {
  }

  lemma CommitGrows(p: Limits, s: Shard, e: Execution, next: StateValue, emit: Option<Payload>)
    requires InHand(p, s, e)
    ensures Commit(s, e, next, emit).Ok? && Growth(s, Commit(s, e, next, emit).value)
  {
    InHandOpen(p, s, e);
    CommitKeeps(p, s, e, next, emit);
    OutcomesGrow(s.outcomes, e, CommittedOutcome(e, Emitted(e.record, emit)));
    CommitGrowth(s, e, next, emit);
  }

  lemma CommitGrowth(s: Shard, e: Execution, next: StateValue, emit: Option<Payload>)
    requires e.record.key !in s.finalized && e.record.sequence !in s.outputs && Commit(s, e, next, emit).Ok?
    requires OutcomesKept(s.outcomes, s.outcomes[IdOf(e.record) := CommittedOutcome(e, Emitted(e.record, emit))])
    ensures Growth(s, Commit(s, e, next, emit).value)
  {
  }

  lemma RetryGrows(p: Limits, s: Shard, e: Execution, now: real)
    requires InHand(p, s, e)
    ensures RetryOrQuarantine(p, s, e, now).Ok? && Growth(s, RetryOrQuarantine(p, s, e, now).value)
  {
    RetryKeeps(p, s, e, now);
    OutcomesGrow(s.outcomes, e, FailedOutcome(e));
    OutcomesGrow(s.outcomes, e, RetriedOutcome(e));
    RetryGrowth(p, s, e, now);
  }

  lemma RetryGrowth(p: Limits, s: Shard, e: Execution, now: real)
    requires RetryOrQuarantine(p, s, e, now).Ok?
    requires OutcomesKept(s.outcomes, s.outcomes[IdOf(e.record) := FailedOutcome(e)])
    requires OutcomesKept(s.outcomes, s.outcomes[IdOf(e.record) := RetriedOutcome(e)])
    ensures Growth(s, RetryOrQuarantine(p, s, e, now).value)
  {
    if e.attempt + 1 >= p.maxAttempts {
    } else {
    }
  }

  lemma FinishOneGrows(p: Limits, s: Shard, token: Name, item: Item, now: real)
    requires Inv(p, s) && LeaseStored(s, token) && s.leases[token].members != []
    requires FinishOne(p, s, token, item, now).Ok?
    ensures Growth(s, FinishOne(p, s, token, item, now).value)
  {
    var e := s.leased[s.leases[token].members[0]].execution;
    var t := TakeFirst(s, token);
    TakeKeeps(p, s, token);
    TakeGrows(s, token);
    if item.Failure? {
      RetryGrows(p, t, e, now);
    } else {
      CommitGrows(p, t, e, item.next, item.emit);
    }
    GrowthOn(s, t, FinishOne(p, s, token, item, now).value);
  }

  lemma {:induction false} FinishAllGrows(p: Limits, s: Shard, token: Name, items: seq<Item>, now: real)
    requires Inv(p, s) && LeaseStored(s, token) && |s.leases[token].members| == |items|
    requires FinishAll(p, s, token, items, now).Ok?
    ensures Growth(s, FinishAll(p, s, token, items, now).value)
    decreases |items|
  {
    if items != [] {
      var t := FinishOne(p, s, token, items[0], now).value;
      FinishOneKeeps(p, s, token, items[0], now);
      FinishOneGrows(p, s, token, items[0], now);
      FinishKeepsLease(p, s, token, items[0], now);
      FinishAllGrows(p, t, token, items[1..], now);
      GrowthOn(s, t, FinishAll(p, s, token, items, now).value);
    }
  }

  lemma CloseGrows(s: Shard, token: Name)
    ensures Growth(s, CloseLease(s, token))
  {
  }

  lemma CompleteGrows(p: Limits, s: Shard, token: Name, items: seq<Item>, build: Name, now: real)
    requires GoodLimits(p) && Inv(p, s) && LeaseStored(s, token) && CompleteLease(p, s, token, items, build, now).Ok?
    ensures Growth(s, CompleteLease(p, s, token, items, build, now).value)
  {
    var t := FinishAll(p, s, token, items, now).value;
    var u := CloseLease(t, token);
    FinishAllGrows(p, s, token, items, now);
    CloseGrows(t, token);
    GrowthOn(s, t, u);
    DispatchWindowGrows(p, u, Window(p, u), build, now);
    GrowthOn(s, u, Dispatch(p, u, build, now));
  }

  lemma PutBackGrows(s: Shard, e: Execution)
    ensures Growth(s, PutBack(s, e))
  {
    if e.attempt == 0 {
    } else if e.isolatedRetry {
    } else {
    }
  }

  lemma {:induction false} ReturnAllGrows(s: Shard, token: Name)
    requires LeaseStored(s, token)
    ensures Growth(s, ReturnAll(s, token))
    decreases |s.leases[token].members|
  {
    if s.leases[token].members == [] {
      CloseGrows(s, token);
    } else {
      var e := s.leased[s.leases[token].members[0]].execution;
      TakeGrows(s, token);
      PutBackGrows(TakeFirst(s, token), e);
      GrowthOn(s, TakeFirst(s, token), ReturnFirst(s, token));
      ReturnKeepsLease(s, token);
      ReturnAllGrows(ReturnFirst(s, token), token);
      GrowthOn(s, ReturnFirst(s, token), ReturnAll(s, token));
    }
  }

  // ---------------------------------------------------------------------------
  // Granting and finality

  lemma GrantOneGrows(s: Shard, token: Name, n: nat)
    requires n in s.ready && token in s.leases
    ensures Growth(s, GrantOne(s, token, n))
  {
  }

  lemma {:induction false} GrantAllGrows(s: Shard, token: Name, selected: seq<nat>)
    requires token in s.leases && Grantable(s, selected)
    ensures Growth(s, GrantAll(s, token, selected))
    decreases |selected|
  {
    if selected != [] {
      var t := GrantOne(s, token, selected[0]);
      GrantOneGrows(s, token, selected[0]);
      GrantableRest(s, token, selected);
      GrantAllGrows(t, token, selected[1..]);
      GrowthOn(s, t, GrantAll(s, token, selected));
    }
  }

  lemma PollGrows(s: Shard, token: Name, epoch: nat, activation: nat, expires: real, selected: seq<nat>)
    requires Grantable(s, selected)
    ensures Grantable(OpenLease(s, token, epoch, activation, expires), selected)
    ensures Growth(s, GrantAll(OpenLease(s, token, epoch, activation, expires), token, selected))
  {
    var t := OpenLease(s, token, epoch, activation, expires);
    assert Growth(s, t);
    GrantAllGrows(t, token, selected);
    GrowthOn(s, t, GrantAll(t, token, selected));
  }

  lemma FinalizeGrows(s: Shard, key: Name)
    requires Finalize(s, key).Ok?
    ensures Growth(s, Finalize(s, key).value)
  {
    if key in s.finalized {
    } else {
      assert Growth(s, s.(finalized := s.finalized + {key}));
    }
  }
}
