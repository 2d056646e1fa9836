/**
 What becomes of each execution when a lease ends, told by the execution itself: committed, charged one attempt, or given
 back as it was; and which leases a recovery ends.
 */
module ProcessResults {
  import opened Wrappers
  import opened Sequences
  import opened ProcessShard
  import opened ProcessInvariant
  import opened ProcessFinish
  import opened ProcessSteps
  import opened ProcessGrowth
  import opened ProcessPartition
  import opened ProcessRuns
  import Keys

  /** The execution was charged one attempt: it is ready again as a later retry, or given up if that was its last. */
  ghost predicate Charged(p: Limits, ready: Work, quarantine: map<nat, Record>, e: Execution, now: real) {
    if e.attempt + 1 >= p.maxAttempts then Find(quarantine, e.record.sequence) == Some(e.record)
    else Find(ready, e.record.sequence) == Some(Execution(e.record, e.prior, e.build, e.attempt + 1, true, now + Backoff(e.attempt + 1)))
  }

  /** The wait before a retry starts at a tenth of a second and doubles with each attempt, up to five seconds. */
  lemma BackoffDoubles(attempt: nat)
    ensures Backoff(1) == 0.1
    ensures attempt >= 1 ==> Backoff(attempt + 1) == if 2.0 * Backoff(attempt) <= 5.0 then 2.0 * Backoff(attempt) else 5.0
  {
  }

  ghost predicate ReadyKept(n: nat, before: Work, after: Work) {
    n in before ==> n in after && after[n] == before[n]
  }

  ghost predicate GivenUpKept(n: nat, before: map<nat, Record>, after: map<nat, Record>) {
    n in before ==> n in after && after[n] == before[n]
  }

  /** Nothing that is ready or given up is touched. */
  ghost predicate PlacedKept(s: Shard, t: Shard) {
    && (forall n :: ReadyKept(n, s.ready, t.ready))
    && (forall n :: GivenUpKept(n, s.quarantine, t.quarantine))
  }

  lemma PlacedKeptOn(s: Shard, t: Shard, u: Shard)
    requires PlacedKept(s, t) && PlacedKept(t, u)
    ensures PlacedKept(s, u)
  {
    forall n ensures ReadyKept(n, s.ready, u.ready) && GivenUpKept(n, s.quarantine, u.quarantine) {
      assert ReadyKept(n, s.ready, t.ready) && ReadyKept(n, t.ready, u.ready);
      assert GivenUpKept(n, s.quarantine, t.quarantine) && GivenUpKept(n, t.quarantine, u.quarantine);
    }
  }

  lemma ChargedOn(p: Limits, s: Shard, t: Shard, e: Execution, now: real)
    requires Charged(p, s.ready, s.quarantine, e, now) && PlacedKept(s, t)
    ensures Charged(p, t.ready, t.quarantine, e, now)
  {
    assert ReadyKept(e.record.sequence, s.ready, t.ready) && GivenUpKept(e.record.sequence, s.quarantine, t.quarantine);
  }

  // ---------------------------------------------------------------------------
  // One execution

  lemma InHandNowhere(p: Limits, s: Shard, e: Execution)
    requires InHand(p, s, e)
    ensures e.record.sequence !in s.ready && e.record.sequence !in s.quarantine
    ensures (e.isolatedRetry <==> e.attempt > 0) && CountsBut(s, One(e.attempt == 0), One(e.attempt > 0), 0)
  {
    MovedPlaces(s.nextSequence, s.mailbox.Keys, s.ready.Keys, s.leased.Keys, s.quarantine.Keys, Done(s.history), e.record.sequence);
  }

  lemma ChargeFrame(p: Limits, s: Shard, e: Execution, now: real, t: Shard)
    requires e.record.sequence !in s.ready && e.record.sequence !in s.quarantine
    requires (e.isolatedRetry <==> e.attempt > 0) && CountsBut(s, One(e.attempt == 0), One(e.attempt > 0), 0)
    requires RetryOrQuarantine(p, s, e, now) == Ok(t)
    ensures t.leased == s.leased && t.history == s.history
    ensures if e.attempt + 1 >= p.maxAttempts then t.ready == s.ready && t.quarantine == s.quarantine[e.record.sequence := e.record]
            else t.quarantine == s.quarantine && t.ready == s.ready[e.record.sequence := RetryOf(e, now)]
  {
    if e.attempt + 1 >= p.maxAttempts {
      GiveUpFrame(s, e);
    } else {
      RequeueFrame(s, e, now);
    }
  }

  lemma ChargeKeepsPlaced(p: Limits, s: Shard, e: Execution, now: real, t: Shard)
    requires e.record.sequence !in s.ready && e.record.sequence !in s.quarantine
    requires if e.attempt + 1 >= p.maxAttempts then t.ready == s.ready && t.quarantine == s.quarantine[e.record.sequence := e.record]
             else t.quarantine == s.quarantine && t.ready == s.ready[e.record.sequence := RetryOf(e, now)]
    ensures Charged(p, t.ready, t.quarantine, e, now) && PlacedKept(s, t)
  {
    forall n ensures ReadyKept(n, s.ready, t.ready) && GivenUpKept(n, s.quarantine, t.quarantine) {
    }
  }

  lemma CommitPlaced(s: Shard, e: Execution, next: StateValue, emit: Option<Payload>, t: Shard)
    requires Commit(s, e, next, emit) == Ok(t)
    ensures t.leased == s.leased && t.ready == s.ready && t.quarantine == s.quarantine
    ensures t.history == s.history + [Transition(e.record, e.prior, next, emit)]
  {
  }

  lemma SamePlaced(s: Shard, t: Shard)
    requires t.ready == s.ready && t.quarantine == s.quarantine
    ensures PlacedKept(s, t)
  {
    forall n ensures ReadyKept(n, s.ready, t.ready) && GivenUpKept(n, s.quarantine, t.quarantine) {
    }
  }

  /** What one result adds to the history. */
  function Adds(e: Execution, item: Item): seq<Transition> {
    if item.Success? then [Transition(e.record, e.prior, item.next, item.emit)] else []
  }

  lemma FailDoes(p: Limits, s: Shard, u: Shard, e: Execution, now: real, t: Shard)
    requires InHand(p, u, e) && u.ready == s.ready && u.quarantine == s.quarantine && u.history == s.history
    requires RetryOrQuarantine(p, u, e, now) == Ok(t)
    ensures t.leased == u.leased && PlacedKept(s, t) && t.history == s.history && Charged(p, t.ready, t.quarantine, e, now)
  {
    InHandNowhere(p, u, e);
    ChargeFrame(p, u, e, now, t);
    ChargeKeepsPlaced(p, s, e, now, t);
  }

  /** What taking one result does. */
  ghost predicate OneFinished(p: Limits, s: Shard, n: nat, e: Execution, item: Item, now: real, t: Shard) {
    && t.leased == s.leased - {n} && PlacedKept(s, t) && t.history == s.history + Adds(e, item)
    && (item.Failure? ==> Charged(p, t.ready, t.quarantine, e, now))
  }

  lemma CommitDoes(p: Limits, s: Shard, n: nat, u: Shard, e: Execution, item: Item, now: real, t: Shard)
    requires u.ready == s.ready && u.quarantine == s.quarantine && u.history == s.history && u.leased == s.leased - {n}
    requires item.Success? && Ok(t) == Commit(u, e, item.next, item.emit)
    ensures OneFinished(p, s, n, e, item, now, t)
  {
    CommitPlaced(u, e, item.next, item.emit, t);
    SamePlaced(s, t);
  }

  lemma FailTaken(p: Limits, s: Shard, n: nat, u: Shard, e: Execution, item: Item, now: real, t: Shard)
    requires InHand(p, u, e) && u.ready == s.ready && u.quarantine == s.quarantine && u.history == s.history && u.leased == s.leased - {n}
    requires item.Failure? && Ok(t) == RetryOrQuarantine(p, u, e, now)
    ensures OneFinished(p, s, n, e, item, now, t)
  {
    FailDoes(p, s, u, e, now, t);
    FailFinished(p, s, n, e, item, now, t);
  }

  lemma FailFinished(p: Limits, s: Shard, n: nat, e: Execution, item: Item, now: real, t: Shard)
    requires item.Failure? && PlacedKept(s, t) && Charged(p, t.ready, t.quarantine, e, now)
    requires t.leased == s.leased - {n} && t.history == s.history
    ensures OneFinished(p, s, n, e, item, now, t)
  {
    assert s.history + [] == s.history;
  }

  lemma TakenDoes(p: Limits, s: Shard, n: nat, u: Shard, e: Execution, item: Item, now: real, t: Shard)
    requires InHand(p, u, e) && u.ready == s.ready && u.quarantine == s.quarantine && u.history == s.history && u.leased == s.leased - {n}
    requires !item.Malformed? && Ok(t) == if item.Failure? then RetryOrQuarantine(p, u, e, now) else Commit(u, e, item.next, item.emit)
    ensures OneFinished(p, s, n, e, item, now, t)
  {
    if item.Failure? {
      FailTaken(p, s, n, u, e, item, now, t);
    } else {
      CommitDoes(p, s, n, u, e, item, now, t);
    }
  }

  lemma FinishOneIs(p: Limits, s: Shard, token: Name, item: Item, now: real, t: Shard, u: Shard, e: Execution)
    requires token in s.leases && s.leases[token].members != [] && s.leases[token].members[0] in s.leased
    requires FinishOne(p, s, token, item, now) == Ok(t) && u == TakeFirst(s, token) && e == s.leased[s.leases[token].members[0]].execution
    ensures !item.Malformed? && Ok(t) == if item.Failure? then RetryOrQuarantine(p, u, e, now) else Commit(u, e, item.next, item.emit)
  {
  }

  lemma FinishOneDoes(p: Limits, s: Shard, token: Name, item: Item, now: real, t: Shard)
    requires Inv(p, s) && LeaseStored(s, token) && s.leases[token].members != [] && FinishOne(p, s, token, item, now) == Ok(t)
    ensures var n := s.leases[token].members[0]; OneFinished(p, s, n, s.leased[n].execution, item, now, t)
  {
    var n := s.leases[token].members[0];
    var e := s.leased[n].execution;
    var u := TakeFirst(s, token);
    TakeKeeps(p, s, token);
    TakeFrame(s, token);
    FinishOneIs(p, s, token, item, now, t, u, e);
    TakenDoes(p, s, n, u, e, item, now, t);
  }

  // ---------------------------------------------------------------------------
  // A whole lease

  function Executions(s: Shard, token: Name): (r: seq<Execution>)
    requires LeaseStored(s, token)
    ensures |r| == |s.leases[token].members|
    ensures forall i :: 0 <= i < |r| ==> r[i] == s.leased[s.leases[token].members[i]].execution
  {
    seq(|s.leases[token].members|, i requires 0 <= i < |s.leases[token].members| => s.leased[s.leases[token].members[i]].execution)
  }

  /** The transitions that the successful results add, in lease order. */
  function AddsAll(es: seq<Execution>, items: seq<Item>): seq<Transition>
    requires |es| == |items|
  {
    if items == [] then [] else Adds(es[0], items[0]) + AddsAll(es[1..], items[1..])
  }

  ghost predicate ChargedAt(p: Limits, es: seq<Execution>, items: seq<Item>, i: nat, t: Shard, now: real)
    requires |es| == |items|
  {
    i < |items| && items[i].Failure? ==> Charged(p, t.ready, t.quarantine, es[i], now)
  }

  ghost predicate LeasedBut(n: nat, before: map<nat, Grant>, after: map<nat, Grant>, members: seq<nat>) {
    Find(after, n) == if n in members then None else Find(before, n)
  }

  /** What a finished lease leaves: every failed execution charged, every success in the history, nothing else moved. */
  ghost predicate Finished(p: Limits, s: Shard, es: seq<Execution>, members: seq<nat>, items: seq<Item>, now: real, t: Shard)
    requires |es| == |items|
  {
    && PlacedKept(s, t) && t.history == s.history + AddsAll(es, items)
    && (forall i: nat :: ChargedAt(p, es, items, i, t, now))
    && (forall n :: LeasedBut(n, s.leased, t.leased, members))
  }

  lemma FinishedFirst(p: Limits, s: Shard, es: seq<Execution>, members: seq<nat>, items: seq<Item>, now: real, u: Shard, t: Shard)
    requires |es| == |items| == |members| > 0
    requires OneFinished(p, s, members[0], es[0], items[0], now, u)
    requires Finished(p, u, es[1..], members[1..], items[1..], now, t)
    ensures Finished(p, s, es, members, items, now, t)
  {
    PlacedKeptOn(s, u, t);
    forall i: nat ensures ChargedAt(p, es, items, i, t, now) {
      if i == 0 {
        if items[0].Failure? { ChargedOn(p, u, t, es[0], now); }
      } else {
        assert ChargedAt(p, es[1..], items[1..], i - 1, t, now);
      }
    }
    assert members == [members[0]] + members[1..];
    forall n ensures LeasedBut(n, s.leased, t.leased, members) {
      assert LeasedBut(n, u.leased, t.leased, members[1..]);
    }
    assert s.history + (Adds(es[0], items[0]) + AddsAll(es[1..], items[1..])) == (s.history + Adds(es[0], items[0])) + AddsAll(es[1..], items[1..]);
  }

  lemma ExecutionsRest(p: Limits, s: Shard, token: Name, item: Item, now: real, u: Shard)
    requires LeaseStored(s, token) && s.leases[token].members != [] && FinishOne(p, s, token, item, now) == Ok(u)
    requires u.leased == s.leased - {s.leases[token].members[0]}
    ensures LeaseStored(u, token) && u.leases[token].members == s.leases[token].members[1..]
    ensures Executions(u, token) == Executions(s, token)[1..]
  {
    FinishKeepsLease(p, s, token, item, now);
    var members := s.leases[token].members;
    forall i | 0 <= i < |members| - 1 ensures Executions(u, token)[i] == Executions(s, token)[1..][i] {
      assert members[1..][i] == members[i + 1];
    }
  }

  lemma {:induction false} FinishAllDoes(p: Limits, s: Shard, token: Name, items: seq<Item>, now: real, t: Shard)
    requires Inv(p, s) && LeaseStored(s, token) && |s.leases[token].members| == |items| && FinishAll(p, s, token, items, now) == Ok(t)
    ensures Finished(p, s, Executions(s, token), s.leases[token].members, items, now, t)
    decreases |items|
  {
    if items == [] {
      SamePlaced(s, s);
      forall n ensures LeasedBut(n, s.leased, t.leased, s.leases[token].members) {
      }
      assert s.history + [] == s.history;
    } else {
      var u := FinishOne(p, s, token, items[0], now).value;
      FinishOneKeeps(p, s, token, items[0], now);
      FinishOneDoes(p, s, token, items[0], now, u);
      ExecutionsRest(p, s, token, items[0], now, u);
      FinishAllDoes(p, u, token, items[1..], now, t);
      FinishedFirst(p, s, Executions(s, token), s.leases[token].members, items, now, u, t);
    }
  }

  /** Starting waiting events touches nothing that has started. */
  ghost predicate OnlyStarts(s: Shard, t: Shard) {
    && PlacedKept(s, t) && t.quarantine == s.quarantine && t.leased == s.leased && t.leases == s.leases && t.history == s.history
  }

  lemma StartFields(p: Limits, s: Shard, n: nat, build: Name, now: real, t: Shard)
    requires n in s.mailbox && s.mailbox[n].sequence == n && n !in s.ready && t == StartRecord(Dequeue(s, n), s.mailbox[n], build, now)
    ensures OnlyStarts(s, t)
  {
    forall m ensures ReadyKept(m, s.ready, t.ready) && GivenUpKept(m, s.quarantine, t.quarantine) {
    }
  }

  lemma MailNotReady(p: Limits, s: Shard, n: nat)
    requires Inv(p, s) && n in s.mailbox
    ensures s.mailbox[n].sequence == n && n !in s.ready
  {
    assert MailItemOk(n, s.mailbox, s.dedup, s.outcomes);
    assert PlaceOk(n, s.nextSequence, s.mailbox.Keys, s.ready.Keys, s.leased.Keys, s.quarantine.Keys, Done(s.history));
  }

  lemma StartsOne(p: Limits, s: Shard, n: nat, build: Name, now: real, t: Shard)
    requires GoodLimits(p) && Inv(p, s) && n in s.mailbox && t == StartRecord(Dequeue(s, n), s.mailbox[n], build, now)
    requires s.running < p.concurrency && s.mailbox[n].key !in s.activeKeys
    ensures Inv(p, t) && OnlyStarts(s, t)
  {
    MailNotReady(p, s, n);
    StartFields(p, s, n, build, now, t);
    DispatchOneKeeps(p, s, n, build, now);
  }

  lemma OnlyStartsHere(s: Shard)
    ensures OnlyStarts(s, s)
  {
    SamePlaced(s, s);
  }

  lemma OnlyStartsOn(s: Shard, t: Shard, u: Shard)
    requires OnlyStarts(s, t) && OnlyStarts(t, u)
    ensures OnlyStarts(s, u)
  {
    PlacedKeptOn(s, t, u);
  }

  lemma {:induction false} DispatchOnlyStarts(p: Limits, s: Shard, window: seq<nat>, build: Name, now: real, t: Shard)
    requires GoodLimits(p) && Inv(p, s) && t == DispatchWindow(p, s, window, build, now)
    ensures OnlyStarts(s, t)
    decreases |window|
  {
    if window == [] || s.running >= p.concurrency {
      OnlyStartsHere(s);
    } else {
      var n := window[0];
      if n in s.mailbox && s.mailbox[n].key !in s.activeKeys {
        var u := StartRecord(Dequeue(s, n), s.mailbox[n], build, now);
        StartsOne(p, s, n, build, now, u);
        DispatchOnlyStarts(p, u, window[1..], build, now, t);
        OnlyStartsOn(s, u, t);
      } else {
        DispatchOnlyStarts(p, s, window[1..], build, now, t);
      }
    }
  }

  lemma FinishedThen(p: Limits, s: Shard, es: seq<Execution>, members: seq<nat>, items: seq<Item>, now: real, u: Shard, t: Shard)
    requires |es| == |items| && Finished(p, s, es, members, items, now, u) && PlacedKept(u, t)
    requires t.leased == u.leased && t.history == u.history
    ensures Finished(p, s, es, members, items, now, t)
  {
    PlacedKeptOn(s, u, t);
    forall i: nat ensures ChargedAt(p, es, items, i, t, now) {
      assert ChargedAt(p, es, items, i, u, now);
      if i < |items| && items[i].Failure? { ChargedOn(p, u, t, es[i], now); }
    }
    forall n ensures LeasedBut(n, s.leased, t.leased, members) {
      assert LeasedBut(n, s.leased, u.leased, members);
    }
  }

  /** What a completion does with the lease it names, item by item. */
  lemma CompleteDoes(p: Limits, s: Shard, token: Name, items: seq<Item>, build: Name, now: real, t: Shard)
    requires GoodLimits(p) && Inv(p, s) && LeaseStored(s, token) && CompleteLease(p, s, token, items, build, now) == Ok(t)
    ensures |items| == |s.leases[token].members| && t.leases == s.leases - {token}
    ensures Finished(p, s, Executions(s, token), s.leases[token].members, items, now, t)
  {
    var u := FinishAll(p, s, token, items, now).value;
    var v := CloseLease(u, token);
    FinishAllDoes(p, s, token, items, now, u);
    FinishAllKeeps(p, s, token, items, now);
    FinishAllEmpties(p, s, token, items, now);
    CloseKeeps(p, u, token);
    DispatchOnlyStarts(p, v, Window(p, v), build, now, t);
    SamePlaced(u, v);
    PlacedKeptOn(u, v, t);
    FinishedThen(p, s, Executions(s, token), s.leases[token].members, items, now, u, t);
    CompleteLeases(p, s, token, items, build, now);
  }

  // ---------------------------------------------------------------------------
  // Completions

  lemma ItemsWellFormed(items: seq<Item>)
    ensures WellFormed(items) <==> forall i :: 0 <= i < |items| ==> items[i].Failure? || items[i].Success?
  {
  }

  /** A completion is accepted exactly from the live owner, for a lease of its own epoch named rightly, with one good item per execution. */
  lemma CompletesExactlyWhen(p: Limits, x: Partition, step: Step)
    requires GoodLimits(p) && Inv(p, x.shard) && step.Complete?
    ensures DoComplete(p, x, step).Ok? <==>
              && step.token in x.shard.leases
              && var lease := x.shard.leases[step.token];
              && x.owner.Some? && x.owner.value.runtime == step.runtime && x.owner.value.status == Active && x.owner.value.expires > step.now
              && x.owner.value.epoch == lease.epoch && step.epoch == lease.epoch && step.activation == lease.activation
              && |step.items| == |lease.members| && forall i :: 0 <= i < |step.items| ==> step.items[i].Failure? || step.items[i].Success?
  {
    ItemsWellFormed(step.items);
    if step.token in x.shard.leases {
      LeaseIsStored(p, x.shard, step.token);
      CompleteKeeps(p, x.shard, step.token, step.items, step.build, step.now);
    }
  }

  lemma GivenUpOutcome(p: Limits, t: Shard, n: nat)
    requires Inv(p, t) && n in t.quarantine
    ensures Find(t.outcomes, IdOf(t.quarantine[n])) == Some(Outcome(n, Failed, p.maxAttempts, []))
  {
    assert FailedAt(p, n, t.quarantine, t.dedup, t.outcomes);
  }

  lemma ReadyOutcome(p: Limits, t: Shard, n: nat)
    requires Inv(p, t) && n in t.ready
    ensures Find(t.outcomes, IdOf(t.ready[n].record)) == Some(Outcome(n, Pending, t.ready[n].attempt, []))
  {
    var live := Live(t.ready, t.leased);
    ReadyIsLive(t.ready, t.leased, n);
    assert LiveAt(p, n, live, t.dedup, t.outcomes, t.states);
    assert PlaceOk(n, t.nextSequence, t.mailbox.Keys, t.ready.Keys, t.leased.Keys, t.quarantine.Keys, Done(t.history));
    assert n in t.ready.Keys;
  }

  lemma ReadyIsLive(ready: Work, leased: map<nat, Grant>, n: nat)
    requires n in ready
    ensures n in Live(ready, leased) && (n !in leased ==> Live(ready, leased)[n] == ready[n])
  {
  }

  /** The outcome of a charged execution counts one attempt more, and is failed exactly if that was the last. */
  ghost predicate OutcomeCharged(p: Limits, outcomes: Outcomes, e: Execution) {
    Find(outcomes, IdOf(e.record)) ==
    Some(Outcome(e.record.sequence, if e.attempt + 1 < p.maxAttempts then Pending else Failed, e.attempt + 1, []))
  }

  lemma ChargedOutcome(p: Limits, t: Shard, e: Execution, now: real)
    requires Inv(p, t) && Charged(p, t.ready, t.quarantine, e, now) && e.attempt < p.maxAttempts
    ensures OutcomeCharged(p, t.outcomes, e)
  {
    if e.attempt + 1 >= p.maxAttempts {
      GivenUpOutcome(p, t, e.record.sequence);
    } else {
      ReadyOutcome(p, t, e.record.sequence);
    }
  }

  lemma LeasedIsLive(p: Limits, s: Shard, n: nat)
    requires Inv(p, s) && n in s.leased
    ensures ExecutionOk(p, n, s.leased[n].execution, s.dedup, s.outcomes, s.states)
    ensures s.leased[n].token in s.leases && n in s.leases[s.leased[n].token].members
  {
    assert n in Live(s.ready, s.leased) && Live(s.ready, s.leased)[n] == s.leased[n].execution;
    assert LiveAt(p, n, Live(s.ready, s.leased), s.dedup, s.outcomes, s.states);
    assert GrantOk(n, s.leased, s.leases);
  }

  /** A transition in the history is a committed outcome, with the one message that it emitted, if any. */
  lemma CommittedOutcomeIs(p: Limits, t: Shard, x: Transition)
    requires Inv(p, t) && x in t.history
    ensures IdOf(x.record) in t.outcomes && t.outcomes[IdOf(x.record)].status == Committed
    ensures Find(t.outputs, x.record.sequence) ==
            if x.emit.Some? then Some(Message(x.record.key, x.record.eventId, x.record.sequence, x.emit.value)) else None
  {
    var i :| 0 <= i < |t.history| && t.history[i] == x;
    assert CommittedAt(p, i, t.history, t.dedup, t.outcomes, t.outputs);
  }

  lemma {:induction false} AddsEach(es: seq<Execution>, items: seq<Item>, i: nat)
    requires |es| == |items| && i < |items| && items[i].Success?
    ensures Transition(es[i].record, es[i].prior, items[i].next, items[i].emit) in AddsAll(es, items)
    decreases |items|
  {
    if i == 0 {
      assert AddsAll(es, items)[0] == Transition(es[0].record, es[0].prior, items[0].next, items[0].emit);
    } else {
      AddsEach(es[1..], items[1..], i - 1);
    }
  }

  /** The execution's transition was accepted: it is in the history, its outcome is committed, and it sent the one message it emitted, if any. */
  ghost predicate Accepted(t: Shard, e: Execution, next: StateValue, emit: Option<Payload>) {
    && Transition(e.record, e.prior, next, emit) in t.history
    && IdOf(e.record) in t.outcomes && t.outcomes[IdOf(e.record)].status == Committed
    && Find(t.outputs, e.record.sequence) ==
       if emit.Some? then Some(Message(e.record.key, e.record.eventId, e.record.sequence, emit.value)) else None
  }

  /** What becomes of one execution under its result. */
  ghost predicate Settled(p: Limits, t: Shard, e: Execution, item: Item, now: real) {
    && (item.Failure? ==> Charged(p, t.ready, t.quarantine, e, now) && OutcomeCharged(p, t.outcomes, e))
    && (item.Success? ==> Accepted(t, e, item.next, item.emit))
  }

  lemma FinishedSettles(p: Limits, s: Shard, es: seq<Execution>, members: seq<nat>, items: seq<Item>, now: real, t: Shard, i: nat)
    requires |es| == |items| && Finished(p, s, es, members, items, now, t) && Inv(p, t) && i < |items| && es[i].attempt < p.maxAttempts
    ensures Settled(p, t, es[i], items[i], now)
  {
    assert ChargedAt(p, es, items, i, t, now);
    if items[i].Failure? {
      ChargedOutcome(p, t, es[i], now);
    } else if items[i].Success? {
      AddsEach(es, items, i);
      AddedIsThere(s.history, AddsAll(es, items), Transition(es[i].record, es[i].prior, items[i].next, items[i].emit));
      AcceptedIs(p, t, es[i], items[i].next, items[i].emit);
    }
  }

  lemma AcceptedIs(p: Limits, t: Shard, e: Execution, next: StateValue, emit: Option<Payload>)
    requires Inv(p, t) && Transition(e.record, e.prior, next, emit) in t.history
    ensures Accepted(t, e, next, emit)
  {
    CommittedOutcomeIs(p, t, Transition(e.record, e.prior, next, emit));
  }

  lemma AddedIsThere(history: seq<Transition>, added: seq<Transition>, x: Transition)
    requires x in added
    ensures x in history + added
  {
  }

  lemma CompletedLease(p: Limits, s: Shard, token: Name, items: seq<Item>, build: Name, now: real, t: Shard, i: nat)
    requires GoodLimits(p) && Inv(p, s) && LeaseStored(s, token) && CompleteLease(p, s, token, items, build, now) == Ok(t) && i < |items|
    ensures |items| == |s.leases[token].members| && token !in t.leases
    ensures var n := s.leases[token].members[i];
            n !in t.leased && s.leased[n].execution.record.sequence == n && Settled(p, t, s.leased[n].execution, items[i], now)
  {
    CompleteDoes(p, s, token, items, build, now, t);
    CompleteKeeps(p, s, token, items, build, now);
    var members := s.leases[token].members;
    LeasedIsLive(p, s, members[i]);
    assert LeasedBut(members[i], s.leased, t.leased, members);
    FinishedSettles(p, s, Executions(s, token), members, items, now, t, i);
  }

  lemma CompleteIs(p: Limits, x: Partition, step: Step, y: Partition)
    requires Inv(p, x.shard) && step.Complete? && DoComplete(p, x, step) == Ok(y)
    ensures LeaseStored(x.shard, step.token) && CompleteLease(p, x.shard, step.token, step.items, step.build, step.now) == Ok(y.shard)
  {
    LeaseIsStored(p, x.shard, step.token);
  }

  /** What an accepted completion does to the execution of item `i`. */
  lemma CompletedEach(p: Limits, x: Partition, step: Step, y: Partition, i: nat)
    requires GoodLimits(p) && Inv(p, x.shard) && step.Complete? && DoComplete(p, x, step) == Ok(y) && i < |step.items|
    ensures LeaseStored(x.shard, step.token) && |step.items| == |x.shard.leases[step.token].members|
    ensures var n := x.shard.leases[step.token].members[i]; var e := x.shard.leased[n].execution;
            && step.token !in y.shard.leases && n !in y.shard.leased && e.record.sequence == n
            && Settled(p, y.shard, e, step.items[i], step.now)
  {
    CompleteIs(p, x, step, y);
    CompletedLease(p, x.shard, step.token, step.items, step.build, step.now, y.shard, i);
  }

  // ---------------------------------------------------------------------------
  // Recoveries

  ghost predicate LeaseLeft(token: Name, before: Leases, after: Leases, lost: bool) {
    Find(after, token) == if lost then None else Find(before, token)
  }

  /** What a recovery does to the execution that was leased as `n`, and to none if nothing was. */
  ghost predicate GrantLeft(p: Limits, n: nat, s: Shard, t: Shard, lost: bool, now: real) {
    if lost then n !in t.leased && (n in s.leased ==> Charged(p, t.ready, t.quarantine, s.leased[n].execution, now))
    else Find(t.leased, n) == Find(s.leased, n)
  }

  /** The lease is lost: it has run out, or it is an earlier owner's and those are being collected. */
  ghost predicate Over(leases: Leases, token: Name, epoch: nat, orphans: bool, now: real) {
    token in leases && (leases[token].expires <= now || (orphans && leases[token].epoch != epoch))
  }

  /** The execution leased as `n` is under a lease that the recovery ends. */
  ghost predicate Hit(s: Shard, n: nat, tokens: seq<Name>, epoch: nat, orphans: bool, now: real) {
    n in s.leased && s.leased[n].token in tokens && Over(s.leases, s.leased[n].token, epoch, orphans, now)
  }

  lemma LoseDoes(p: Limits, s: Shard, token: Name, build: Name, now: real, t: Shard, n: nat)
    requires GoodLimits(p) && Inv(p, s) && LeaseStored(s, token) && LoseLease(p, s, token, build, now) == Ok(t)
    ensures t.leases == s.leases - {token} && PlacedKept(s, t)
    ensures GrantLeft(p, n, s, t, n in s.leased && s.leased[n].token == token, now)
  {
    var lost := LoseIs(p, s, token, build, now, t);
    CompleteDoes(p, s, token, lost, build, now, t);
    MemberIffToken(p, s, token, n);
    FinishedLoses(p, s, Executions(s, token), s.leases[token].members, lost, now, t, n);
  }

  lemma LoseIs(p: Limits, s: Shard, token: Name, build: Name, now: real, t: Shard) returns (lost: seq<Item>)
    requires LeaseStored(s, token) && LoseLease(p, s, token, build, now) == Ok(t)
    ensures CompleteLease(p, s, token, lost, build, now) == Ok(t) && |lost| == |s.leases[token].members|
    ensures forall i :: 0 <= i < |lost| ==> lost[i].Failure?
  {
    lost := seq(|s.leases[token].members|, _ => Failure("lost"));
  }

  lemma FinishedLoses(p: Limits, s: Shard, es: seq<Execution>, members: seq<nat>, items: seq<Item>, now: real, t: Shard, n: nat)
    requires |es| == |items| == |members| && Finished(p, s, es, members, items, now, t)
    requires forall i :: 0 <= i < |members| ==> members[i] in s.leased && es[i] == s.leased[members[i]].execution && items[i].Failure?
    ensures GrantLeft(p, n, s, t, n in members, now)
  {
    assert LeasedBut(n, s.leased, t.leased, members);
    if n in members {
      var i :| 0 <= i < |members| && members[i] == n;
      assert ChargedAt(p, es, items, i, t, now);
    }
  }

  lemma HitStill(s: Shard, u: Shard, n: nat, first: Name, tokens: seq<Name>, epoch: nat, orphans: bool, now: real)
    requires tokens != [] && tokens[0] == first && u.leases == s.leases - {first} && Find(u.leased, n) == Find(s.leased, n)
    requires n in s.leased ==> s.leased[n].token != first
    ensures Hit(u, n, tokens[1..], epoch, orphans, now) == Hit(s, n, tokens, epoch, orphans, now)
  {
    assert tokens == [first] + tokens[1..];
  }

  lemma LostThen(p: Limits, n: nat, s: Shard, u: Shard, t: Shard, now: real)
    requires GrantLeft(p, n, s, u, true, now) && Find(t.leased, n) == Find(u.leased, n) && PlacedKept(u, t)
    ensures GrantLeft(p, n, s, t, true, now)
  {
    if n in s.leased {
      ChargedOn(p, u, t, s.leased[n].execution, now);
    }
  }

  /** What a recovery does to the lease `token` and to the execution leased as `n`. */
  ghost predicate Recovering(p: Limits, s: Shard, t: Shard, tokens: seq<Name>, epoch: nat, orphans: bool, now: real, token: Name, n: nat) {
    && LeaseLeft(token, s.leases, t.leases, token in tokens && Over(s.leases, token, epoch, orphans, now))
    && GrantLeft(p, n, s, t, Hit(s, n, tokens, epoch, orphans, now), now) && PlacedKept(s, t)
  }

  lemma LostFirst(p: Limits, s: Shard, u: Shard, t: Shard, tokens: seq<Name>, epoch: nat, orphans: bool, now: real, token: Name, n: nat)
    requires tokens != [] && Over(s.leases, tokens[0], epoch, orphans, now)
    requires u.leases == s.leases - {tokens[0]} && PlacedKept(s, u)
    requires GrantLeft(p, n, s, u, n in s.leased && s.leased[n].token == tokens[0], now)
    requires Recovering(p, u, t, tokens[1..], epoch, orphans, now, token, n)
    ensures Recovering(p, s, t, tokens, epoch, orphans, now, token, n)
  {
    var first, rest := tokens[0], tokens[1..];
    assert tokens == [first] + rest;
    PlacedKeptOn(s, u, t);
    if n in s.leased && s.leased[n].token == first {
      LostThen(p, n, s, u, t, now);
    } else {
      HitStill(s, u, n, first, tokens, epoch, orphans, now);
    }
  }

  lemma LeftFirst(p: Limits, s: Shard, t: Shard, tokens: seq<Name>, epoch: nat, orphans: bool, now: real, token: Name, n: nat)
    requires tokens != [] && !Over(s.leases, tokens[0], epoch, orphans, now)
    requires Recovering(p, s, t, tokens[1..], epoch, orphans, now, token, n)
    ensures Recovering(p, s, t, tokens, epoch, orphans, now, token, n)
  {
    assert tokens == [tokens[0]] + tokens[1..];
  }

  lemma LoseFirst(p: Limits, s: Shard, token: Name, build: Name, now: real, n: nat) returns (u: Shard)
    requires GoodLimits(p) && Inv(p, s) && token in s.leases
    ensures LeaseStored(s, token) && LoseLease(p, s, token, build, now) == Ok(u) && Inv(p, u)
    ensures u.leases == s.leases - {token} && PlacedKept(s, u)
    ensures GrantLeft(p, n, s, u, n in s.leased && s.leased[n].token == token, now)
  {
    LeaseIsStored(p, s, token);
    LoseKeeps(p, s, token, build, now);
    u := LoseLease(p, s, token, build, now).value;
    LoseDoes(p, s, token, build, now, u, n);
  }

  lemma {:induction false} RecoverDoes(p: Limits, s: Shard, epoch: nat, orphans: bool, tokens: seq<Name>, build: Name, now: real, t: Shard, token: Name, n: nat)
    requires GoodLimits(p) && Inv(p, s) && t == RecoverLeases(p, s, epoch, orphans, tokens, build, now)
    ensures Recovering(p, s, t, tokens, epoch, orphans, now, token, n)
    decreases |tokens|
  {
    if tokens == [] {
      SamePlaced(s, t);
    } else if Over(s.leases, tokens[0], epoch, orphans, now) {
      var u := LoseFirst(p, s, tokens[0], build, now, n);
      RecoverDoes(p, u, epoch, orphans, tokens[1..], build, now, t, token, n);
      LostFirst(p, s, u, t, tokens, epoch, orphans, now, token, n);
    } else {
      RecoverDoes(p, s, epoch, orphans, tokens[1..], build, now, t, token, n);
      LeftFirst(p, s, t, tokens, epoch, orphans, now, token, n);
    }
  }

  /**
   What a recovery by the owner of `epoch` ends, told by the lease `token` and the execution leased as `n`. A lease is gone
   if and only if it was listed and there, and had run out or was an earlier owner's while those are collected; every other
   lease and what it holds are untouched; and an execution of an ended lease was charged exactly one attempt.
   */
  ghost predicate Recovered(p: Limits, s: Shard, t: Shard, tokens: seq<Name>, epoch: nat, orphans: bool, now: real, token: Name, n: nat) {
    && (token in t.leases <==>
          token in s.leases && !(token in tokens && (s.leases[token].expires <= now || (orphans && s.leases[token].epoch != epoch))))
    && (token in t.leases ==> t.leases[token] == s.leases[token])
    && (n in t.leased ==> n in s.leased && t.leased[n] == s.leased[n])
    && (n in s.leased ==>
          && s.leased[n].token in s.leases && s.leased[n].execution.record.sequence == n
          && var lease, e := s.leases[s.leased[n].token], s.leased[n].execution;
          if s.leased[n].token in tokens && (lease.expires <= now || (orphans && lease.epoch != epoch)) then
            && n !in t.leased && Charged(p, t.ready, t.quarantine, e, now)
            && OutcomeCharged(p, t.outcomes, e)
          else n in t.leased)
  }

  lemma RecoveringMeans(p: Limits, s: Shard, t: Shard, tokens: seq<Name>, epoch: nat, orphans: bool, now: real, token: Name, n: nat)
    requires Recovering(p, s, t, tokens, epoch, orphans, now, token, n)
    requires n in s.leased ==> s.leased[n].token in s.leases && s.leased[n].execution.record.sequence == n
    requires n in s.leased && Hit(s, n, tokens, epoch, orphans, now) ==> OutcomeCharged(p, t.outcomes, s.leased[n].execution)
    ensures Recovered(p, s, t, tokens, epoch, orphans, now, token, n)
  {
  }

  lemma RecoveredOutcome(p: Limits, s: Shard, t: Shard, tokens: seq<Name>, epoch: nat, orphans: bool, now: real, token: Name, n: nat)
    requires Inv(p, s) && Inv(p, t) && Recovering(p, s, t, tokens, epoch, orphans, now, token, n) && n in s.leased
    ensures s.leased[n].token in s.leases && s.leased[n].execution.record.sequence == n
    ensures Hit(s, n, tokens, epoch, orphans, now) ==> OutcomeCharged(p, t.outcomes, s.leased[n].execution)
  {
    LeasedIsLive(p, s, n);
    if Hit(s, n, tokens, epoch, orphans, now) {
      ChargedOutcome(p, t, s.leased[n].execution, now);
    }
  }

  lemma RecoveredShard(p: Limits, s: Shard, epoch: nat, orphans: bool, tokens: seq<Name>, build: Name, now: real, t: Shard, token: Name, n: nat)
    requires GoodLimits(p) && Inv(p, s) && t == RecoverLeases(p, s, epoch, orphans, tokens, build, now)
    ensures Recovered(p, s, t, tokens, epoch, orphans, now, token, n)
  {
    RecoverDoes(p, s, epoch, orphans, tokens, build, now, t, token, n);
    RecoverKeeps(p, s, epoch, orphans, tokens, build, now);
    if n in s.leased {
      RecoveredOutcome(p, s, t, tokens, epoch, orphans, now, token, n);
    }
    RecoveringMeans(p, s, t, tokens, epoch, orphans, now, token, n);
  }

  /** A recovery by the runtime that holds the partition ends exactly what it should; by any other it changes nothing. */
  lemma RecoversExactly(p: Limits, x: Partition, step: Step, y: Partition, token: Name, n: nat)
    requires GoodLimits(p) && Inv(p, x.shard) && step.Recover? && Do(p, x, step) == Ok(y)
    ensures x.owner.Some? && y.owner == x.owner
    ensures if x.owner.value.runtime == step.runtime && x.owner.value.status == Active && x.owner.value.expires > step.now
            then Recovered(p, x.shard, y.shard, step.tokens, x.owner.value.epoch, step.orphans, step.now, token, n)
            else y == x
  {
    if Owns(x.owner.value, step.runtime, step.now) {
      RecoveredShard(p, x.shard, x.owner.value.epoch, step.orphans, step.tokens, step.build, step.now, y.shard, token, n);
    }
  }

  // ---------------------------------------------------------------------------
  // Returns

  /** Nothing but ready, leased and the leases changes, and nothing that is ready. */
  ghost predicate OnlyReturns(s: Shard, t: Shard) {
    && (forall n :: ReadyKept(n, s.ready, t.ready))
    && t.outcomes == s.outcomes && t.history == s.history && t.quarantine == s.quarantine && t.mailbox == s.mailbox && t.states == s.states
  }

  lemma OnlyReturnsOn(s: Shard, t: Shard, u: Shard)
    requires OnlyReturns(s, t) && OnlyReturns(t, u)
    ensures OnlyReturns(s, u)
  {
    forall n ensures ReadyKept(n, s.ready, u.ready) {
      assert ReadyKept(n, s.ready, t.ready) && ReadyKept(n, t.ready, u.ready);
    }
  }

  /** The execution leased as `n` is ready again exactly as it was, if it is to be returned, and still leased otherwise. */
  ghost predicate GivenBack(n: nat, s: Shard, t: Shard, back: bool) {
    if back then n !in t.leased && (n in s.leased ==> Find(t.ready, n) == Some(s.leased[n].execution))
    else Find(t.leased, n) == Find(s.leased, n)
  }

  lemma GivenBackThen(n: nat, s: Shard, u: Shard, t: Shard)
    requires GivenBack(n, s, u, true) && n !in t.leased && OnlyReturns(u, t)
    ensures GivenBack(n, s, t, true)
  {
    assert ReadyKept(n, u.ready, t.ready);
  }

  lemma ReturnFirstFields(s: Shard, u: Shard, e: Execution, t: Shard)
    requires e.record.sequence !in u.ready && t == PutBack(u, e)
    requires (e.isolatedRetry <==> e.attempt > 0) && CountsBut(u, One(e.attempt == 0), One(e.attempt > 0), 0)
    requires u.ready == s.ready && u.outcomes == s.outcomes && u.history == s.history && u.quarantine == s.quarantine && u.mailbox == s.mailbox && u.states == s.states
    ensures OnlyReturns(s, t) && t.leased == u.leased && t.leases == u.leases && Find(t.ready, e.record.sequence) == Some(e)
  {
    PutBackFrame(u, e);
    forall n ensures ReadyKept(n, s.ready, t.ready) {
    }
  }

  lemma ReturnFirstDoes(p: Limits, s: Shard, token: Name, t: Shard)
    requires Inv(p, s) && LeaseStored(s, token) && s.leases[token].members != [] && t == ReturnFirst(s, token)
    ensures var m := s.leases[token].members[0];
            OnlyReturns(s, t) && t.leased == s.leased - {m} && Find(t.ready, m) == Some(s.leased[m].execution)
  {
    var m := s.leases[token].members[0];
    TakeKeeps(p, s, token);
    TakeFrame(s, token);
    LeasedIsLive(p, s, m);
    InHandNowhere(p, TakeFirst(s, token), s.leased[m].execution);
    ReturnFirstFields(s, TakeFirst(s, token), s.leased[m].execution, t);
  }

  lemma {:induction false} ReturnAllDoes(p: Limits, s: Shard, token: Name, t: Shard, n: nat)
    requires Inv(p, s) && LeaseStored(s, token) && t == ReturnAll(s, token)
    ensures OnlyReturns(s, t) && GivenBack(n, s, t, n in s.leases[token].members)
    decreases |s.leases[token].members|
  {
    if s.leases[token].members == [] {
      ClosedOnly(s, token, t);
    } else {
      var u := ReturnFirst(s, token);
      ReturnFirstDoes(p, s, token, u);
      ReturnFirstKeeps(p, s, token);
      ReturnKeepsLease(s, token);
      ReturnAllDoes(p, u, token, t, n);
      ReturnsThen(n, s, u, t, s.leases[token].members);
    }
  }

  lemma ReturnsThen(n: nat, s: Shard, u: Shard, t: Shard, members: seq<nat>)
    requires members != [] && members[0] in s.leased && OnlyReturns(s, u) && OnlyReturns(u, t)
    requires u.leased == s.leased - {members[0]} && Find(u.ready, members[0]) == Some(s.leased[members[0]].execution)
    requires GivenBack(n, u, t, n in members[1..])
    ensures OnlyReturns(s, t) && GivenBack(n, s, t, n in members)
  {
    assert members == [members[0]] + members[1..];
    OnlyReturnsOn(s, u, t);
    if n == members[0] {
      GivenBackThen(n, s, u, t);
    }
  }

  lemma ClosedOnly(s: Shard, token: Name, t: Shard)
    requires t == CloseLease(s, token)
    ensures OnlyReturns(s, t) && t.leased == s.leased
  {
    forall n ensures ReadyKept(n, s.ready, t.ready) {
    }
  }

  lemma ReturnOneLease(p: Limits, s: Shard, token: Name, n: nat) returns (u: Shard)
    requires Inv(p, s) && token in s.leases
    ensures LeaseStored(s, token) && u == ReturnAll(s, token) && Inv(p, u) && u.leases == s.leases - {token}
    ensures OnlyReturns(s, u) && GivenBack(n, s, u, n in s.leased && s.leased[n].token == token)
  {
    LeaseIsStored(p, s, token);
    u := ReturnAll(s, token);
    ReturnAllKeeps(p, s, token);
    ReturnAllCloses(s, token);
    ReturnAllDoes(p, s, token, u, n);
    MemberIffToken(p, s, token, n);
  }

  lemma MemberIffToken(p: Limits, s: Shard, token: Name, n: nat)
    requires Inv(p, s) && token in s.leases
    ensures n in s.leases[token].members <==> n in s.leased && s.leased[n].token == token
  {
    assert LeaseOk(token, s.leased, s.leases);
    if n in s.leases[token].members {
      var i :| 0 <= i < |s.leases[token].members| && s.leases[token].members[i] == n;
    }
    if n in s.leased {
      LeasedIsLive(p, s, n);
    }
  }

  lemma BackThen(n: nat, s: Shard, u: Shard, t: Shard, first: Name, tokens: seq<Name>)
    requires tokens != [] && tokens[0] == first && OnlyReturns(s, u) && OnlyReturns(u, t)
    requires GivenBack(n, s, u, n in s.leased && s.leased[n].token == first)
    requires GivenBack(n, u, t, n in u.leased && u.leased[n].token in tokens[1..])
    ensures OnlyReturns(s, t) && GivenBack(n, s, t, n in s.leased && s.leased[n].token in tokens)
  {
    assert tokens == [first] + tokens[1..];
    OnlyReturnsOn(s, u, t);
    if n in s.leased && s.leased[n].token == first {
      GivenBackThen(n, s, u, t);
    }
  }

  lemma {:induction false} ReturnLeasesDoes(p: Limits, s: Shard, tokens: seq<Name>, t: Shard, n: nat)
    requires Inv(p, s) && t == ReturnLeases(p, s, tokens)
    ensures OnlyReturns(s, t) && GivenBack(n, s, t, n in s.leased && s.leased[n].token in tokens)
    decreases |tokens|
  {
    if tokens == [] {
    } else if tokens[0] in s.leases {
      var u := ReturnOneLease(p, s, tokens[0], n);
      ReturnLeasesDoes(p, u, tokens[1..], t, n);
      BackThen(n, s, u, t, tokens[0], tokens);
    } else {
      ReturnLeasesDoes(p, s, tokens[1..], t, n);
      assert tokens == [tokens[0]] + tokens[1..];
      if n in s.leased {
        LeasedIsLive(p, s, n);
      }
    }
  }

  /** The second commit of a transfer ends every lease and gives each execution back as it was, charging no attempt. */
  lemma ReturnsExactly(p: Limits, x: Partition, step: Step, y: Partition, n: nat)
    requires GoodLimits(p) && Inv(p, x.shard) && step.TransferReturn? && Do(p, x, step) == Ok(y)
    ensures step.handler in x.handoffs && y.owner == x.owner && y.shard.leases == map[]
    ensures n !in y.shard.leased && y.shard.outcomes == x.shard.outcomes && y.shard.history == x.shard.history
    ensures n in x.shard.leased ==> Find(y.shard.ready, n) == Some(x.shard.leased[n].execution)
    ensures n in x.shard.ready ==> Find(y.shard.ready, n) == Some(x.shard.ready[n])
  {
    ReturnIs(p, x, step, y);
    ReturnedShard(p, x.shard, y.shard, n);
  }

  lemma ReturnIs(p: Limits, x: Partition, step: Step, y: Partition)
    requires GoodLimits(p) && Inv(p, x.shard) && step.TransferReturn? && Do(p, x, step) == Ok(y)
    ensures step.handler in x.handoffs && y.owner == x.owner && y.shard == ReturnLeases(p, x.shard, Keys.Sorted(x.shard.leases.Keys))
  {
  }

  lemma ReturnedShard(p: Limits, s: Shard, t: Shard, n: nat)
    requires Inv(p, s) && t == ReturnLeases(p, s, Keys.Sorted(s.leases.Keys))
    ensures t.leases == map[] && t.outcomes == s.outcomes && t.history == s.history && n !in t.leased
    ensures n in s.leased ==> Find(t.ready, n) == Some(s.leased[n].execution)
    ensures n in s.ready ==> Find(t.ready, n) == Some(s.ready[n])
  {
    var all := Keys.Sorted(s.leases.Keys);
    ReturnLeasesDoes(p, s, all, t, n);
    ReturnEverything(p, s);
    if n in s.leased {
      LeasedIsLive(p, s, n);
      assert s.leased[n].token in all;
    }
    assert ReadyKept(n, s.ready, t.ready);
  }
}
