/** What every transaction of a process shard keeps, and that starting and admitting events keep it. */
module ProcessInvariant {
  import opened Wrappers
  import opened Sequences
  import opened ProcessShard

  type Ledger = map<EventKey, Record>
  type Outcomes = map<EventKey, Outcome>
  type Work = map<nat, Execution>

  ghost predicate GoodLimits(p: Limits) {
    p.concurrency > 0 && p.retryConcurrency > 0 && p.maxAttempts > 0 && p.capacity > 0
  }

  function Held(leased: map<nat, Grant>): Work {
    map n | n in leased :: leased[n].execution
  }

  /** Every execution that has started and not reached its terminal outcome. */
  function Live(ready: Work, leased: map<nat, Grant>): Work {
    ready + Held(leased)
  }

  function Fresh(m: Work): set<nat> {
    set n | n in m && m[n].attempt == 0
  }

  function Retries(m: Work): set<nat> {
    set n | n in m && m[n].attempt > 0
  }

  function Done(history: seq<Transition>): set<nat> {
    set i | 0 <= i < |history| :: history[i].record.sequence
  }

  /** `n` is in exactly one place if it was admitted, and nowhere otherwise. */
  ghost predicate PlaceOk(n: nat, next: nat, mail: set<nat>, ready: set<nat>, leased: set<nat>, quarantine: set<nat>, done: set<nat>) {
    && (n in mail ==> n !in ready && n !in leased && n !in quarantine && n !in done)
    && (n in ready ==> n !in leased && n !in quarantine && n !in done)
    && (n in leased ==> n !in quarantine && n !in done)
    && (n in quarantine ==> n !in done)
    && (1 <= n <= next <==> n in mail || n in ready || n in leased || n in quarantine || n in done)
  }

  ghost predicate PlacesOk(next: nat, mail: set<nat>, ready: set<nat>, leased: set<nat>, quarantine: set<nat>, done: set<nat>) {
    forall n: nat :: PlaceOk(n, next, mail, ready, leased, quarantine, done)
  }

  ghost predicate Known(dedup: Ledger, r: Record) {
    IdOf(r) in dedup && dedup[IdOf(r)] == r
  }

  ghost predicate EntryOk(id: EventKey, next: nat, dedup: Ledger, outcomes: Outcomes) {
    && (id in dedup <==> id in outcomes)
    && (id in dedup ==> IdOf(dedup[id]) == id && 1 <= dedup[id].sequence <= next && outcomes[id].sequence == dedup[id].sequence)
  }

  ghost predicate Apart(a: EventKey, b: EventKey, dedup: Ledger) {
    a in dedup && b in dedup && dedup[a].sequence == dedup[b].sequence ==> a == b
  }

  /** One admitted record and one outcome per event identity. */
  ghost predicate LedgerOk(next: nat, dedup: Ledger, outcomes: Outcomes) {
    && (forall id :: EntryOk(id, next, dedup, outcomes))
    && (forall a, b :: Apart(a, b, dedup))
  }

  ghost predicate MailItemOk(n: nat, mailbox: map<nat, Record>, dedup: Ledger, outcomes: Outcomes) {
    n in mailbox ==>
      && mailbox[n].sequence == n
      && Known(dedup, mailbox[n])
      && Find(outcomes, IdOf(mailbox[n])) == Some(Outcome(n, Pending, 0, []))
  }

  ghost predicate MailOk(mailbox: map<nat, Record>, dedup: Ledger, outcomes: Outcomes) {
    forall n :: MailItemOk(n, mailbox, dedup, outcomes)
  }

  /** A live execution works on its admitted record from the committed state of its key. */
  ghost predicate ExecutionOk(p: Limits, n: nat, e: Execution, dedup: Ledger, outcomes: Outcomes, states: map<Name, StateValue>) {
    && e.record.sequence == n
    && Known(dedup, e.record)
    && Find(outcomes, IdOf(e.record)) == Some(Outcome(n, Pending, e.attempt, []))
    && e.prior == Find(states, e.record.key)
    && (e.isolatedRetry <==> e.attempt > 0)
    && e.attempt < p.maxAttempts
  }

  ghost predicate LiveAt(p: Limits, n: nat, live: Work, dedup: Ledger, outcomes: Outcomes, states: map<Name, StateValue>) {
    n in live ==> ExecutionOk(p, n, live[n], dedup, outcomes, states)
  }

  ghost predicate LiveOk(p: Limits, live: Work, dedup: Ledger, outcomes: Outcomes, states: map<Name, StateValue>) {
    forall n :: LiveAt(p, n, live, dedup, outcomes, states)
  }

  ghost predicate Working(live: Work, key: Name) {
    exists n :: n in live && live[n].record.key == key
  }

  ghost predicate OnePerKey(a: nat, b: nat, live: Work) {
    a in live && b in live && live[a].record.key == live[b].record.key ==> a == b
  }

  ghost predicate KeyOk(k: Name, live: Work, active: set<Name>) {
    k in active <==> Working(live, k)
  }

  /** A key is active exactly while it has a live execution, and it has at most one. */
  ghost predicate ActiveOk(live: Work, active: set<Name>) {
    && (forall a, b :: OnePerKey(a, b, live))
    && (forall k :: KeyOk(k, live, active))
  }

  ghost predicate FailedAt(p: Limits, n: nat, quarantine: map<nat, Record>, dedup: Ledger, outcomes: Outcomes) {
    n in quarantine ==>
      && quarantine[n].sequence == n
      && Known(dedup, quarantine[n])
      && Find(outcomes, IdOf(quarantine[n])) == Some(Outcome(n, Failed, p.maxAttempts, []))
  }

  ghost predicate QuarantineOk(p: Limits, quarantine: map<nat, Record>, dedup: Ledger, outcomes: Outcomes) {
    forall n :: FailedAt(p, n, quarantine, dedup, outcomes)
  }

  /** The state of a key after a history: the last transition of that key. */
  function StateAfter(history: seq<Transition>, key: Name): Option<StateValue> {
    if history == [] then None
    else if history[|history| - 1].record.key == key then Some(history[|history| - 1].next)
    else StateAfter(history[..|history| - 1], key)
  }

  ghost predicate Continues(i: nat, history: seq<Transition>) {
    i < |history| ==> history[i].prior == StateAfter(history[..i], history[i].record.key)
  }

  /** Every accepted transition started from the state its predecessor left, so none is lost. */
  ghost predicate HistoryOk(history: seq<Transition>, states: map<Name, StateValue>) {
    && (forall i: nat :: Continues(i, history))
    && (forall k :: Find(states, k) == StateAfter(history, k))
  }

  /** A committed event has a committed outcome, and exactly the one message its transition emitted, if any. */
  ghost predicate CommittedOk(p: Limits, x: Transition, dedup: Ledger, outcomes: Outcomes, outputs: map<nat, Message>) {
    && Known(dedup, x.record)
    && IdOf(x.record) in outcomes
    && var o := outcomes[IdOf(x.record)];
    && o.sequence == x.record.sequence && o.status == Committed && o.attempts < p.maxAttempts
    && o.outputs == (if x.emit.Some? then [x.record.sequence] else [])
    && Find(outputs, x.record.sequence) == Emitted(x.record, x.emit)
  }

  ghost predicate CommittedAt(p: Limits, i: nat, history: seq<Transition>, dedup: Ledger, outcomes: Outcomes, outputs: map<nat, Message>) {
    i < |history| ==> CommittedOk(p, history[i], dedup, outcomes, outputs)
  }

  ghost predicate DoneOk(p: Limits, history: seq<Transition>, dedup: Ledger, outcomes: Outcomes, outputs: map<nat, Message>) {
    && (forall i: nat :: CommittedAt(p, i, history, dedup, outcomes, outputs))
    && outputs.Keys <= Done(history)
    && |Done(history)| == |history|
  }

  /** The counters count what they stand for, besides executions in hand, and with the `unplaced` events add up to everything admitted. */
  ghost predicate CountsBut(s: Shard, newInHand: nat, retriesInHand: nat, unplaced: nat) {
    && s.pending == |s.mailbox|
    && s.running == |Fresh(s.ready)| + |Fresh(Held(s.leased))| + newInHand
    && s.retryPending == |Retries(s.ready)|
    && s.retryRunning == |Retries(Held(s.leased))| + retriesInHand
    && s.completed == |s.history|
    && s.failed == |s.quarantine|
    && s.nextSequence == s.pending + s.running + s.retryPending + s.retryRunning + s.completed + s.failed + unplaced
  }

  ghost predicate CountsOk(s: Shard) {
    CountsBut(s, 0, 0, 0)
  }

  ghost predicate BoundsOk(p: Limits, s: Shard) {
    && s.running <= p.concurrency
    && s.retryRunning <= p.retryConcurrency
    && Total(s) <= p.capacity
    && s.nextSequence < SEQUENCE_LIMIT
  }

  ghost predicate IdleKey(k: Name, finalized: set<Name>, active: set<Name>) {
    k in finalized ==> k !in active
  }

  ghost predicate IdleMail(n: nat, finalized: set<Name>, mailbox: map<nat, Record>) {
    n in mailbox ==> mailbox[n].key !in finalized
  }

  /** A finalized key has nothing pending and nothing live. */
  ghost predicate FinalOk(finalized: set<Name>, active: set<Name>, mailbox: map<nat, Record>) {
    && (forall k :: IdleKey(k, finalized, active))
    && (forall n :: IdleMail(n, finalized, mailbox))
  }

  ghost predicate GrantOk(n: nat, leased: map<nat, Grant>, leases: map<Name, Lease>) {
    n in leased ==> leased[n].token in leases && n in leases[leased[n].token].members
  }

  ghost predicate LeaseOk(token: Name, leased: map<nat, Grant>, leases: map<Name, Lease>) {
    token in leases ==>
      && (forall i :: 0 <= i < |leases[token].members| ==>
            leases[token].members[i] in leased && leased[leases[token].members[i]].token == token)
      && (forall i, j :: 0 <= i < j < |leases[token].members| ==> leases[token].members[i] != leases[token].members[j])
  }

  /** Every leased execution is listed once, by its own lease. */
  ghost predicate LeasesOk(leased: map<nat, Grant>, leases: map<Name, Lease>) {
    && (forall n :: GrantOk(n, leased, leases))
    && (forall token :: LeaseOk(token, leased, leases))
  }

  ghost predicate Inv(p: Limits, s: Shard) {
    && PlacesOk(s.nextSequence, s.mailbox.Keys, s.ready.Keys, s.leased.Keys, s.quarantine.Keys, Done(s.history))
    && LedgerOk(s.nextSequence, s.dedup, s.outcomes)
    && MailOk(s.mailbox, s.dedup, s.outcomes)
    && LiveOk(p, Live(s.ready, s.leased), s.dedup, s.outcomes, s.states)
    && ActiveOk(Live(s.ready, s.leased), s.activeKeys)
    && QuarantineOk(p, s.quarantine, s.dedup, s.outcomes)
    && DoneOk(p, s.history, s.dedup, s.outcomes, s.outputs)
    && HistoryOk(s.history, s.states)
    && CountsOk(s)
    && BoundsOk(p, s)
    && FinalOk(s.finalized, s.activeKeys, s.mailbox)
    && LeasesOk(s.leased, s.leases)
  }

  lemma EmptyHolds(p: Limits)
    ensures Inv(p, EMPTY)
  {
  }

  // ---------------------------------------------------------------------------
  // Framing: an event's own record and outcome concern no other event

  ghost predicate KeptAt(a: EventKey, dedup: Ledger, dedup': Ledger, outcomes: Outcomes, outcomes': Outcomes) {
    && (a in dedup ==> a in dedup' && dedup'[a] == dedup[a])
    && (a in outcomes ==> a in outcomes' && outcomes'[a] == outcomes[a])
  }

  ghost predicate SameElsewhere(dedup: Ledger, dedup': Ledger, outcomes: Outcomes, outcomes': Outcomes, id: EventKey) {
    forall a :: a != id ==> KeptAt(a, dedup, dedup', outcomes, outcomes')
  }

  /** Changing the record and outcome of an event that is in no place disturbs no placed event. */
  lemma LedgerFramed(p: Limits, mailbox: map<nat, Record>, live: Work, quarantine: map<nat, Record>, history: seq<Transition>, dedup: Ledger, dedup': Ledger, outcomes: Outcomes, outcomes': Outcomes, states: map<Name, StateValue>, outputs: map<nat, Message>, id: EventKey, n: nat)
    requires MailOk(mailbox, dedup, outcomes)
    requires LiveOk(p, live, dedup, outcomes, states)
    requires QuarantineOk(p, quarantine, dedup, outcomes)
    requires DoneOk(p, history, dedup, outcomes, outputs)
    requires SameElsewhere(dedup, dedup', outcomes, outcomes', id)
    requires id in dedup ==> dedup[id].sequence == n
    requires n !in mailbox && n !in live && n !in quarantine && n !in Done(history)
    ensures MailOk(mailbox, dedup', outcomes')
    ensures LiveOk(p, live, dedup', outcomes', states)
    ensures QuarantineOk(p, quarantine, dedup', outcomes')
    ensures DoneOk(p, history, dedup', outcomes', outputs)
  {
    forall m ensures MailItemOk(m, mailbox, dedup', outcomes') {
      assert MailItemOk(m, mailbox, dedup, outcomes);
      if m in mailbox { assert KeptAt(IdOf(mailbox[m]), dedup, dedup', outcomes, outcomes'); }
    }
    forall m ensures LiveAt(p, m, live, dedup', outcomes', states) {
      assert LiveAt(p, m, live, dedup, outcomes, states);
      if m in live { assert KeptAt(IdOf(live[m].record), dedup, dedup', outcomes, outcomes'); }
    }
    forall m ensures FailedAt(p, m, quarantine, dedup', outcomes') {
      assert FailedAt(p, m, quarantine, dedup, outcomes);
      if m in quarantine { assert KeptAt(IdOf(quarantine[m]), dedup, dedup', outcomes, outcomes'); }
    }
    forall i: nat ensures CommittedAt(p, i, history, dedup', outcomes', outputs) {
      assert CommittedAt(p, i, history, dedup, outcomes, outputs);
      if i < |history| {
        assert history[i].record.sequence in Done(history);
        assert KeptAt(IdOf(history[i].record), dedup, dedup', outcomes, outcomes');
      }
    }
  }

  // ---------------------------------------------------------------------------
  // Counting

  lemma FreshAdded(m: Work, n: nat, e: Execution)
    requires n !in m
    ensures |Fresh(m[n := e])| == |Fresh(m)| + (if e.attempt == 0 then 1 else 0)
    ensures |Retries(m[n := e])| == |Retries(m)| + (if e.attempt > 0 then 1 else 0)
  {
    if e.attempt == 0 {
      assert Fresh(m[n := e]) == Fresh(m) + {n};
      assert Retries(m[n := e]) == Retries(m);
    } else {
      assert Fresh(m[n := e]) == Fresh(m);
      assert Retries(m[n := e]) == Retries(m) + {n};
    }
  }

  lemma FreshRemoved(m: Work, n: nat)
    requires n in m
    ensures |Fresh(m - {n})| == |Fresh(m)| - (if m[n].attempt == 0 then 1 else 0)
    ensures |Retries(m - {n})| == |Retries(m)| - (if m[n].attempt > 0 then 1 else 0)
  {
    if m[n].attempt == 0 {
      assert Fresh(m - {n}) == Fresh(m) - {n};
      assert Retries(m - {n}) == Retries(m);
    } else {
      assert Fresh(m - {n}) == Fresh(m);
      assert Retries(m - {n}) == Retries(m) - {n};
    }
  }

  lemma HeldAdded(leased: map<nat, Grant>, n: nat, g: Grant)
    ensures Held(leased[n := g]) == Held(leased)[n := g.execution]
  {
  }

  lemma HeldRemoved(leased: map<nat, Grant>, n: nat)
    ensures Held(leased - {n}) == Held(leased) - {n}
  {
  }

  // ---------------------------------------------------------------------------
  // Adding, removing and replacing one live execution

  lemma LiveAdded(p: Limits, live: Work, n: nat, e: Execution, dedup: Ledger, outcomes: Outcomes, states: map<Name, StateValue>)
    requires LiveOk(p, live, dedup, outcomes, states)
    requires ExecutionOk(p, n, e, dedup, outcomes, states)
    ensures LiveOk(p, live[n := e], dedup, outcomes, states)
  {
    var next := live[n := e];
    forall m ensures LiveAt(p, m, next, dedup, outcomes, states) {
      assert LiveAt(p, m, live, dedup, outcomes, states);
    }
  }

  lemma LiveRemoved(p: Limits, live: Work, n: nat, dedup: Ledger, outcomes: Outcomes, states: map<Name, StateValue>)
    requires LiveOk(p, live, dedup, outcomes, states)
    ensures LiveOk(p, live - {n}, dedup, outcomes, states)
  {
    var rest := live - {n};
    forall m ensures LiveAt(p, m, rest, dedup, outcomes, states) {
      assert LiveAt(p, m, live, dedup, outcomes, states);
    }
  }

  lemma ActiveAdded(live: Work, active: set<Name>, n: nat, e: Execution)
    requires ActiveOk(live, active) && n !in live && e.record.key !in active
    ensures ActiveOk(live[n := e], active + {e.record.key})
  {
    var next := live[n := e];
    assert KeyOk(e.record.key, live, active);
    assert forall m :: m in live ==> m in next && next[m] == live[m];
    forall a, b ensures OnePerKey(a, b, next) {
      assert OnePerKey(a, b, live);
    }
    var more := active + {e.record.key};
    forall k ensures KeyOk(k, next, more) {
      assert KeyOk(k, live, active);
      if k == e.record.key { assert next[n].record.key == k; }
    }
  }

  lemma ActiveRemoved(live: Work, active: set<Name>, n: nat)
    requires ActiveOk(live, active) && n in live
    ensures ActiveOk(live - {n}, active - {live[n].record.key})
  {
    var rest := live - {n};
    assert forall m :: m in rest ==> m in live && rest[m] == live[m];
    forall a, b ensures OnePerKey(a, b, rest) {
      assert OnePerKey(a, b, live);
    }
    var others := active - {live[n].record.key};
    forall k ensures KeyOk(k, rest, others) {
      assert KeyOk(k, live, active);
      if Working(live, k) {
        var m :| m in live && live[m].record.key == k;
        assert OnePerKey(m, n, live);
        if m != n { assert m in rest && rest[m].record.key == k; }
      }
      if Working(rest, k) {
        var m :| m in rest && rest[m].record.key == k;
        assert OnePerKey(m, n, live);
      }
    }
  }

  lemma ActiveReplaced(live: Work, active: set<Name>, n: nat, e: Execution)
    requires ActiveOk(live, active) && n in live && e.record.key == live[n].record.key
    ensures ActiveOk(live[n := e], active)
  {
    var next := live[n := e];
    assert forall m :: m in live <==> m in next;
    assert forall m :: m in live ==> next[m].record.key == live[m].record.key;
    forall a, b ensures OnePerKey(a, b, next) {
      assert OnePerKey(a, b, live);
    }
    forall k ensures KeyOk(k, next, active) {
      assert KeyOk(k, live, active);
    }
  }

  lemma LiveWithReady(ready: Work, leased: map<nat, Grant>, n: nat, e: Execution)
    requires n !in leased
    ensures Live(ready[n := e], leased) == Live(ready, leased)[n := e]
  {
  }

  // ---------------------------------------------------------------------------
  // Starting an admitted event

  /** An admitted record that is in no place yet. */
  ghost predicate Unplaced(p: Limits, s: Shard, r: Record) {
    && PlacesOk(s.nextSequence, s.mailbox.Keys + {r.sequence}, s.ready.Keys, s.leased.Keys, s.quarantine.Keys, Done(s.history))
    && r.sequence !in s.mailbox
    && Known(s.dedup, r)
    && Find(s.outcomes, IdOf(r)) == Some(Outcome(r.sequence, Pending, 0, []))
    && r.key !in s.finalized
    && LedgerOk(s.nextSequence, s.dedup, s.outcomes)
    && MailOk(s.mailbox, s.dedup, s.outcomes)
    && LiveOk(p, Live(s.ready, s.leased), s.dedup, s.outcomes, s.states)
    && ActiveOk(Live(s.ready, s.leased), s.activeKeys)
    && QuarantineOk(p, s.quarantine, s.dedup, s.outcomes)
    && DoneOk(p, s.history, s.dedup, s.outcomes, s.outputs)
    && HistoryOk(s.history, s.states)
    && CountsBut(s, 0, 0, 1)
    && s.running <= p.concurrency && s.retryRunning <= p.retryConcurrency
    && Total(s) < p.capacity && s.nextSequence < SEQUENCE_LIMIT
    && FinalOk(s.finalized, s.activeKeys, s.mailbox)
    && LeasesOk(s.leased, s.leases)
  }

  /** Nothing but readiness, activity and the running count changes when an event starts. */
  lemma StartFrame(s: Shard, r: Record, build: Name, now: real)
    ensures var t := StartRecord(s, r, build, now);
            && t.nextSequence == s.nextSequence && t.mailbox == s.mailbox && t.leased == s.leased && t.leases == s.leases
            && t.dedup == s.dedup && t.outcomes == s.outcomes && t.states == s.states && t.outputs == s.outputs
            && t.quarantine == s.quarantine && t.finalized == s.finalized && t.history == s.history
            && t.running == s.running + 1 && t.retryRunning == s.retryRunning && Total(t) == Total(s) + 1
            && t.ready == s.ready[r.sequence := Execution(r, Find(s.states, r.key), build, 0, false, now)]
            && t.activeKeys == s.activeKeys + {r.key}
  {
  }

  lemma StartCounts(s: Shard, r: Record, build: Name, now: real)
    requires r.sequence !in s.ready && CountsBut(s, 0, 0, 1)
    ensures CountsOk(StartRecord(s, r, build, now))
  {
    FreshAdded(s.ready, r.sequence, Execution(r, Find(s.states, r.key), build, 0, false, now));
  }

  lemma StartPlaces(s: Shard, r: Record, build: Name, now: real)
    requires PlacesOk(s.nextSequence, s.mailbox.Keys + {r.sequence}, s.ready.Keys, s.leased.Keys, s.quarantine.Keys, Done(s.history))
    requires r.sequence !in s.mailbox
    ensures var t := StartRecord(s, r, build, now);
            PlacesOk(t.nextSequence, t.mailbox.Keys, t.ready.Keys, t.leased.Keys, t.quarantine.Keys, Done(t.history))
    ensures r.sequence !in Live(s.ready, s.leased) && r.sequence !in s.ready && r.sequence !in s.leased
  {
    var t := StartRecord(s, r, build, now);
    assert PlaceOk(r.sequence, s.nextSequence, s.mailbox.Keys + {r.sequence}, s.ready.Keys, s.leased.Keys, s.quarantine.Keys, Done(s.history));
    forall n ensures PlaceOk(n, t.nextSequence, t.mailbox.Keys, t.ready.Keys, t.leased.Keys, t.quarantine.Keys, Done(t.history)) {
      assert PlaceOk(n, s.nextSequence, s.mailbox.Keys + {r.sequence}, s.ready.Keys, s.leased.Keys, s.quarantine.Keys, Done(s.history));
    }
  }

  lemma StartWork(p: Limits, s: Shard, r: Record, build: Name, now: real)
    requires LiveOk(p, Live(s.ready, s.leased), s.dedup, s.outcomes, s.states) && ActiveOk(Live(s.ready, s.leased), s.activeKeys)
    requires Known(s.dedup, r) && Find(s.outcomes, IdOf(r)) == Some(Outcome(r.sequence, Pending, 0, []))
    requires p.maxAttempts > 0 && r.sequence !in Live(s.ready, s.leased) && r.sequence !in s.leased && r.key !in s.activeKeys
    ensures var t := StartRecord(s, r, build, now);
            LiveOk(p, Live(t.ready, t.leased), t.dedup, t.outcomes, t.states) && ActiveOk(Live(t.ready, t.leased), t.activeKeys)
  {
    var e := Execution(r, Find(s.states, r.key), build, 0, false, now);
    LiveWithReady(s.ready, s.leased, r.sequence, e);
    LiveAdded(p, Live(s.ready, s.leased), r.sequence, e, s.dedup, s.outcomes, s.states);
    ActiveAdded(Live(s.ready, s.leased), s.activeKeys, r.sequence, e);
  }

  lemma StartFinal(finalized: set<Name>, active: set<Name>, mailbox: map<nat, Record>, key: Name)
    requires FinalOk(finalized, active, mailbox) && key !in finalized
    ensures FinalOk(finalized, active + {key}, mailbox)
  {
    var now := active + {key};
    forall k ensures IdleKey(k, finalized, now) {
      assert IdleKey(k, finalized, active);
    }
  }

  lemma StartKeeps(p: Limits, s: Shard, r: Record, build: Name, now: real)
    requires GoodLimits(p) && Unplaced(p, s, r)
    requires s.running < p.concurrency && r.key !in s.activeKeys
    ensures Inv(p, StartRecord(s, r, build, now))
  {
    StartFrame(s, r, build, now);
    StartPlaces(s, r, build, now);
    StartCounts(s, r, build, now);
    StartWork(p, s, r, build, now);
    StartFinal(s.finalized, s.activeKeys, s.mailbox, r.key);
  }

  lemma EnqueueFields(mailbox: map<nat, Record>, dedup: Ledger, outcomes: Outcomes, finalized: set<Name>, active: set<Name>, r: Record)
    requires MailOk(mailbox, dedup, outcomes) && FinalOk(finalized, active, mailbox) && r.key !in finalized
    requires Known(dedup, r) && Find(outcomes, IdOf(r)) == Some(Outcome(r.sequence, Pending, 0, []))
    ensures MailOk(mailbox[r.sequence := r], dedup, outcomes) && FinalOk(finalized, active, mailbox[r.sequence := r])
    ensures mailbox[r.sequence := r].Keys == mailbox.Keys + {r.sequence}
  {
    var next := mailbox[r.sequence := r];
    forall n ensures MailItemOk(n, next, dedup, outcomes) && IdleMail(n, finalized, next) {
      assert MailItemOk(n, mailbox, dedup, outcomes) && IdleMail(n, finalized, mailbox);
    }
  }

  lemma EnqueueFrame(s: Shard, r: Record)
    ensures var t := Enqueue(s, r);
            && t.nextSequence == s.nextSequence && t.ready == s.ready && t.leased == s.leased && t.leases == s.leases
            && t.dedup == s.dedup && t.outcomes == s.outcomes && t.states == s.states && t.outputs == s.outputs
            && t.quarantine == s.quarantine && t.finalized == s.finalized && t.history == s.history
            && t.running == s.running && t.retryRunning == s.retryRunning && Total(t) == Total(s) + 1
            && t.activeKeys == s.activeKeys && t.mailbox == s.mailbox[r.sequence := r]
    ensures r.sequence !in s.mailbox && CountsBut(s, 0, 0, 1) ==> CountsOk(Enqueue(s, r))
  {
  }

  lemma EnqueueKeeps(p: Limits, s: Shard, r: Record)
    requires GoodLimits(p) && Unplaced(p, s, r)
    ensures Inv(p, Enqueue(s, r))
  {
    EnqueueFrame(s, r);
    EnqueueFields(s.mailbox, s.dedup, s.outcomes, s.finalized, s.activeKeys, r);
  }

  lemma DequeueFields(mailbox: map<nat, Record>, dedup: Ledger, outcomes: Outcomes, finalized: set<Name>, active: set<Name>, n: nat)
    requires MailOk(mailbox, dedup, outcomes) && FinalOk(finalized, active, mailbox) && n in mailbox
    ensures MailOk(mailbox - {n}, dedup, outcomes) && FinalOk(finalized, active, mailbox - {n})
    ensures (mailbox - {n}).Keys + {n} == mailbox.Keys && |mailbox - {n}| == |mailbox| - 1
    ensures mailbox[n].key !in finalized && mailbox[n].sequence == n && Known(dedup, mailbox[n])
    ensures Find(outcomes, IdOf(mailbox[n])) == Some(Outcome(n, Pending, 0, []))
  {
    var rest := mailbox - {n};
    assert rest.Keys == mailbox.Keys - {n};
    assert MailItemOk(n, mailbox, dedup, outcomes) && IdleMail(n, finalized, mailbox);
    forall m ensures MailItemOk(m, rest, dedup, outcomes) && IdleMail(m, finalized, rest) {
      assert MailItemOk(m, mailbox, dedup, outcomes) && IdleMail(m, finalized, mailbox);
    }
  }

  lemma DequeueFrame(s: Shard, n: nat)
    requires n in s.mailbox && CountsOk(s)
    ensures var t := Dequeue(s, n);
            && t.nextSequence == s.nextSequence && t.ready == s.ready && t.leased == s.leased && t.leases == s.leases
            && t.dedup == s.dedup && t.outcomes == s.outcomes && t.states == s.states && t.outputs == s.outputs
            && t.quarantine == s.quarantine && t.finalized == s.finalized && t.history == s.history
            && t.running == s.running && t.retryRunning == s.retryRunning && Total(t) == Total(s) - 1
            && t.activeKeys == s.activeKeys && t.mailbox == s.mailbox - {n}
    ensures CountsBut(Dequeue(s, n), 0, 0, 1)
  {
    assert n in s.mailbox.Keys;
    assert (s.mailbox - {n}).Keys == s.mailbox.Keys - {n};
  }

  lemma DequeueKeeps(p: Limits, s: Shard, n: nat)
    requires Inv(p, s) && n in s.mailbox
    ensures Unplaced(p, Dequeue(s, n), s.mailbox[n]) && s.mailbox[n].sequence == n
  {
    DequeueFrame(s, n);
    DequeueFields(s.mailbox, s.dedup, s.outcomes, s.finalized, s.activeKeys, n);
  }

  /** Taking the oldest startable mailbox item into ready. */
  lemma DispatchOneKeeps(p: Limits, s: Shard, n: nat, build: Name, now: real)
    requires GoodLimits(p) && Inv(p, s) && n in s.mailbox
    requires s.running < p.concurrency && s.mailbox[n].key !in s.activeKeys
    ensures Inv(p, StartRecord(Dequeue(s, n), s.mailbox[n], build, now))
  {
    DequeueKeeps(p, s, n);
    StartKeeps(p, Dequeue(s, n), s.mailbox[n], build, now);
  }

  lemma {:induction false} DispatchWindowKeeps(p: Limits, s: Shard, window: seq<nat>, build: Name, now: real)
    requires GoodLimits(p) && Inv(p, s)
    ensures Inv(p, DispatchWindow(p, s, window, build, now))
    decreases |window|
  {
    if window != [] && s.running < p.concurrency {
      var n := window[0];
      if n in s.mailbox && s.mailbox[n].key !in s.activeKeys {
        DispatchOneKeeps(p, s, n, build, now);
        DispatchWindowKeeps(p, StartRecord(Dequeue(s, n), s.mailbox[n], build, now), window[1..], build, now);
      } else {
        DispatchWindowKeeps(p, s, window[1..], build, now);
      }
    }
  }

  lemma DispatchKeeps(p: Limits, s: Shard, build: Name, now: real)
    requires GoodLimits(p) && Inv(p, s)
    ensures Inv(p, Dispatch(p, s, build, now))
  {
    DispatchWindowKeeps(p, s, Window(p, s), build, now);
  }

  // ---------------------------------------------------------------------------
  // Admitting

  function Numbered(s: Shard, q: Request): Record {
    Record(s.nextSequence + 1, q.key, q.eventId, q.body)
  }

  function Unstarted(r: Record): Outcome {
    Outcome(r.sequence, Pending, 0, [])
  }

  lemma RecordedLedger(next: nat, dedup: Ledger, outcomes: Outcomes, r: Record, o: Outcome)
    requires LedgerOk(next, dedup, outcomes) && IdOf(r) !in dedup && r.sequence == next + 1 && o.sequence == r.sequence
    ensures LedgerOk(next + 1, dedup[IdOf(r) := r], outcomes[IdOf(r) := o])
    ensures SameElsewhere(dedup, dedup[IdOf(r) := r], outcomes, outcomes[IdOf(r) := o], IdOf(r))
  {
    var dedup', outcomes', next' := dedup[IdOf(r) := r], outcomes[IdOf(r) := o], next + 1;
    forall a ensures EntryOk(a, next', dedup', outcomes') {
      assert EntryOk(a, next, dedup, outcomes);
    }
    forall a, b ensures Apart(a, b, dedup') {
      assert Apart(a, b, dedup) && EntryOk(a, next, dedup, outcomes) && EntryOk(b, next, dedup, outcomes);
    }
  }

  lemma RecordedPlaces(next: nat, mail: set<nat>, ready: set<nat>, leased: set<nat>, quarantine: set<nat>, done: set<nat>)
    requires PlacesOk(next, mail, ready, leased, quarantine, done)
    ensures PlacesOk(next + 1, mail + {next + 1}, ready, leased, quarantine, done)
    ensures next + 1 !in mail && next + 1 !in ready && next + 1 !in leased && next + 1 !in quarantine && next + 1 !in done
  {
    var next', mail' := next + 1, mail + {next + 1};
    assert PlaceOk(next', next, mail, ready, leased, quarantine, done);
    forall m: nat ensures PlaceOk(m, next', mail', ready, leased, quarantine, done) {
      assert PlaceOk(m, next, mail, ready, leased, quarantine, done);
    }
  }

  lemma RecordedFrame(s: Shard, r: Record, o: Outcome)
    ensures var t := Recorded(s, r, o);
            && t.mailbox == s.mailbox && t.ready == s.ready && t.leased == s.leased && t.leases == s.leases
            && t.states == s.states && t.outputs == s.outputs && t.running == s.running && t.retryRunning == s.retryRunning
            && t.quarantine == s.quarantine && t.finalized == s.finalized && t.history == s.history
            && t.activeKeys == s.activeKeys && Total(t) == Total(s) && t.nextSequence == r.sequence
            && t.dedup == s.dedup[IdOf(r) := r] && t.outcomes == s.outcomes[IdOf(r) := o]
    ensures CountsOk(s) && r.sequence == s.nextSequence + 1 ==> CountsBut(Recorded(s, r, o), 0, 0, 1)
  {
  }

  lemma RecordedBooks(p: Limits, s: Shard, r: Record)
    requires PlacesOk(s.nextSequence, s.mailbox.Keys, s.ready.Keys, s.leased.Keys, s.quarantine.Keys, Done(s.history))
    requires LedgerOk(s.nextSequence, s.dedup, s.outcomes) && IdOf(r) !in s.dedup && r.sequence == s.nextSequence + 1
    requires MailOk(s.mailbox, s.dedup, s.outcomes) && LiveOk(p, Live(s.ready, s.leased), s.dedup, s.outcomes, s.states)
    requires QuarantineOk(p, s.quarantine, s.dedup, s.outcomes) && DoneOk(p, s.history, s.dedup, s.outcomes, s.outputs)
    ensures PlacesOk(r.sequence, s.mailbox.Keys + {r.sequence}, s.ready.Keys, s.leased.Keys, s.quarantine.Keys, Done(s.history))
    ensures r.sequence !in s.mailbox
    ensures var dedup, outcomes := s.dedup[IdOf(r) := r], s.outcomes[IdOf(r) := Unstarted(r)];
            && LedgerOk(r.sequence, dedup, outcomes)
            && MailOk(s.mailbox, dedup, outcomes) && LiveOk(p, Live(s.ready, s.leased), dedup, outcomes, s.states)
            && QuarantineOk(p, s.quarantine, dedup, outcomes) && DoneOk(p, s.history, dedup, outcomes, s.outputs)
  {
    RecordedPlaces(s.nextSequence, s.mailbox.Keys, s.ready.Keys, s.leased.Keys, s.quarantine.Keys, Done(s.history));
    RecordedLedger(s.nextSequence, s.dedup, s.outcomes, r, Unstarted(r));
    LedgerFramed(p, s.mailbox, Live(s.ready, s.leased), s.quarantine, s.history, s.dedup, s.dedup[IdOf(r) := r], s.outcomes, s.outcomes[IdOf(r) := Unstarted(r)], s.states, s.outputs, IdOf(r), r.sequence);
  }

  lemma RecordedUnplaced(p: Limits, s: Shard, r: Record)
    requires GoodLimits(p) && Inv(p, s) && Total(s) < p.capacity
    requires IdOf(r) !in s.dedup && r.key !in s.finalized && r.sequence == s.nextSequence + 1 < SEQUENCE_LIMIT
    ensures Unplaced(p, Recorded(s, r, Unstarted(r)), r)
  {
    RecordedFrame(s, r, Unstarted(r));
    RecordedBooks(p, s, r);
  }

  /** A new event is recorded, then started at once or put in the mailbox. */
  lemma AdmitOneSteps(p: Limits, s: Shard, q: Request, build: Name, now: real)
    requires LedgerOk(s.nextSequence, s.dedup, s.outcomes)
    ensures AdmitOne(p, s, q, build, now) != Err(OutcomeConflict)
    ensures AdmitOne(p, s, q, build, now).Ok? ==>
              var t := AdmitOne(p, s, q, build, now).value;
              var r := Numbered(s, q);
              if IdOf(r) in s.dedup then t == s
              else
                && q.key !in s.finalized && s.nextSequence + 1 < SEQUENCE_LIMIT
                && t == if s.running < p.concurrency && q.key !in s.activeKeys then StartRecord(Recorded(s, r, Unstarted(r)), r, build, now) else Enqueue(Recorded(s, r, Unstarted(r)), r)
  {
    assert EntryOk((q.key, q.eventId), s.nextSequence, s.dedup, s.outcomes);
  }

  lemma AdmitNewKeeps(p: Limits, s: Shard, r: Record, build: Name, now: real)
    requires GoodLimits(p) && Inv(p, s) && Total(s) < p.capacity
    requires IdOf(r) !in s.dedup && r.key !in s.finalized && r.sequence == s.nextSequence + 1 < SEQUENCE_LIMIT
    ensures s.running < p.concurrency && r.key !in s.activeKeys ==> Inv(p, StartRecord(Recorded(s, r, Unstarted(r)), r, build, now))
    ensures Inv(p, Enqueue(Recorded(s, r, Unstarted(r)), r))
  {
    var t := Recorded(s, r, Unstarted(r));
    RecordedFrame(s, r, Unstarted(r));
    RecordedUnplaced(p, s, r);
    EnqueueKeeps(p, t, r);
    if s.running < p.concurrency && r.key !in s.activeKeys {
      StartKeeps(p, t, r, build, now);
    }
  }

  lemma AdmitOneKeeps(p: Limits, s: Shard, q: Request, build: Name, now: real)
    requires GoodLimits(p) && Inv(p, s)
    requires (q.key, q.eventId) !in s.dedup ==> Total(s) < p.capacity
    ensures AdmitOne(p, s, q, build, now) != Err(OutcomeConflict)
    ensures AdmitOne(p, s, q, build, now).Ok? ==> Inv(p, AdmitOne(p, s, q, build, now).value)
  {
    AdmitOneSteps(p, s, q, build, now);
    if AdmitOne(p, s, q, build, now).Ok? && (q.key, q.eventId) !in s.dedup {
      AdmitNewKeeps(p, s, Numbered(s, q), build, now);
    }
  }

  lemma AdmitOneAdds(p: Limits, s: Shard, q: Request, build: Name, now: real)
    requires AdmitOne(p, s, q, build, now).Ok?
    ensures var t := AdmitOne(p, s, q, build, now).value;
            && Total(t) == Total(s) + (if (q.key, q.eventId) in s.dedup then 0 else 1)
            && t.dedup.Keys == s.dedup.Keys + {(q.key, q.eventId)}
  {
    var r := Numbered(s, q);
    var o := if IdOf(r) in s.outcomes then s.outcomes[IdOf(r)] else Unstarted(r);
    RecordedAdds(s, r, o, build, now);
    assert s.dedup[IdOf(r) := r].Keys == s.dedup.Keys + {IdOf(r)};
    if IdOf(r) in s.dedup {
      assert s.dedup.Keys + {IdOf(r)} == s.dedup.Keys;
    } else if s.running < p.concurrency && q.key !in s.activeKeys {
    } else {
    }
  }

  lemma RecordedAdds(s: Shard, r: Record, o: Outcome, build: Name, now: real)
    ensures StartRecord(Recorded(s, r, o), r, build, now).dedup == s.dedup[IdOf(r) := r] == Enqueue(Recorded(s, r, o), r).dedup
    ensures Total(StartRecord(Recorded(s, r, o), r, build, now)) == Total(s) + 1 == Total(Enqueue(Recorded(s, r, o), r))
  {
  }

  function Ids(requests: seq<Request>): set<EventKey> {
    set i | 0 <= i < |requests| :: (requests[i].key, requests[i].eventId)
  }

  lemma NewEventsAre(s: Shard, requests: seq<Request>)
    ensures NewEvents(s, requests) == Ids(requests) - s.dedup.Keys
  {
  }

  lemma IdsGrow(requests: seq<Request>)
    requires requests != []
    ensures Ids(requests) == Ids(requests[..|requests| - 1]) + {(requests[|requests| - 1].key, requests[|requests| - 1].eventId)}
  {
    var front := requests[..|requests| - 1];
    assert forall i :: 0 <= i < |front| ==> requests[i] == front[i];
  }

  lemma OneId(a: set<EventKey>, x: EventKey)
    ensures |a + {x}| == |a| + if x in a then 0 else 1
  {
    if x in a {
      assert a + {x} == a;
    }
  }

  lemma NewIds(ids: set<EventKey>, known: set<EventKey>, id: EventKey)
    ensures |ids + {id} - known| == |ids - known| + if id in known || id in ids then 0 else 1
  {
    if id in known {
      assert ids + {id} - known == ids - known;
    } else {
      assert ids + {id} - known == (ids - known) + {id};
      OneId(ids - known, id);
    }
  }

  lemma NewEventsGrow(s: Shard, requests: seq<Request>)
    requires requests != []
    ensures var front := requests[..|requests| - 1]; var id := (requests[|requests| - 1].key, requests[|requests| - 1].eventId);
            && Ids(requests) == Ids(front) + {id}
            && |NewEvents(s, requests)| == |NewEvents(s, front)| + (if id in s.dedup || id in Ids(front) then 0 else 1)
  {
    var front := requests[..|requests| - 1];
    IdsGrow(requests);
    NewEventsAre(s, requests);
    NewEventsAre(s, front);
    NewIds(Ids(front), s.dedup.Keys, (requests[|requests| - 1].key, requests[|requests| - 1].eventId));
  }

  lemma {:induction false} AdmitAllAdds(p: Limits, s: Shard, requests: seq<Request>, build: Name, now: real)
    requires AdmitAll(p, s, requests, build, now).Ok?
    ensures var t := AdmitAll(p, s, requests, build, now).value;
            t.dedup.Keys == s.dedup.Keys + Ids(requests) && Total(t) == Total(s) + |NewEvents(s, requests)|
    decreases |requests|
  {
    if requests != [] {
      NewEventsGrow(s, requests);
      AdmitAllAdds(p, s, requests[..|requests| - 1], build, now);
      var t := AdmitAll(p, s, requests[..|requests| - 1], build, now).value;
      var q := requests[|requests| - 1];
      assert (q.key, q.eventId) in t.dedup <==> (q.key, q.eventId) in t.dedup.Keys;
      AdmitOneAdds(p, t, q, build, now);
    }
  }

  /** While the earlier events of a batch are admitted, there is room for the next one. */
  lemma RoomForNext(p: Limits, s: Shard, requests: seq<Request>, build: Name, now: real)
    requires requests != [] && Total(s) + |NewEvents(s, requests)| <= p.capacity
    requires AdmitAll(p, s, requests[..|requests| - 1], build, now).Ok?
    ensures var t := AdmitAll(p, s, requests[..|requests| - 1], build, now).value; var q := requests[|requests| - 1];
            (q.key, q.eventId) !in t.dedup ==> Total(t) < p.capacity
  {
    NewEventsGrow(s, requests);
    AdmitAllAdds(p, s, requests[..|requests| - 1], build, now);
    var t := AdmitAll(p, s, requests[..|requests| - 1], build, now).value;
    var q := requests[|requests| - 1];
    assert (q.key, q.eventId) in t.dedup <==> (q.key, q.eventId) in t.dedup.Keys;
  }

  lemma NewEventsShrink(s: Shard, requests: seq<Request>)
    requires requests != []
    ensures |NewEvents(s, requests[..|requests| - 1])| <= |NewEvents(s, requests)|
  {
    NewEventsGrow(s, requests);
  }

  lemma {:induction false} AdmitAllKeeps(p: Limits, s: Shard, requests: seq<Request>, build: Name, now: real)
    requires GoodLimits(p) && Inv(p, s) && Total(s) + |NewEvents(s, requests)| <= p.capacity
    ensures AdmitAll(p, s, requests, build, now) != Err(OutcomeConflict)
    ensures AdmitAll(p, s, requests, build, now).Ok? ==> Inv(p, AdmitAll(p, s, requests, build, now).value)
    decreases |requests|
  {
    if requests != [] {
      NewEventsShrink(s, requests);
      AdmitAllKeeps(p, s, requests[..|requests| - 1], build, now);
      var before := AdmitAll(p, s, requests[..|requests| - 1], build, now);
      if before.Ok? {
        RoomForNext(p, s, requests, build, now);
        AdmitOneKeeps(p, before.value, requests[|requests| - 1], build, now);
      }
    }
  }

  /** Admission keeps the invariant, and never meets an outcome of another admission. */
  lemma AdmitKeeps(p: Limits, s: Shard, requests: seq<Request>, build: Name, now: real)
    requires GoodLimits(p) && Inv(p, s)
    ensures Admit(p, s, requests, build, now) != Err(OutcomeConflict)
    ensures Admit(p, s, requests, build, now).Ok? ==> Inv(p, Admit(p, s, requests, build, now).value)
  {
    if Total(s) + |NewEvents(s, requests)| <= p.capacity {
      AdmitAllKeeps(p, s, requests, build, now);
      if AdmitAll(p, s, requests, build, now).Ok? {
        DispatchKeeps(p, AdmitAll(p, s, requests, build, now).value, build, now);
      }
    }
  }
}
