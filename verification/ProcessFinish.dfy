/** Finishing a granted execution: committing it, retrying it, giving it up or putting it back all keep the invariant. */
module ProcessFinish {
  import opened Wrappers
  import opened Sequences
  import opened ProcessShard
  import opened ProcessInvariant

  function One(b: bool): nat {
    if b then 1 else 0
  }

  /** An execution taken out of its lease, still counted and still owning its key. */
  ghost predicate InHand(p: Limits, s: Shard, e: Execution) {
    && PlacesOk(s.nextSequence, s.mailbox.Keys, s.ready.Keys, s.leased.Keys + {e.record.sequence}, s.quarantine.Keys, Done(s.history))
    && e.record.sequence !in s.leased
    && LedgerOk(s.nextSequence, s.dedup, s.outcomes)
    && MailOk(s.mailbox, s.dedup, s.outcomes)
    && LiveOk(p, Live(s.ready, s.leased), s.dedup, s.outcomes, s.states)
    && ExecutionOk(p, e.record.sequence, e, s.dedup, s.outcomes, s.states)
    && ActiveOk(Live(s.ready, s.leased)[e.record.sequence := e], s.activeKeys)
    && QuarantineOk(p, s.quarantine, s.dedup, s.outcomes)
    && DoneOk(p, s.history, s.dedup, s.outcomes, s.outputs)
    && HistoryOk(s.history, s.states)
    && CountsBut(s, One(e.attempt == 0), One(e.attempt > 0), 0)
    && BoundsOk(p, s)
    && FinalOk(s.finalized, s.activeKeys, s.mailbox)
    && LeasesOk(s.leased, s.leases)
  }

  // ---------------------------------------------------------------------------
  // Taking an execution out of its lease

  lemma TakeFrame(s: Shard, token: Name)
    requires token in s.leases && s.leases[token].members != []
    ensures var t := TakeFirst(s, token); var lease := s.leases[token];
            && t.nextSequence == s.nextSequence && t.mailbox == s.mailbox && t.ready == s.ready
            && t.dedup == s.dedup && t.outcomes == s.outcomes && t.states == s.states && t.outputs == s.outputs
            && t.quarantine == s.quarantine && t.finalized == s.finalized && t.history == s.history
            && t.running == s.running && t.retryRunning == s.retryRunning && Total(t) == Total(s)
            && t.activeKeys == s.activeKeys
            && t.leased == s.leased - {lease.members[0]} && t.leases == s.leases[token := lease.(members := lease.members[1..])]
  {
  }

  lemma TakeCounts(s: Shard, token: Name)
    requires token in s.leases && s.leases[token].members != [] && s.leases[token].members[0] in s.leased && CountsOk(s)
    ensures var e := s.leased[s.leases[token].members[0]].execution;
            CountsBut(TakeFirst(s, token), One(e.attempt == 0), One(e.attempt > 0), 0)
  {
    var n := s.leases[token].members[0];
    HeldRemoved(s.leased, n);
    FreshRemoved(Held(s.leased), n);
  }

  lemma TakePlaces(next: nat, mail: set<nat>, ready: set<nat>, leased: map<nat, Grant>, quarantine: set<nat>, done: set<nat>, n: nat)
    requires PlacesOk(next, mail, ready, leased.Keys, quarantine, done) && n in leased
    ensures PlacesOk(next, mail, ready, (leased - {n}).Keys + {n}, quarantine, done)
    ensures n !in ready && n !in leased - {n}
  {
    assert (leased - {n}).Keys + {n} == leased.Keys;
    assert PlaceOk(n, next, mail, ready, leased.Keys, quarantine, done);
  }

  lemma TakeLeases(leased: map<nat, Grant>, leases: map<Name, Lease>, token: Name)
    requires LeasesOk(leased, leases) && token in leases && leases[token].members != []
    ensures leases[token].members[0] in leased
    ensures LeasesOk(leased - {leases[token].members[0]}, leases[token := leases[token].(members := leases[token].members[1..])])
  {
    var members := leases[token].members;
    var n := members[0];
    var leased', leases' := leased - {n}, leases[token := leases[token].(members := members[1..])];
    assert LeaseOk(token, leased, leases);
    forall m ensures GrantOk(m, leased', leases') {
      assert GrantOk(m, leased, leases);
      if m in leased' && leased[m].token == token {
        var i :| 0 <= i < |members| && members[i] == m;
        assert members[1..][i - 1] == m;
      }
    }
    forall other ensures LeaseOk(other, leased', leases') {
      assert LeaseOk(other, leased, leases);
      if other == token {
        assert forall i :: 0 <= i < |members[1..]| ==> members[1..][i] == members[i + 1];
      }
    }
  }

  lemma TakeLive(ready: Work, leased: map<nat, Grant>, n: nat)
    requires n in leased && n !in ready
    ensures Live(ready, leased - {n}) == Live(ready, leased) - {n}
    ensures Live(ready, leased - {n})[n := leased[n].execution] == Live(ready, leased)
    ensures n in Live(ready, leased) && Live(ready, leased)[n] == leased[n].execution
  {
  }

  lemma TakeWork(p: Limits, ready: Work, leased: map<nat, Grant>, n: nat, active: set<Name>, dedup: Ledger, outcomes: Outcomes, states: map<Name, StateValue>)
    requires n in leased && n !in ready
    requires LiveOk(p, Live(ready, leased), dedup, outcomes, states) && ActiveOk(Live(ready, leased), active)
    ensures LiveOk(p, Live(ready, leased - {n}), dedup, outcomes, states)
    ensures ActiveOk(Live(ready, leased - {n})[n := leased[n].execution], active)
    ensures ExecutionOk(p, n, leased[n].execution, dedup, outcomes, states)
  {
    TakeLive(ready, leased, n);
    LiveRemoved(p, Live(ready, leased), n, dedup, outcomes, states);
    assert LiveAt(p, n, Live(ready, leased), dedup, outcomes, states);
  }

  lemma TakeKeeps(p: Limits, s: Shard, token: Name)
    requires Inv(p, s) && token in s.leases && s.leases[token].members != []
    ensures s.leases[token].members[0] in s.leased
    ensures InHand(p, TakeFirst(s, token), s.leased[s.leases[token].members[0]].execution)
  {
    var n := s.leases[token].members[0];
    TakeFrame(s, token);
    TakeLeases(s.leased, s.leases, token);
    TakeCounts(s, token);
    TakePlaces(s.nextSequence, s.mailbox.Keys, s.ready.Keys, s.leased, s.quarantine.Keys, Done(s.history), n);
    TakeWork(p, s.ready, s.leased, n, s.activeKeys, s.dedup, s.outcomes, s.states);
  }

  // ---------------------------------------------------------------------------
  // What an execution in hand becomes

  lemma MovedPlaces(next: nat, mail: set<nat>, ready: set<nat>, leased: set<nat>, quarantine: set<nat>, done: set<nat>, n: nat)
    requires PlacesOk(next, mail, ready, leased + {n}, quarantine, done) && n !in leased
    ensures PlacesOk(next, mail, ready + {n}, leased, quarantine, done)
    ensures PlacesOk(next, mail, ready, leased, quarantine + {n}, done)
    ensures PlacesOk(next, mail, ready, leased, quarantine, done + {n})
    ensures n !in mail && n !in ready && n !in quarantine && n !in done
  {
    var held, ready', quarantine', done' := leased + {n}, ready + {n}, quarantine + {n}, done + {n};
    assert PlaceOk(n, next, mail, ready, held, quarantine, done);
    forall m
      ensures PlaceOk(m, next, mail, ready', leased, quarantine, done)
      ensures PlaceOk(m, next, mail, ready, leased, quarantine', done)
      ensures PlaceOk(m, next, mail, ready, leased, quarantine, done')
    {
      assert PlaceOk(m, next, mail, ready, held, quarantine, done);
    }
  }

  lemma NotLive(ready: Work, leased: map<nat, Grant>, n: nat)
    requires n !in ready && n !in leased
    ensures n !in Live(ready, leased)
  {
  }

  /** An outcome of the same event under the same number keeps the ledger and concerns nobody else. */
  lemma OutcomeWritten(next: nat, dedup: Ledger, outcomes: Outcomes, r: Record, o: Outcome)
    requires LedgerOk(next, dedup, outcomes) && Known(dedup, r) && o.sequence == r.sequence
    ensures LedgerOk(next, dedup, outcomes[IdOf(r) := o])
    ensures SameElsewhere(dedup, dedup, outcomes, outcomes[IdOf(r) := o], IdOf(r))
  {
    var outcomes' := outcomes[IdOf(r) := o];
    forall a ensures EntryOk(a, next, dedup, outcomes') {
      assert EntryOk(a, next, dedup, outcomes);
    }
  }

  /** The ledger and everything placed, after the outcome of the execution in hand changed. */
  lemma InHandBooks(p: Limits, s: Shard, e: Execution, o: Outcome)
    requires PlacesOk(s.nextSequence, s.mailbox.Keys, s.ready.Keys, s.leased.Keys + {e.record.sequence}, s.quarantine.Keys, Done(s.history))
    requires e.record.sequence !in s.leased && o.sequence == e.record.sequence
    requires LedgerOk(s.nextSequence, s.dedup, s.outcomes) && Known(s.dedup, e.record)
    requires MailOk(s.mailbox, s.dedup, s.outcomes) && LiveOk(p, Live(s.ready, s.leased), s.dedup, s.outcomes, s.states)
    requires QuarantineOk(p, s.quarantine, s.dedup, s.outcomes) && DoneOk(p, s.history, s.dedup, s.outcomes, s.outputs)
    ensures var outcomes := s.outcomes[IdOf(e.record) := o];
            && LedgerOk(s.nextSequence, s.dedup, outcomes)
            && MailOk(s.mailbox, s.dedup, outcomes) && LiveOk(p, Live(s.ready, s.leased), s.dedup, outcomes, s.states)
            && QuarantineOk(p, s.quarantine, s.dedup, outcomes) && DoneOk(p, s.history, s.dedup, outcomes, s.outputs)
  {
    var n := e.record.sequence;
    MovedPlaces(s.nextSequence, s.mailbox.Keys, s.ready.Keys, s.leased.Keys, s.quarantine.Keys, Done(s.history), n);
    NotLive(s.ready, s.leased, n);
    OutcomeWritten(s.nextSequence, s.dedup, s.outcomes, e.record, o);
    LedgerFramed(p, s.mailbox, Live(s.ready, s.leased), s.quarantine, s.history, s.dedup, s.dedup, s.outcomes, s.outcomes[IdOf(e.record) := o], s.states, s.outputs, IdOf(e.record), n);
  }

  lemma MayFinish(s: Shard, e: Execution, status: Status)
    requires Find(s.outcomes, IdOf(e.record)) == Some(Outcome(e.record.sequence, Pending, e.attempt, []))
    ensures MayUpdate(s.outcomes, e.record, status)
  {
  }

  // ---------------------------------------------------------------------------
  // Committing

  function Appended(e: Execution, next: StateValue, emit: Option<Payload>): Transition {
    Transition(e.record, e.prior, next, emit)
  }

  function WithMessage(outputs: map<nat, Message>, n: nat, message: Option<Message>): map<nat, Message> {
    if message.Some? then outputs[n := message.value] else outputs
  }

  function CommittedOutcome(e: Execution, message: Option<Message>): Outcome {
    Outcome(e.record.sequence, Committed, e.attempt, if message.Some? then [e.record.sequence] else [])
  }

  lemma CommitFrame(s: Shard, e: Execution, next: StateValue, emit: Option<Payload>)
    requires e.record.sequence !in s.outputs && MayUpdate(s.outcomes, e.record, Committed)
    requires e.isolatedRetry <==> e.attempt > 0
    requires CountsBut(s, One(e.attempt == 0), One(e.attempt > 0), 0)
    ensures Commit(s, e, next, emit).Ok?
    ensures var t := Commit(s, e, next, emit).value;
            && t.nextSequence == s.nextSequence && t.mailbox == s.mailbox && t.ready == s.ready && t.leased == s.leased
            && t.dedup == s.dedup && t.quarantine == s.quarantine && t.finalized == s.finalized && t.leases == s.leases
            && t.outcomes == s.outcomes[IdOf(e.record) := CommittedOutcome(e, Emitted(e.record, emit))]
            && t.states == s.states[e.record.key := next]
            && t.outputs == WithMessage(s.outputs, e.record.sequence, Emitted(e.record, emit))
            && t.history == s.history + [Appended(e, next, emit)]
            && t.activeKeys == s.activeKeys - {e.record.key}
            && t.running == s.running - One(e.attempt == 0) && t.retryRunning <= s.retryRunning && Total(t) == Total(s) - 1
            && CountsOk(t)
  {
  }

  lemma DoneAppended(history: seq<Transition>, x: Transition)
    ensures Done(history + [x]) == Done(history) + {x.record.sequence}
  {
    assert forall i :: 0 <= i < |history| ==> (history + [x])[i] == history[i];
    assert (history + [x])[|history|] == x;
  }

  lemma CommitHistory(history: seq<Transition>, states: map<Name, StateValue>, x: Transition)
    requires HistoryOk(history, states) && x.prior == Find(states, x.record.key)
    ensures HistoryOk(history + [x], states[x.record.key := x.next])
  {
    var history', states' := history + [x], states[x.record.key := x.next];
    forall i: nat ensures Continues(i, history') {
      assert Continues(i, history);
      if i <= |history| { assert history'[..i] == history[..i]; }
      assert history[..|history|] == history;
    }
    assert history'[..|history'| - 1] == history;
    forall k ensures Find(states', k) == StateAfter(history', k) {
      assert Find(states, k) == StateAfter(history, k);
    }
  }

  lemma CommitDone(p: Limits, history: seq<Transition>, dedup: Ledger, outcomes: Outcomes, outputs: map<nat, Message>, e: Execution, next: StateValue, emit: Option<Payload>)
    requires DoneOk(p, history, dedup, outcomes, outputs)
    requires e.record.sequence !in Done(history) && Known(dedup, e.record) && e.attempt < p.maxAttempts
    requires Find(outcomes, IdOf(e.record)) == Some(CommittedOutcome(e, Emitted(e.record, emit)))
    ensures DoneOk(p, history + [Appended(e, next, emit)], dedup, outcomes, WithMessage(outputs, e.record.sequence, Emitted(e.record, emit)))
  {
    var x := Appended(e, next, emit);
    var n := e.record.sequence;
    var history', outputs' := history + [x], WithMessage(outputs, n, Emitted(e.record, emit));
    DoneAppended(history, x);
    assert n !in outputs;
    forall i: nat ensures CommittedAt(p, i, history', dedup, outcomes, outputs') {
      assert CommittedAt(p, i, history, dedup, outcomes, outputs);
      if i < |history| { assert history[i].record.sequence in Done(history); }
    }
  }

  lemma FreedWork(ready: Work, leased: map<nat, Grant>, active: set<Name>, e: Execution)
    requires e.record.sequence !in ready && e.record.sequence !in leased
    requires ActiveOk(Live(ready, leased)[e.record.sequence := e], active)
    ensures ActiveOk(Live(ready, leased), active - {e.record.key})
    ensures forall m :: m in Live(ready, leased) ==> Live(ready, leased)[m].record.key != e.record.key
  {
    var live, n := Live(ready, leased), e.record.sequence;
    var with := live[n := e];
    NotLive(ready, leased, n);
    assert with - {n} == live;
    ActiveRemoved(with, active, n);
    forall m | m in live ensures live[m].record.key != e.record.key {
      assert OnePerKey(m, n, with);
      assert m in with && n in with;
    }
  }

  lemma CommitWork(p: Limits, live: Work, dedup: Ledger, outcomes: Outcomes, states: map<Name, StateValue>, e: Execution, next: StateValue)
    requires LiveOk(p, live, dedup, outcomes, states)
    requires forall m :: m in live ==> live[m].record.key != e.record.key
    ensures LiveOk(p, live, dedup, outcomes, states[e.record.key := next])
  {
    var states' := states[e.record.key := next];
    forall m ensures LiveAt(p, m, live, dedup, outcomes, states') {
      assert LiveAt(p, m, live, dedup, outcomes, states);
    }
  }

  lemma FreedFinal(finalized: set<Name>, active: set<Name>, mailbox: map<nat, Record>, key: Name)
    requires FinalOk(finalized, active, mailbox)
    ensures FinalOk(finalized, active - {key}, mailbox)
  {
    var rest := active - {key};
    forall k ensures IdleKey(k, finalized, rest) {
      assert IdleKey(k, finalized, active);
    }
  }

  lemma CommitBooks(p: Limits, s: Shard, e: Execution, next: StateValue, emit: Option<Payload>)
    requires InHand(p, s, e)
    ensures e.record.sequence !in s.outputs
    ensures PlacesOk(s.nextSequence, s.mailbox.Keys, s.ready.Keys, s.leased.Keys, s.quarantine.Keys, Done(s.history + [Appended(e, next, emit)]))
    ensures var outcomes := s.outcomes[IdOf(e.record) := CommittedOutcome(e, Emitted(e.record, emit))];
            && LedgerOk(s.nextSequence, s.dedup, outcomes)
            && MailOk(s.mailbox, s.dedup, outcomes) && LiveOk(p, Live(s.ready, s.leased), s.dedup, outcomes, s.states[e.record.key := next])
            && QuarantineOk(p, s.quarantine, s.dedup, outcomes)
            && DoneOk(p, s.history + [Appended(e, next, emit)], s.dedup, outcomes, WithMessage(s.outputs, e.record.sequence, Emitted(e.record, emit)))
    ensures ActiveOk(Live(s.ready, s.leased), s.activeKeys - {e.record.key})
  {
    var n := e.record.sequence;
    var o := CommittedOutcome(e, Emitted(e.record, emit));
    MovedPlaces(s.nextSequence, s.mailbox.Keys, s.ready.Keys, s.leased.Keys, s.quarantine.Keys, Done(s.history), n);
    DoneAppended(s.history, Appended(e, next, emit));
    InHandBooks(p, s, e, o);
    CommitDone(p, s.history, s.dedup, s.outcomes[IdOf(e.record) := o], s.outputs, e, next, emit);
    FreedWork(s.ready, s.leased, s.activeKeys, e);
    CommitWork(p, Live(s.ready, s.leased), s.dedup, s.outcomes[IdOf(e.record) := o], s.states, e, next);
  }

  /** A transition of an execution in hand is always accepted, and keeps the invariant. */
  lemma CommitKeeps(p: Limits, s: Shard, e: Execution, next: StateValue, emit: Option<Payload>)
    requires InHand(p, s, e)
    ensures Commit(s, e, next, emit).Ok? && Inv(p, Commit(s, e, next, emit).value)
  {
    CommitBooks(p, s, e, next, emit);
    MayFinish(s, e, Committed);
    CommitFrame(s, e, next, emit);
    CommitHistory(s.history, s.states, Appended(e, next, emit));
    FreedFinal(s.finalized, s.activeKeys, s.mailbox, e.record.key);
  }

  // ---------------------------------------------------------------------------
  // Failing

  function FailedOutcome(e: Execution): Outcome {
    Outcome(e.record.sequence, Failed, e.attempt + 1, [])
  }

  function RetriedOutcome(e: Execution): Outcome {
    Outcome(e.record.sequence, Pending, e.attempt + 1, [])
  }

  lemma GiveUpFrame(s: Shard, e: Execution)
    requires e.isolatedRetry <==> e.attempt > 0
    requires CountsBut(s, One(e.attempt == 0), One(e.attempt > 0), 0) && e.record.sequence !in s.quarantine
    ensures var t := Quarantine(Release(s, e.isolatedRetry), e);
            && t.nextSequence == s.nextSequence && t.mailbox == s.mailbox && t.ready == s.ready && t.leased == s.leased
            && t.dedup == s.dedup && t.finalized == s.finalized && t.leases == s.leases
            && t.states == s.states && t.outputs == s.outputs && t.history == s.history
            && t.outcomes == s.outcomes[IdOf(e.record) := FailedOutcome(e)]
            && t.quarantine == s.quarantine[e.record.sequence := e.record]
            && t.activeKeys == s.activeKeys - {e.record.key}
            && t.running <= s.running && t.retryRunning <= s.retryRunning && Total(t) == Total(s) - 1
            && CountsOk(t)
  {
    OneMore(s.quarantine, e.record.sequence, e.record);
    if e.attempt > 0 {
    } else {
    }
  }

  lemma OneMore<V>(m: map<nat, V>, n: nat, v: V)
    requires n !in m
    ensures |m[n := v]| == |m| + 1
  {
    assert m[n := v].Keys == m.Keys + {n};
  }

  lemma GiveUpQuarantine(p: Limits, quarantine: map<nat, Record>, dedup: Ledger, outcomes: Outcomes, e: Execution)
    requires QuarantineOk(p, quarantine, dedup, outcomes) && Known(dedup, e.record) && e.attempt + 1 == p.maxAttempts
    requires Find(outcomes, IdOf(e.record)) == Some(FailedOutcome(e))
    ensures QuarantineOk(p, quarantine[e.record.sequence := e.record], dedup, outcomes)
    ensures quarantine[e.record.sequence := e.record].Keys == quarantine.Keys + {e.record.sequence}
  {
    var quarantine' := quarantine[e.record.sequence := e.record];
    forall m ensures FailedAt(p, m, quarantine', dedup, outcomes) {
      assert FailedAt(p, m, quarantine, dedup, outcomes);
    }
  }

  lemma GiveUpKeeps(p: Limits, s: Shard, e: Execution)
    requires InHand(p, s, e) && e.attempt + 1 == p.maxAttempts
    ensures Inv(p, Quarantine(Release(s, e.isolatedRetry), e))
  {
    var n := e.record.sequence;
    MovedPlaces(s.nextSequence, s.mailbox.Keys, s.ready.Keys, s.leased.Keys, s.quarantine.Keys, Done(s.history), n);
    InHandBooks(p, s, e, FailedOutcome(e));
    GiveUpFrame(s, e);
    GiveUpQuarantine(p, s.quarantine, s.dedup, s.outcomes[IdOf(e.record) := FailedOutcome(e)], e);
    FreedWork(s.ready, s.leased, s.activeKeys, e);
    FreedFinal(s.finalized, s.activeKeys, s.mailbox, e.record.key);
  }

  lemma RequeueFrame(s: Shard, e: Execution, now: real)
    requires e.isolatedRetry <==> e.attempt > 0
    requires CountsBut(s, One(e.attempt == 0), One(e.attempt > 0), 0) && e.record.sequence !in s.ready
    ensures var t := Requeue(Release(s, e.isolatedRetry), e, now);
            && t.nextSequence == s.nextSequence && t.mailbox == s.mailbox && t.leased == s.leased
            && t.dedup == s.dedup && t.finalized == s.finalized && t.leases == s.leases && t.quarantine == s.quarantine
            && t.states == s.states && t.outputs == s.outputs && t.history == s.history && t.activeKeys == s.activeKeys
            && t.outcomes == s.outcomes[IdOf(e.record) := RetriedOutcome(e)]
            && t.ready == s.ready[e.record.sequence := RetryOf(e, now)]
            && t.running == s.running - One(e.attempt == 0) && t.retryRunning <= s.retryRunning && Total(t) == Total(s)
            && CountsOk(t)
  {
    FreshAdded(s.ready, e.record.sequence, RetryOf(e, now));
  }

  /** An execution in hand goes back to ready as `f`. */
  lemma BackWork(p: Limits, ready: Work, leased: map<nat, Grant>, active: set<Name>, dedup: Ledger, outcomes: Outcomes, states: map<Name, StateValue>, e: Execution, f: Execution)
    requires e.record.sequence !in ready && e.record.sequence !in leased
    requires LiveOk(p, Live(ready, leased), dedup, outcomes, states)
    requires ActiveOk(Live(ready, leased)[e.record.sequence := e], active)
    requires f.record == e.record && ExecutionOk(p, f.record.sequence, f, dedup, outcomes, states)
    ensures LiveOk(p, Live(ready[e.record.sequence := f], leased), dedup, outcomes, states)
    ensures ActiveOk(Live(ready[e.record.sequence := f], leased), active)
    ensures ready[e.record.sequence := f].Keys == ready.Keys + {e.record.sequence}
  {
    var live, n := Live(ready, leased), e.record.sequence;
    LiveWithReady(ready, leased, n, f);
    LiveAdded(p, live, n, f, dedup, outcomes, states);
    ActiveReplaced(live[n := e], active, n, f);
    assert live[n := e][n := f] == live[n := f];
  }

  lemma RetriedOk(p: Limits, e: Execution, dedup: Ledger, outcomes: Outcomes, states: map<Name, StateValue>, now: real)
    requires ExecutionOk(p, e.record.sequence, e, dedup, outcomes, states) && e.attempt + 1 < p.maxAttempts
    ensures ExecutionOk(p, e.record.sequence, RetryOf(e, now), dedup, outcomes[IdOf(e.record) := RetriedOutcome(e)], states)
  {
  }

  lemma RequeueKeeps(p: Limits, s: Shard, e: Execution, now: real)
    requires InHand(p, s, e) && e.attempt + 1 < p.maxAttempts
    ensures Inv(p, Requeue(Release(s, e.isolatedRetry), e, now))
  {
    var n := e.record.sequence;
    var outcomes := s.outcomes[IdOf(e.record) := RetriedOutcome(e)];
    MovedPlaces(s.nextSequence, s.mailbox.Keys, s.ready.Keys, s.leased.Keys, s.quarantine.Keys, Done(s.history), n);
    InHandBooks(p, s, e, RetriedOutcome(e));
    RequeueFrame(s, e, now);
    RetriedOk(p, e, s.dedup, s.outcomes, s.states, now);
    BackWork(p, s.ready, s.leased, s.activeKeys, s.dedup, outcomes, s.states, e, RetryOf(e, now));
  }

  /** A failed attempt is always recorded: as a retry while attempts are left, and as a failure otherwise. */
  lemma RetryKeeps(p: Limits, s: Shard, e: Execution, now: real)
    requires InHand(p, s, e)
    ensures RetryOrQuarantine(p, s, e, now).Ok? && Inv(p, RetryOrQuarantine(p, s, e, now).value)
  {
    MayFinish(s, e, Pending);
    MayFinish(s, e, Failed);
    if e.attempt + 1 >= p.maxAttempts {
      GiveUpKeeps(p, s, e);
    } else {
      RequeueKeeps(p, s, e, now);
    }
  }

  // ---------------------------------------------------------------------------
  // Putting back

  lemma PutBackFrame(s: Shard, e: Execution)
    requires e.isolatedRetry <==> e.attempt > 0
    requires CountsBut(s, One(e.attempt == 0), One(e.attempt > 0), 0) && e.record.sequence !in s.ready
    ensures var t := PutBack(s, e);
            && t.nextSequence == s.nextSequence && t.mailbox == s.mailbox && t.leased == s.leased
            && t.dedup == s.dedup && t.finalized == s.finalized && t.leases == s.leases && t.quarantine == s.quarantine
            && t.states == s.states && t.outputs == s.outputs && t.history == s.history && t.activeKeys == s.activeKeys
            && t.outcomes == s.outcomes && t.ready == s.ready[e.record.sequence := e]
            && t.running == s.running && t.retryRunning <= s.retryRunning && Total(t) == Total(s) && t.starts == s.starts
            && CountsOk(t)
  {
    FreshAdded(s.ready, e.record.sequence, e);
  }

  lemma PutBackKeeps(p: Limits, s: Shard, e: Execution)
    requires InHand(p, s, e)
    ensures Inv(p, PutBack(s, e))
  {
    var n := e.record.sequence;
    MovedPlaces(s.nextSequence, s.mailbox.Keys, s.ready.Keys, s.leased.Keys, s.quarantine.Keys, Done(s.history), n);
    PutBackFrame(s, e);
    BackWork(p, s.ready, s.leased, s.activeKeys, s.dedup, s.outcomes, s.states, e, e);
  }
}
