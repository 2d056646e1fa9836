/** A process shard as its transactions change it, put by put. */
module ProcessWork {
  import opened Wrappers
  import opened Text
  import opened Sequences
  import opened ProcessShard
  import opened ProcessInvariant
  import opened ProcessFinish
  import opened ProcessSteps
  import opened ProcessPartition
  import opened ProcessGrants

  /** Dispatching the rest of the window leads to `goal`. */
  ghost predicate Ahead(p: Limits, s: Shard, window: seq<nat>, i: nat, build: Name, now: real, goal: Shard) {
    i <= |window| && DispatchWindow(p, s, window[i..], build, now) == goal
  }

  lemma AheadNext(p: Limits, s: Shard, window: seq<nat>, i: nat, build: Name, now: real, goal: Shard, next: nat)
    requires Ahead(p, s, window, i, build, now, goal) && i < |window| && next == i + 1
    requires s.running < p.concurrency && window[i] in s.mailbox
    ensures s.mailbox[window[i]].key in s.activeKeys ==> Ahead(p, s, window, next, build, now, goal)
    ensures s.mailbox[window[i]].key !in s.activeKeys ==>
              Ahead(p, StartRecord(Dequeue(s, window[i]), s.mailbox[window[i]], build, now), window, next, build, now, goal)
  {
    var rest := window[i..];
    assert rest[0] == window[i] && rest[1..] == window[next..];
  }

  /** The parts of a grant, put together. */
  lemma LeasedIsMoved(s: Shard, token: Name, lease: Lease, ready: Work, grants: map<nat, Grant>, retries: nat, legacy: nat)
    requires ready == Without(s.ready, lease.members) && grants == Grants(s.ready, token, lease.members)
    requires retries == RetryCount(s.ready, lease.members) && legacy == LegacyCount(s.ready, lease.members) && token !in s.leases
    ensures s.(ready := ready, running := Monus(s.running, legacy), retryPending := Monus(s.retryPending, retries),
               retryRunning := s.retryRunning + retries, leased := s.leased + grants, leases := s.leases[token := lease])
            == Moved(OpenLease(s, token, lease.epoch, lease.activation, lease.expires), token, lease.members)
  {
    assert [] + lease.members == lease.members;
    var empty := Lease(lease.epoch, lease.activation, lease.expires, []);
    assert s.leases[token := empty][token := lease] == s.leases[token := lease];
    assert empty.(members := [] + lease.members) == lease;
  }

  lemma WithoutNone(ready: Work, numbers: seq<nat>)
    ensures Without(ready, numbers[..0]) == ready && numbers[..|numbers|] == numbers
  {
  }

  lemma WithoutNext(ready: Work, numbers: seq<nat>, i: nat)
    requires i < |numbers|
    ensures Without(ready, numbers[..i]) - {numbers[i]} == Without(ready, numbers[..i + 1])
  {
    assert numbers[..i + 1] == numbers[..i] + [numbers[i]];
  }

  /** An open transaction on one shard. An error abandons it, so only accepted results say what it holds. */
  class ShardWork {
    var shard: Shard

    constructor (s: Shard)
      ensures shard == s
    {
      shard := s;
    }

    // -------------------------------------------------------------------------
    // Starting

    method StartExecution(r: Record, prior: Option<StateValue>, build: Name, now: real)
      modifies this
      ensures shard == old(shard).(ready := old(shard).ready[r.sequence := Execution(r, prior, build, 0, false, now)],
                                   starts := old(shard).starts + [r])
    {
      shard := shard.(ready := shard.ready[r.sequence := Execution(r, prior, build, 0, false, now)], starts := shard.starts + [r]);
    }

    /** Moves one mailbox item into ready under its key. */
    method StartWaiting(n: nat, build: Name, now: real)
      requires n in shard.mailbox
      modifies this
      ensures shard == StartRecord(Dequeue(old(shard), n), old(shard).mailbox[n], build, now)
    {
      var item := shard.mailbox[n];
      shard := shard.(activeKeys := shard.activeKeys + {item.key});
      StartExecution(item, Find(shard.states, item.key), build, now);
      shard := shard.(mailbox := shard.mailbox - {n}, pending := Monus(shard.pending, 1));
      shard := shard.(running := shard.running + 1);
    }

    /** Starts what the first mailbox items allow. */
    method DispatchWaiting(p: Limits, build: Name, now: real)
      modifies this
      ensures shard == Dispatch(p, old(shard), build, now)
    {
      var all := Ascend(shard.mailbox.Keys);
      AscendIncreases(shard.mailbox.Keys);
      var window := all[..Min2(p.concurrency, |all|)];
      var seen: set<Name> := {};
      var i := 0;
      ghost var goal := Dispatch(p, shard, build, now);
      assert window[0..] == window;
      while i < |window| && shard.running < p.concurrency
        invariant 0 <= i <= |window|
        invariant Ahead(p, shard, window, i, build, now, goal)
        invariant seen <= shard.activeKeys
        invariant forall j :: i <= j < |window| ==> window[j] in shard.mailbox
      {
        var n := window[i];
        var item := shard.mailbox[n];
        ghost var was := i;
        i := i + 1;
        AheadNext(p, shard, window, was, build, now, goal, i);
        if item.key in seen || item.key in shard.activeKeys {
          seen := seen + {item.key};
          continue;
        }
        seen := seen + {item.key};
        StartWaiting(n, build, now);
      }
    }

    // -------------------------------------------------------------------------
    // Finishing

    /** Creates a pending outcome unless one of the same number is there; one of another number is a conflict. */
    method EnsurePending(r: Record) returns (ok: bool)
      modifies this
      ensures ok <==> (IdOf(r) in old(shard).outcomes ==> old(shard).outcomes[IdOf(r)].sequence == r.sequence)
      ensures shard == if IdOf(r) in old(shard).outcomes then old(shard) else old(shard).(outcomes := old(shard).outcomes[IdOf(r) := Outcome(r.sequence, Pending, 0, [])])
    {
      if IdOf(r) in shard.outcomes {
        return shard.outcomes[IdOf(r)].sequence == r.sequence;
      }
      shard := shard.(outcomes := shard.outcomes[IdOf(r) := Outcome(r.sequence, Pending, 0, [])]);
      return true;
    }

    /** A terminal outcome is never replaced by another status. */
    method UpdateOutcome(r: Record, status: Status, attempts: nat, messages: seq<nat>) returns (ok: bool)
      modifies this
      ensures ok <==> MayUpdate(old(shard).outcomes, r, status)
      ensures ok ==> shard == old(shard).(outcomes := old(shard).outcomes[IdOf(r) := Outcome(r.sequence, status, attempts, messages)])
    {
      ok := EnsurePending(r);
      if ok {
        var outcome := shard.outcomes[IdOf(r)];
        if outcome.status != Pending && outcome.status != status {
          return false;
        }
        shard := shard.(outcomes := shard.outcomes[IdOf(r) := outcome.(status := status, attempts := attempts, outputs := messages)]);
      }
    }

    method ReleaseExecution(isolatedRetry: bool)
      modifies this
      ensures shard == Release(old(shard), isolatedRetry)
    {
      if isolatedRetry {
        shard := shard.(retryRunning := Monus(shard.retryRunning, 1));
      } else {
        shard := shard.(running := Monus(shard.running, 1));
      }
    }

    /** Charges a failed attempt: a retry while attempts are left, quarantine otherwise. */
    method FailExecution(p: Limits, e: Execution, now: real) returns (ok: bool)
      modifies this
      ensures ok <==> RetryOrQuarantine(p, old(shard), e, now).Ok?
      ensures ok ==> shard == RetryOrQuarantine(p, old(shard), e, now).value
    {
      ReleaseExecution(e.isolatedRetry);
      var execution := e.(attempt := e.attempt + 1);
      if execution.attempt >= p.maxAttempts {
        shard := shard.(quarantine := shard.quarantine[e.record.sequence := e.record]);
        ok := UpdateOutcome(e.record, Failed, execution.attempt, []);
        shard := shard.(activeKeys := shard.activeKeys - {e.record.key});
        shard := shard.(failed := shard.failed + 1);
      } else {
        execution := execution.(isolatedRetry := true, availableAt := now + Backoff(execution.attempt));
        ok := UpdateOutcome(e.record, Pending, execution.attempt, []);
        shard := shard.(ready := shard.ready[e.record.sequence := execution]);
        shard := shard.(retryPending := shard.retryPending + 1);
      }
    }

    /** Stores the message of an emitting transition; another message under its number is a collision. */
    method EnqueueOutput(r: Record, value: Payload) returns (ok: bool)
      modifies this
      ensures ok <==> (r.sequence in old(shard).outputs ==> old(shard).outputs[r.sequence] == Message(r.key, r.eventId, r.sequence, value))
      ensures ok ==> shard == old(shard).(outputs := old(shard).outputs[r.sequence := Message(r.key, r.eventId, r.sequence, value)])
    {
      var message := Message(r.key, r.eventId, r.sequence, value);
      if r.sequence in shard.outputs {
        assert shard.outputs[r.sequence] == message ==> shard.outputs == shard.outputs[r.sequence := message];
        return shard.outputs[r.sequence] == message;
      }
      shard := shard.(outputs := shard.outputs[r.sequence := message]);
      return true;
    }

    /** Accepts the transition a handler returned. */
    method FinishExecution(e: Execution, next: StateValue, emit: Option<Payload>) returns (r: Result<(), Refusal>)
      modifies this
      ensures Commit(old(shard), e, next, emit).Ok? ==> r == Ok(()) && shard == Commit(old(shard), e, next, emit).value
      ensures Commit(old(shard), e, next, emit).Err? ==> r == Err(Commit(old(shard), e, next, emit).error)
    {
      shard := shard.(states := shard.states[e.record.key := next]);
      var messages := [];
      if emit.Some? {
        var sent := EnqueueOutput(e.record, emit.value);
        if !sent { return Err(OutputCollision); }
        messages := [e.record.sequence];
      }
      var ok := UpdateOutcome(e.record, Committed, e.attempt, messages);
      if !ok { return Err(OutcomeConflict); }
      shard := shard.(activeKeys := shard.activeKeys - {e.record.key});
      shard := shard.(history := shard.history + [Transition(e.record, e.prior, next, emit)]);
      ReleaseExecution(e.isolatedRetry);
      shard := shard.(completed := shard.completed + 1);
      return Ok(());
    }

    // -------------------------------------------------------------------------
    // Admitting

    /** Numbers an event and stores its outcome and its record. */
    method RecordEvent(record: Record) returns (ok: bool)
      modifies this
      ensures ok <==> (IdOf(record) in old(shard).outcomes ==> old(shard).outcomes[IdOf(record)].sequence == record.sequence)
      ensures ok ==> shard == Recorded(old(shard), record, if IdOf(record) in old(shard).outcomes then old(shard).outcomes[IdOf(record)] else Outcome(record.sequence, Pending, 0, []))
    {
      shard := shard.(nextSequence := record.sequence);
      ok := EnsurePending(record);
      if ok {
        shard := shard.(dedup := shard.dedup[IdOf(record) := record]);
        assert IdOf(record) in old(shard).outcomes ==> old(shard).outcomes == old(shard).outcomes[IdOf(record) := old(shard).outcomes[IdOf(record)]];
      }
    }

    /** Starts a recorded event at once if a slot and its key are free, and otherwise leaves it in the mailbox. */
    method PlaceRecord(p: Limits, record: Record, prior: Option<StateValue>, claimed: set<Name>, build: Name, now: real) returns (started: bool)
      requires prior == Find(shard.states, record.key) && claimed <= shard.activeKeys
      modifies this
      ensures started <==> old(shard).running < p.concurrency && record.key !in old(shard).activeKeys
      ensures shard == if started then StartRecord(old(shard), record, build, now) else Enqueue(old(shard), record)
    {
      started := shard.running < p.concurrency && record.key !in shard.activeKeys && record.key !in claimed;
      if started {
        shard := shard.(activeKeys := shard.activeKeys + {record.key});
        StartExecution(record, prior, build, now);
        shard := shard.(running := shard.running + 1);
      } else {
        shard := shard.(mailbox := shard.mailbox[record.sequence := record], pending := shard.pending + 1);
      }
    }

    /** Admits one event that was not admitted before. */
    method AdmitRecord(p: Limits, q: Request, prior: Option<StateValue>, claimed: set<Name>, build: Name, now: real) returns (r: Result<bool, Refusal>)
      requires (q.key, q.eventId) !in shard.dedup && prior == Find(shard.states, q.key) && claimed <= shard.activeKeys
      modifies this
      ensures AdmitOne(p, old(shard), q, build, now).Ok? ==> r.Ok? && shard == AdmitOne(p, old(shard), q, build, now).value
      ensures AdmitOne(p, old(shard), q, build, now).Err? ==> r == Err(AdmitOne(p, old(shard), q, build, now).error)
      ensures r.Ok? && r.value ==> q.key in shard.activeKeys
    {
      if q.key in shard.finalized { return Err(KeyFinalized); }
      var number := shard.nextSequence + 1;
      if number >= SEQUENCE_LIMIT { return Err(Exhausted); }
      var record := Record(number, q.key, q.eventId, q.body);
      var ok := RecordEvent(record);
      if !ok { return Err(OutcomeConflict); }
      var started := PlaceRecord(p, record, prior, claimed, build, now);
      return Ok(started);
    }

    /** How many events of the batch were never admitted, each counted once. */
    method CountNew(requests: seq<Request>) returns (count: nat)
      ensures count == |NewEvents(shard, requests)|
    {
      var unique: set<EventKey> := {};
      count := 0;
      var i := 0;
      while i < |requests|
        invariant 0 <= i <= |requests|
        invariant unique == NewEvents(shard, requests[..i]) && count == |unique|
      {
        var id := (requests[i].key, requests[i].eventId);
        assert forall j :: 0 <= j < i ==> requests[..i + 1][j] == requests[..i][j];
        assert requests[..i + 1][i] == requests[i];
        if id !in shard.dedup && id !in unique {
          unique := unique + {id};
          count := count + 1;
        }
        i := i + 1;
      }
      assert requests[..i] == requests;
    }

    /** Every event must name a key and carry an identifier. */
    method CheckRequests(requests: seq<Request>) returns (r: Result<(), Refusal>)
      ensures r == if exists i :: 0 <= i < |requests| && requests[i].key == "" then Err(MissingKey)
                   else if exists i :: 0 <= i < |requests| && Blank(requests[i].eventId) then Err(MissingEventId)
                   else Ok(())
    {
      for i := 0 to |requests|
        invariant forall j :: 0 <= j < i ==> requests[j].key != ""
      {
        if requests[i].key == "" { return Err(MissingKey); }
      }
      for i := 0 to |requests|
        invariant forall j :: 0 <= j < i ==> !Blank(requests[j].eventId)
      {
        if Blank(requests[i].eventId) { return Err(MissingEventId); }
      }
      return Ok(());
    }

    /** What the transaction reads before it changes anything: earlier admissions and states, event by event. */
    method Lookup(requests: seq<Request>) returns (found: seq<Option<Record>>, prior: seq<Option<StateValue>>)
      ensures |found| == |requests| && |prior| == |requests|
      ensures forall i :: 0 <= i < |requests| ==> found[i] == Find(shard.dedup, (requests[i].key, requests[i].eventId))
      ensures forall i :: 0 <= i < |requests| ==> prior[i] == Find(shard.states, requests[i].key)
    {
      found, prior := [], [];
      for i := 0 to |requests|
        invariant |found| == i && |prior| == i
        invariant forall j :: 0 <= j < i ==> found[j] == Find(shard.dedup, (requests[j].key, requests[j].eventId))
        invariant forall j :: 0 <= j < i ==> prior[j] == Find(shard.states, requests[j].key)
      {
        found := found + [Find(shard.dedup, (requests[i].key, requests[i].eventId))];
        prior := prior + [Find(shard.states, requests[i].key)];
      }
    }

    /** Admits a batch of events in order, then dispatches once. */
    method Append(p: Limits, requests: seq<Request>, build: Name, now: real) returns (r: Result<nat, Refusal>)
      modifies this
      ensures Admit(p, old(shard), requests, build, now).Ok? ==> r.Ok? && shard == Admit(p, old(shard), requests, build, now).value
      ensures Admit(p, old(shard), requests, build, now).Err? ==> r == Err(Admit(p, old(shard), requests, build, now).error)
    {
      var checked := CheckRequests(requests);
      if checked.Err? { return Err(checked.error); }
      var found, prior := Lookup(requests);
      var count := CountNew(requests);
      if Total(shard) + count > p.capacity { return Err(Full); }
      r := AppendRecords(p, requests, found, prior, build, now);
      if r.Ok? && shard.pending > 0 {
        DispatchWaiting(p, build, now);
      }
    }

    /** The records of one batch; an identifier repeated with the same contents is a duplicate and changes nothing. */
    method AppendRecords(p: Limits, requests: seq<Request>, found: seq<Option<Record>>, prior: seq<Option<StateValue>>, build: Name, now: real) returns (r: Result<nat, Refusal>)
      requires |found| == |requests| && |prior| == |requests|
      requires forall i :: 0 <= i < |requests| ==> found[i] == Find(shard.dedup, (requests[i].key, requests[i].eventId))
      requires forall i :: 0 <= i < |requests| ==> prior[i] == Find(shard.states, requests[i].key)
      modifies this
      ensures AdmitAll(p, old(shard), requests, build, now).Ok? ==> r.Ok? && shard == AdmitAll(p, old(shard), requests, build, now).value
      ensures AdmitAll(p, old(shard), requests, build, now).Err? ==> r == Err(AdmitAll(p, old(shard), requests, build, now).error)
    {
      var accepted := 0;
      var claimed: set<Name> := {};
      var admitted: map<EventKey, Record> := map[];
      for i := 0 to |requests|
        invariant AdmitAll(p, old(shard), requests[..i], build, now) == Ok(shard)
        invariant Admitted(old(shard).dedup, admitted, shard.dedup)
        invariant shard.states == old(shard).states && claimed <= shard.activeKeys
      {
        var q := requests[i];
        var id := (q.key, q.eventId);
        PrefixStep(p, old(shard), requests, i, build, now);
        var duplicate := if found[i].Some? then found[i] else Find(admitted, id);
        assert duplicate == Find(shard.dedup, id);
        if duplicate.Some? {
          if duplicate.value.body != q.body { return Err(ContentMismatch); }
        } else {
          AdmitOneReads(p, shard, q, build, now);
          var result := AdmitRecord(p, q, prior[i], claimed, build, now);
          if result.Err? { return Err(result.error); }
          admitted := admitted[id := shard.dedup[id]];
          if result.value { claimed := claimed + {q.key}; }
          accepted := accepted + 1;
        }
      }
      assert requests[..|requests|] == requests;
      return Ok(accepted);
    }

    // -------------------------------------------------------------------------
    // Granting

    /** Deletes the selected entries: one range when they are adjacent in the scan, one by one otherwise. */
    method RemoveReady(selected: seq<Candidate>)
      requires selected != [] && FromScan(selected, Ascend(shard.ready.Keys)[..Min2(READY_SCAN, |shard.ready|)])
      modifies this
      ensures shard == old(shard).(ready := Without(old(shard).ready, Numbers(selected)))
    {
      if Contiguous(selected) {
        RangeIsSelection(shard.ready, selected, Min2(READY_SCAN, |shard.ready|));
        RemoveRange(selected[0].number, selected[|selected| - 1].number);
      } else {
        RemoveEach(selected);
      }
    }

    method RemoveRange(first: nat, last: nat)
      modifies this
      ensures shard == old(shard).(ready := Outside(old(shard).ready, first, last))
    {
      shard := shard.(ready := Outside(shard.ready, first, last));
    }

    method RemoveEach(selected: seq<Candidate>)
      modifies this
      ensures shard == old(shard).(ready := Without(old(shard).ready, Numbers(selected)))
    {
      ghost var was, numbers := shard, Numbers(selected);
      WithoutNone(was.ready, numbers);
      for i := 0 to |selected|
        invariant shard == was.(ready := Without(was.ready, numbers[..i]))
      {
        WithoutNext(was.ready, numbers, i);
        shard := shard.(ready := shard.ready - {selected[i].number});
      }
    }

    /** The executions to lease, and how many of them are retries and how many of those still hold an ordinary slot. */
    method Collect(selected: seq<Candidate>, token: Name) returns (grants: map<nat, Grant>, retries: nat, legacy: nat)
      requires forall i :: 0 <= i < |selected| ==> selected[i].number in shard.ready
      ensures grants == Grants(shard.ready, token, Numbers(selected))
      ensures retries == RetryCount(shard.ready, Numbers(selected)) && legacy == LegacyCount(shard.ready, Numbers(selected))
    {
      ghost var numbers := Numbers(selected);
      grants, retries, legacy := map[], 0, 0;
      for i := 0 to |selected|
        invariant grants == Grants(shard.ready, token, numbers[..i])
        invariant retries == RetryCount(shard.ready, numbers[..i]) && legacy == LegacyCount(shard.ready, numbers[..i])
      {
        var n := selected[i].number;
        var e := shard.ready[n];
        CountsAppend(shard.ready, numbers[..i], n);
        assert numbers[..i + 1] == numbers[..i] + [n];
        if e.attempt > 0 {
          retries := retries + 1;
          if !e.isolatedRetry {
            legacy := legacy + 1;
            e := e.(isolatedRetry := true);
          }
        }
        GrantsSnoc(shard.ready, token, numbers[..i], n, e);
        grants := grants[n := Grant(token, e)];
      }
      assert numbers[..|selected|] == numbers;
    }

    /** Leases what the poll may take; an empty selection changes nothing. */
    method PollBatch(p: Limits, token: Name, epoch: nat, activation: nat, expires: real, builds: set<Name>, now: real) returns (granted: seq<nat>)
      requires token !in shard.leases
      modifies this
      ensures granted == Selected(p, old(shard), builds, now) && Grantable(old(shard), granted)
      ensures granted == [] ==> shard == old(shard)
      ensures granted != [] ==> shard == Granted(old(shard), token, epoch, activation, expires, granted)
    {
      var candidates := Scan(shard, builds, now);
      CandidatesSound(shard, builds, now);
      assert forall i :: 0 <= i < |candidates| ==> Numbers(candidates)[i] in Candidates(shard, builds, now);
      var selected := Choose(p, shard, candidates, Ascend(shard.ready.Keys)[..Min2(READY_SCAN, |shard.ready|)]);
      granted := Numbers(selected);
      SelectedSound(p, shard, builds, now);
      if selected != [] {
        LeaseBatch(token, Lease(epoch, activation, expires, granted), selected);
        GrantAllMoves(OpenLease(old(shard), token, epoch, activation, expires), token, granted);
      }
    }

    method LeaseBatch(token: Name, lease: Lease, selected: seq<Candidate>)
      requires selected != [] && FromScan(selected, Ascend(shard.ready.Keys)[..Min2(READY_SCAN, |shard.ready|)])
      requires Grantable(shard, Numbers(selected)) && lease.members == Numbers(selected) && token !in shard.leases
      modifies this
      ensures shard == Moved(OpenLease(old(shard), token, lease.epoch, lease.activation, lease.expires), token, lease.members)
    {
      assert forall i :: 0 <= i < |selected| ==> Numbers(selected)[i] == selected[i].number;
      var grants, retries, legacy := Collect(selected, token);
      RemoveReady(selected);
      ghost var s := old(shard);
      LeasedIsMoved(s, token, lease, Without(s.ready, lease.members), grants, retries, legacy);
      shard := shard.(running := Monus(shard.running, legacy));
      shard := shard.(retryPending := Monus(shard.retryPending, retries), retryRunning := shard.retryRunning + retries);
      shard := shard.(leased := shard.leased + grants, leases := shard.leases[token := lease]);
    }

    // -------------------------------------------------------------------------
    // Consuming a lease

    /** Applies each result to its execution in lease order, deletes the lease and dispatches. */
    method CompleteBatch(p: Limits, token: Name, items: seq<Item>, build: Name, now: real) returns (r: Result<(), Refusal>)
      requires LeaseStored(shard, token)
      modifies this
      ensures CompleteLease(p, old(shard), token, items, build, now).Ok? ==> r == Ok(()) && shard == CompleteLease(p, old(shard), token, items, build, now).value
      ensures CompleteLease(p, old(shard), token, items, build, now).Err? ==> r == Err(CompleteLease(p, old(shard), token, items, build, now).error)
    {
      if |items| != |shard.leases[token].members| { return Err(Incomplete); }
      r := FinishItems(p, token, items, now);
      if r.Err? { return; }
      DeleteLease(token);
      DispatchWaiting(p, build, now);
    }

    method DeleteLease(token: Name)
      requires token in shard.leases
      modifies this
      ensures shard == CloseLease(Remaining(old(shard), token, |old(shard).leases[token].members|), token)
    {
      var members := shard.leases[token].members;
      assert members[..|members|] == members;
      shard := shard.(leased := Unleased(shard.leased, members), leases := shard.leases - {token});
    }

    method FinishItem(p: Limits, e: Execution, item: Item, now: real) returns (r: Result<(), Refusal>)
      modifies this
      ensures Finished(p, old(shard), e, item, now).Ok? ==> r == Ok(()) && shard == Finished(p, old(shard), e, item, now).value
      ensures Finished(p, old(shard), e, item, now).Err? ==> r == Err(Finished(p, old(shard), e, item, now).error)
    {
      match item
      case Failure(_) =>
        var ok := FailExecution(p, e, now);
        if !ok { return Err(OutcomeConflict); }
        return Ok(());
      case Success(next, emit) =>
        r := FinishExecution(e, next, emit);
      case Malformed =>
        return Err(InvalidTransition);
    }

    method FinishItems(p: Limits, token: Name, items: seq<Item>, now: real) returns (r: Result<(), Refusal>)
      requires LeaseStored(shard, token) && |items| == |shard.leases[token].members|
      modifies this
      ensures FinishAll(p, old(shard), token, items, now).Ok? ==>
                && r == Ok(())
                && shard.leases == old(shard).leases && shard.leased == old(shard).leased
                && FinishAll(p, old(shard), token, items, now).value == Remaining(shard, token, |items|)
      ensures FinishAll(p, old(shard), token, items, now).Err? ==> r == Err(FinishAll(p, old(shard), token, items, now).error)
    {
      var members := shard.leases[token].members;
      RemainingAll(shard, token);
      assert items[0..] == items;
      for i := 0 to |items|
        invariant shard.leases == old(shard).leases && shard.leased == old(shard).leased && LeaseStored(shard, token)
        invariant FinishRest(p, shard, token, i, items[i..], now) == FinishAll(p, old(shard), token, items, now)
      {
        FinishRestStep(p, shard, token, i, items[i..], now);
        assert items[i..][0] == items[i] && items[i..][1..] == items[i + 1..];
        r := FinishItem(p, shard.leased[members[i]].execution, items[i], now);
        if r.Err? { return; }
      }
      return Ok(());
    }

    /** Makes an execution ready again; only a retry moves between counters. */
    method PutBackExecution(execution: Execution)
      modifies this
      ensures shard == PutBack(old(shard), execution)
    {
      var e := execution;
      if e.attempt > 0 {
        if e.isolatedRetry {
          shard := shard.(retryRunning := Monus(shard.retryRunning, 1));
        } else {
          shard := shard.(running := Monus(shard.running, 1));
          e := e.(isolatedRetry := true);
        }
        shard := shard.(retryPending := shard.retryPending + 1);
      }
      shard := shard.(ready := shard.ready[e.record.sequence := e]);
    }

    /** Puts every execution of a lease back into ready without charging it, and deletes the lease. */
    method ReturnBatch(token: Name)
      requires LeaseStored(shard, token)
      modifies this
      ensures shard == ReturnAll(old(shard), token)
    {
      var members, leased := shard.leases[token].members, shard.leased;
      ghost var was, all := shard, ReturnAll(shard, token);
      RemainingAll(shard, token);
      for i := 0 to |members|
        invariant Returning(was, shard, token, i, all) && leased == was.leased && members == was.leases[token].members
      {
        ReturnRestStep(shard, token, i);
        PutBackExecution(leased[members[i]].execution);
      }
      assert members[|members|..] == [];
      DeleteLease(token);
    }

    /** Declares a key final once nothing of it is pending, running or retrying. */
    method FinalizeKey(key: Name) returns (r: Result<(), Refusal>)
      modifies this
      ensures Finalize(old(shard), key).Ok? ==> r == Ok(()) && shard == Finalize(old(shard), key).value
      ensures Finalize(old(shard), key).Err? ==> r == Err(Finalize(old(shard), key).error)
    {
      if key == "" { return Err(MissingKey); }
      if key in shard.finalized { return Ok(()); }
      if key in shard.activeKeys { return Err(KeyBusy); }
      var waiting := Ascend(shard.mailbox.Keys);
      for i := 0 to |waiting|
        invariant forall j :: 0 <= j < i ==> shard.mailbox[waiting[j]].key != key
        invariant shard == old(shard)
      {
        assert waiting[i] in waiting;
        if shard.mailbox[waiting[i]].key == key {
          return Err(KeyBusy);
        }
      }
      assert forall n :: n in shard.mailbox ==> n in waiting;
      shard := shard.(finalized := shard.finalized + {key});
      return Ok(());
    }
  }

  // ---------------------------------------------------------------------------
  // A lease seen as what is left of it

  function Unleased(leased: map<nat, Grant>, members: seq<nat>): map<nat, Grant> {
    map n | n in leased && n !in members :: leased[n]
  }

  /** The shard as if the first `i` executions of the lease had been taken out of it. */
  function Remaining(s: Shard, token: Name, i: nat): Shard
    requires token in s.leases && i <= |s.leases[token].members|
  {
    var lease := s.leases[token];
    s.(leased := Unleased(s.leased, lease.members[..i]), leases := s.leases[token := lease.(members := lease.members[i..])])
  }

  /** What one result makes of an execution already taken out of its lease. */
  function Finished(p: Limits, s: Shard, e: Execution, item: Item, now: real): Result<Shard, Refusal> {
    match item
    case Failure(_) => RetryOrQuarantine(p, s, e, now)
    case Success(next, emit) => Commit(s, e, next, emit)
    case Malformed => Err(InvalidTransition)
  }

  lemma RemainingAll(s: Shard, token: Name)
    requires LeaseStored(s, token)
    ensures Remaining(s, token, 0) == s
  {
    assert s.leases[token].members[0..] == s.leases[token].members;
    assert Unleased(s.leased, []) == s.leased;
    assert s.leases[token].members[..0] == [];
  }

  lemma RemainingStored(s: Shard, token: Name, i: nat)
    requires LeaseStored(s, token) && i <= |s.leases[token].members|
    ensures LeaseStored(Remaining(s, token, i), token)
  {
    var members := s.leases[token].members;
    forall j | 0 <= j < |members[i..]| ensures members[i..][j] in Unleased(s.leased, members[..i]) {
      assert members[i..][j] == members[i + j];
    }
  }

  lemma RemainingTaken(s: Shard, token: Name, i: nat)
    requires LeaseStored(s, token) && i < |s.leases[token].members|
    ensures var r := Remaining(s, token, i); var n := s.leases[token].members[i];
            && token in r.leases && r.leases[token].members != [] && r.leases[token].members[0] == n
            && n in r.leased && r.leased[n] == s.leased[n]
            && TakeFirst(r, token) == Remaining(s, token, i + 1)
  {
    var members := s.leases[token].members;
    var n := members[i];
    assert members[i..][1..] == members[i + 1..];
    assert members[..i + 1] == members[..i] + [n];
    assert Unleased(s.leased, members[..i]) - {n} == Unleased(s.leased, members[..i + 1]);
  }

  /** The results still to come, for a lease that is only deleted at the end. */
  function FinishRest(p: Limits, s: Shard, token: Name, i: nat, items: seq<Item>, now: real): Result<Shard, Refusal>
    requires LeaseStored(s, token) && |s.leases[token].members| == i + |items|
  {
    RemainingStored(s, token, i);
    FinishAll(p, Remaining(s, token, i), token, items, now)
  }

  lemma FinishedLeavesLeases(p: Limits, s: Shard, e: Execution, item: Item, now: real)
    requires Finished(p, s, e, item, now).Ok?
    ensures Finished(p, s, e, item, now).value.leases == s.leases && Finished(p, s, e, item, now).value.leased == s.leased
  {
    match item
    case Failure(_) => RetryLeavesLeases(p, s, e, now);
    case Success(next, emit) => CommitLeavesLeases(s, e, next, emit);
    case Malformed =>
  }

  /** Finishing an execution does not depend on what is left of its lease. */
  lemma FinishedElsewhere(p: Limits, s: Shard, token: Name, i: nat, e: Execution, item: Item, now: real)
    requires token in s.leases && i <= |s.leases[token].members|
    ensures Finished(p, Remaining(s, token, i), e, item, now).Ok? <==> Finished(p, s, e, item, now).Ok?
    ensures Finished(p, s, e, item, now).Ok? ==>
              && Finished(p, s, e, item, now).value.leases == s.leases
              && Finished(p, Remaining(s, token, i), e, item, now).value == Remaining(Finished(p, s, e, item, now).value, token, i)
    ensures Finished(p, s, e, item, now).Err? ==> Finished(p, Remaining(s, token, i), e, item, now).error == Finished(p, s, e, item, now).error
  {
    match item
    case Failure(_) => FailedElsewhere(p, s, token, i, e, now);
    case Success(next, emit) => CommittedElsewhere(s, token, i, e, next, emit);
    case Malformed =>
  }

  lemma FailedElsewhere(p: Limits, s: Shard, token: Name, i: nat, e: Execution, now: real)
    requires token in s.leases && i <= |s.leases[token].members|
    ensures RetryOrQuarantine(p, Remaining(s, token, i), e, now).Ok? <==> RetryOrQuarantine(p, s, e, now).Ok?
    ensures RetryOrQuarantine(p, s, e, now).Ok? ==>
              && RetryOrQuarantine(p, s, e, now).value.leases == s.leases
              && RetryOrQuarantine(p, Remaining(s, token, i), e, now).value == Remaining(RetryOrQuarantine(p, s, e, now).value, token, i)
  {
    if e.attempt + 1 >= p.maxAttempts {
    } else {
    }
  }

  lemma CommittedElsewhere(s: Shard, token: Name, i: nat, e: Execution, next: StateValue, emit: Option<Payload>)
    requires token in s.leases && i <= |s.leases[token].members|
    ensures Commit(Remaining(s, token, i), e, next, emit).Ok? <==> Commit(s, e, next, emit).Ok?
    ensures Commit(s, e, next, emit).Err? ==> Commit(Remaining(s, token, i), e, next, emit).error == Commit(s, e, next, emit).error
    ensures Commit(s, e, next, emit).Ok? ==>
              && Commit(s, e, next, emit).value.leases == s.leases
              && Commit(Remaining(s, token, i), e, next, emit).value == Remaining(Commit(s, e, next, emit).value, token, i)
  {
  }

  lemma FinishRestStep(p: Limits, s: Shard, token: Name, i: nat, items: seq<Item>, now: real)
    requires LeaseStored(s, token) && |s.leases[token].members| == i + |items| && items != []
    ensures var f := Finished(p, s, s.leased[s.leases[token].members[i]].execution, items[0], now);
            && (f.Err? ==> FinishRest(p, s, token, i, items, now) == Err(f.error))
            && (f.Ok? ==> f.value.leases == s.leases && f.value.leased == s.leased
                          && FinishRest(p, s, token, i, items, now) == FinishRest(p, f.value, token, i + 1, items[1..], now))
  {
    var e := s.leased[s.leases[token].members[i]].execution;
    RemainingStored(s, token, i);
    RemainingTaken(s, token, i);
    FinishedElsewhere(p, s, token, i + 1, e, items[0], now);
    var f := Finished(p, s, e, items[0], now);
    if f.Ok? { FinishedLeavesLeases(p, s, e, items[0], now); }
  }

  function ReturnRest(s: Shard, token: Name, i: nat): Shard
    requires LeaseStored(s, token) && i <= |s.leases[token].members|
  {
    RemainingStored(s, token, i);
    ReturnAll(Remaining(s, token, i), token)
  }

  /** The first `i` members are back and returning the rest leads to `all`. */
  ghost predicate Returning(was: Shard, s: Shard, token: Name, i: nat, all: Shard) {
    && s.leases == was.leases && s.leased == was.leased && LeaseStored(s, token)
    && i <= |s.leases[token].members| && ReturnRest(s, token, i) == all
  }

  lemma ReturnRestStep(s: Shard, token: Name, i: nat)
    requires LeaseStored(s, token) && i < |s.leases[token].members|
    ensures var t := PutBack(s, s.leased[s.leases[token].members[i]].execution);
            t.leases == s.leases && t.leased == s.leased && LeaseStored(t, token) && ReturnRest(s, token, i) == ReturnRest(t, token, i + 1)
  {
    var e := s.leased[s.leases[token].members[i]].execution;
    RemainingStored(s, token, i);
    RemainingTaken(s, token, i);
    PutBackElsewhere(s, token, i + 1, e);
  }

  lemma PutBackElsewhere(s: Shard, token: Name, i: nat, e: Execution)
    requires token in s.leases && i <= |s.leases[token].members|
    ensures PutBack(s, e).leases == s.leases && PutBack(s, e).leased == s.leased
    ensures PutBack(Remaining(s, token, i), e) == Remaining(PutBack(s, e), token, i)
  {
    if e.attempt == 0 {
    } else if e.isolatedRetry {
    } else {
    }
  }

  lemma GrantsSnoc(ready: Work, token: Name, selected: seq<nat>, n: nat, e: Execution)
    requires n in ready && e == if ready[n].attempt > 0 then ready[n].(isolatedRetry := true) else ready[n]
    ensures Grants(ready, token, selected + [n]) == Grants(ready, token, selected)[n := Grant(token, e)]
  {
  }

  /** The records known now are those read first and those admitted since. */
  ghost predicate Admitted(first: map<EventKey, Record>, since: map<EventKey, Record>, now: map<EventKey, Record>) {
    forall id :: Find(now, id) == if id in first then Some(first[id]) else Find(since, id)
  }

  lemma PlacedReads(s: Shard, r: Record, o: Outcome, build: Name, now: real)
    ensures var t := StartRecord(Recorded(s, r, o), r, build, now);
            t.dedup == s.dedup[IdOf(r) := r] && t.states == s.states && s.activeKeys <= t.activeKeys
    ensures var t := Enqueue(Recorded(s, r, o), r);
            t.dedup == s.dedup[IdOf(r) := r] && t.states == s.states && s.activeKeys <= t.activeKeys
  {
  }

  /** Admitting a new event adds its record, keeps every state and frees no key. */
  lemma AdmitOneReads(p: Limits, s: Shard, q: Request, build: Name, now: real)
    requires (q.key, q.eventId) !in s.dedup
    ensures AdmitOne(p, s, q, build, now).Ok? ==>
              var t := AdmitOne(p, s, q, build, now).value; var r := Record(s.nextSequence + 1, q.key, q.eventId, q.body);
              t.dedup == s.dedup[IdOf(r) := r] && t.states == s.states && s.activeKeys <= t.activeKeys
  {
    var r := Record(s.nextSequence + 1, q.key, q.eventId, q.body);
    PlacedReads(s, r, if IdOf(r) in s.outcomes then s.outcomes[IdOf(r)] else Outcome(r.sequence, Pending, 0, []), build, now);
  }

  /** What holds for the admission of a prefix holds one event further, and a refusal inside it refuses the batch. */
  lemma PrefixStep(p: Limits, s: Shard, requests: seq<Request>, i: nat, build: Name, now: real)
    requires i < |requests|
    ensures AdmitAll(p, s, requests[..i + 1], build, now) ==
            if AdmitAll(p, s, requests[..i], build, now).Err? then AdmitAll(p, s, requests[..i], build, now)
            else AdmitOne(p, AdmitAll(p, s, requests[..i], build, now).value, requests[i], build, now)
    ensures AdmitAll(p, s, requests[..i + 1], build, now).Err? ==> AdmitAll(p, s, requests, build, now) == AdmitAll(p, s, requests[..i + 1], build, now)
  {
    var next := requests[..i + 1];
    assert next[..|next| - 1] == requests[..i] && next[|next| - 1] == requests[i];
    if AdmitAll(p, s, next, build, now).Err? { RefusedPrefix(p, s, requests, i + 1, build, now); }
  }

  lemma {:induction false} RefusedPrefix(p: Limits, s: Shard, requests: seq<Request>, i: nat, build: Name, now: real)
    requires i <= |requests| && AdmitAll(p, s, requests[..i], build, now).Err?
    ensures AdmitAll(p, s, requests, build, now) == AdmitAll(p, s, requests[..i], build, now)
    decreases |requests|
  {
    if i == |requests| {
      assert requests[..i] == requests;
    } else {
      var front := requests[..|requests| - 1];
      assert front[..i] == requests[..i];
      RefusedPrefix(p, s, front, i, build, now);
    }
  }
}
