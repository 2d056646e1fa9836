/**
 One shard of a keyed process: its mailbox, ready entries, batch leases, active
 keys, counters, outcomes and per-key state, and what each transaction does to them.
 */
module ProcessShard {
  import opened Wrappers
  import opened Text
  import opened Sequences

  type Name = string
  type StateValue = string
  type Payload = string
  type EventKey = (Name, Name)

  const SEQUENCE_LIMIT: nat := 0x100_0000_0000_0000
  const READY_SCAN: nat := 16384

  /** Per-shard limits; the process configuration is fixed during a run. */
  datatype Limits = Limits(concurrency: nat, retryConcurrency: nat, capacity: nat, maxAttempts: nat, batchMax: nat)

  datatype Request = Request(key: Name, eventId: Name, body: Payload)

  /** An admitted event. */
  datatype Record = Record(sequence: nat, key: Name, eventId: Name, body: Payload)

  datatype Execution = Execution(
    record: Record,
    prior: Option<StateValue>,
    build: Name,
    attempt: nat,
    isolatedRetry: bool,
    availableAt: real)

  /** An execution handed to a worker under a batch lease. */
  datatype Grant = Grant(token: Name, execution: Execution)

  /** A batch lease lists its executions in order; `leased` holds them by sequence. */
  datatype Lease = Lease(epoch: nat, activation: nat, expires: real, members: seq<nat>)

  datatype Status = Pending | Committed | Failed

  datatype Outcome = Outcome(sequence: nat, status: Status, attempts: nat, outputs: seq<nat>)

  datatype Message = Message(key: Name, eventId: Name, sequence: nat, value: Payload)

  /** One accepted state transition. */
  datatype Transition = Transition(record: Record, prior: Option<StateValue>, next: StateValue, emit: Option<Payload>)

  datatype Shard = Shard(
    nextSequence: nat,
    pending: nat,
    running: nat,
    retryPending: nat,
    retryRunning: nat,
    completed: nat,
    failed: nat,
    activeKeys: set<Name>,
    mailbox: map<nat, Record>,
    ready: map<nat, Execution>,
    leased: map<nat, Grant>,
    leases: map<Name, Lease>,
    dedup: map<EventKey, Record>,
    outcomes: map<EventKey, Outcome>,
    states: map<Name, StateValue>,
    outputs: map<nat, Message>,
    quarantine: map<nat, Record>,
    finalized: set<Name>,
    history: seq<Transition>,
    starts: seq<Record>)

  const EMPTY := Shard(0, 0, 0, 0, 0, 0, 0, {}, map[], map[], map[], map[], map[], map[], map[], map[], map[], {}, [], [])

  /** What a worker reports for one execution: a failure, a transition, or something that is neither. */
  datatype Item =
    | Failure(reason: Payload)
    | Success(next: StateValue, emit: Option<Payload>)
    | Malformed

  datatype Refusal =
    | MissingKey | MissingEventId | Full | ContentMismatch | KeyFinalized | Exhausted
    | LeaseLost | Incomplete | Fenced | InvalidTransition | OutcomeConflict | OutputCollision | KeyBusy

  function IdOf(r: Record): EventKey {
    (r.key, r.eventId)
  }

  function Find<K, V>(m: map<K, V>, k: K): Option<V> {
    if k in m then Some(m[k]) else None
  }

  function Monus(a: nat, b: nat): nat {
    if a >= b then a - b else 0
  }

  function Total(s: Shard): nat {
    s.pending + s.running + s.retryPending + s.retryRunning
  }

  // ---------------------------------------------------------------------------
  // Starting work

  function StartRecord(s: Shard, r: Record, build: Name, now: real): Shard {
    s.(ready := s.ready[r.sequence := Execution(r, Find(s.states, r.key), build, 0, false, now)],
       activeKeys := s.activeKeys + {r.key},
       running := s.running + 1,
       starts := s.starts + [r])
  }

  function Enqueue(s: Shard, r: Record): Shard {
    s.(mailbox := s.mailbox[r.sequence := r], pending := s.pending + 1)
  }

  function Dequeue(s: Shard, n: nat): Shard {
    s.(mailbox := s.mailbox - {n}, pending := Monus(s.pending, 1))
  }

  /** The mailbox window one dispatch looks at. */
  function Window(p: Limits, s: Shard): seq<nat> {
    var all := Ascend(s.mailbox.Keys);
    all[..Min2(p.concurrency, |all|)]
  }

  function DispatchWindow(p: Limits, s: Shard, window: seq<nat>, build: Name, now: real): Shard
    decreases |window|
  {
    if window == [] || s.running >= p.concurrency then s
    else
      var n := window[0];
      if n !in s.mailbox || s.mailbox[n].key in s.activeKeys then DispatchWindow(p, s, window[1..], build, now)
      else DispatchWindow(p, StartRecord(Dequeue(s, n), s.mailbox[n], build, now), window[1..], build, now)
  }

  function Dispatch(p: Limits, s: Shard, build: Name, now: real): Shard {
    DispatchWindow(p, s, Window(p, s), build, now)
  }

  // ---------------------------------------------------------------------------
  // Admission

  /** Gives an event its sequence number, its dedup record and its outcome. */
  function Recorded(s: Shard, r: Record, outcome: Outcome): Shard {
    s.(nextSequence := r.sequence, dedup := s.dedup[IdOf(r) := r], outcomes := s.outcomes[IdOf(r) := outcome])
  }

  function AdmitOne(p: Limits, s: Shard, r: Request, build: Name, now: real): Result<Shard, Refusal> {
    var id := (r.key, r.eventId);
    if id in s.dedup then
      if s.dedup[id].body == r.body then Ok(s) else Err(ContentMismatch)
    else if r.key in s.finalized then Err(KeyFinalized)
    else if s.nextSequence + 1 >= SEQUENCE_LIMIT then Err(Exhausted)
    else if id in s.outcomes && s.outcomes[id].sequence != s.nextSequence + 1 then Err(OutcomeConflict)
    else
      var record := Record(s.nextSequence + 1, r.key, r.eventId, r.body);
      var outcome := if id in s.outcomes then s.outcomes[id] else Outcome(record.sequence, Pending, 0, []);
      var t := Recorded(s, record, outcome);
      if s.running < p.concurrency && r.key !in s.activeKeys then Ok(StartRecord(t, record, build, now))
      else Ok(Enqueue(t, record))
  }

  function AdmitAll(p: Limits, s: Shard, requests: seq<Request>, build: Name, now: real): Result<Shard, Refusal>
    decreases |requests|
  {
    if requests == [] then Ok(s)
    else
      match AdmitAll(p, s, requests[..|requests| - 1], build, now)
      case Err(e) => Err(e)
      case Ok(t) => AdmitOne(p, t, requests[|requests| - 1], build, now)
  }

  function NewEvents(s: Shard, requests: seq<Request>): set<EventKey> {
    set i | 0 <= i < |requests| && (requests[i].key, requests[i].eventId) !in s.dedup ::
      (requests[i].key, requests[i].eventId)
  }

  /** One ingress batch: the capacity check covers the batch as a whole, then each event in order, then one dispatch. */
  function Admit(p: Limits, s: Shard, requests: seq<Request>, build: Name, now: real): Result<Shard, Refusal> {
    if exists i :: 0 <= i < |requests| && requests[i].key == "" then Err(MissingKey)
    else if exists i :: 0 <= i < |requests| && Blank(requests[i].eventId) then Err(MissingEventId)
    else if Total(s) + |NewEvents(s, requests)| > p.capacity then Err(Full)
    else
      match AdmitAll(p, s, requests, build, now)
      case Err(e) => Err(e)
      case Ok(t) => Ok(if t.pending > 0 then Dispatch(p, t, build, now) else t)
  }

  // ---------------------------------------------------------------------------
  // Granting

  function OpenLease(s: Shard, token: Name, epoch: nat, activation: nat, expires: real): Shard {
    s.(leases := s.leases[token := Lease(epoch, activation, expires, [])])
  }

  /** Moves one ready execution into a lease; a retry moves from the pending to the running retries. */
  function GrantOne(s: Shard, token: Name, n: nat): Shard
    requires n in s.ready && token in s.leases
  {
    var e := s.ready[n];
    var lease := s.leases[token];
    var retry := e.attempt > 0;
    var legacy := retry && !e.isolatedRetry;
    s.(ready := s.ready - {n},
       leased := s.leased[n := Grant(token, if legacy then e.(isolatedRetry := true) else e)],
       leases := s.leases[token := lease.(members := lease.members + [n])],
       running := if legacy then Monus(s.running, 1) else s.running,
       retryPending := if retry then Monus(s.retryPending, 1) else s.retryPending,
       retryRunning := if retry then s.retryRunning + 1 else s.retryRunning)
  }

  function GrantAll(s: Shard, token: Name, selected: seq<nat>): Shard
    requires token in s.leases
    requires forall i :: 0 <= i < |selected| ==> selected[i] in s.ready
    requires forall i, j :: 0 <= i < j < |selected| ==> selected[i] != selected[j]
    decreases |selected|
  {
    if selected == [] then s else GrantAll(GrantOne(s, token, selected[0]), token, selected[1..])
  }

  predicate Eligible(e: Execution, builds: set<Name>, now: real) {
    e.availableAt <= now && e.build in builds
  }

  /** Ready entries the poll may take, in ready order, among the first entries of the scan. */
  function Candidates(s: Shard, builds: set<Name>, now: real): seq<nat> {
    var all := Ascend(s.ready.Keys);
    EligibleAmong(s, all[..Min2(READY_SCAN, |all|)], builds, now)
  }

  function EligibleAmong(s: Shard, scan: seq<nat>, builds: set<Name>, now: real): seq<nat> {
    if scan == [] then []
    else
      var rest := EligibleAmong(s, scan[..|scan| - 1], builds, now);
      var n := scan[|scan| - 1];
      if n in s.ready && Eligible(s.ready[n], builds, now) then rest + [n] else rest
  }

  /** Walks the candidates, skipping retries beyond the free retry slots, until the batch is full. */
  function Select(s: Shard, candidates: seq<nat>, slots: nat, room: nat): seq<nat>
    decreases |candidates|
  {
    if candidates == [] || room == 0 then []
    else
      var n := candidates[0];
      var retry := n in s.ready && s.ready[n].attempt > 0;
      if retry && slots == 0 then Select(s, candidates[1..], slots, room)
      else [n] + Select(s, candidates[1..], if retry then slots - 1 else slots, room - 1)
  }

  function BatchRoom(p: Limits): nat {
    if p.batchMax < 1 then 1 else if p.batchMax > READY_SCAN then READY_SCAN else p.batchMax
  }

  function Selected(p: Limits, s: Shard, builds: set<Name>, now: real): seq<nat> {
    Select(s, Candidates(s, builds, now), Monus(p.retryConcurrency, s.retryRunning), BatchRoom(p))
  }

  // ---------------------------------------------------------------------------
  // Finishing

  function Release(s: Shard, isolatedRetry: bool): Shard {
    if isolatedRetry then s.(retryRunning := Monus(s.retryRunning, 1)) else s.(running := Monus(s.running, 1))
  }

  /** Takes an execution out of its lease. */
  function TakeFirst(s: Shard, token: Name): Shard
    requires token in s.leases && s.leases[token].members != []
  {
    var lease := s.leases[token];
    s.(leased := s.leased - {lease.members[0]}, leases := s.leases[token := lease.(members := lease.members[1..])])
  }

  /** An outcome may be written for its own number only, and a terminal one only again with the same status. */
  predicate MayUpdate(outcomes: map<EventKey, Outcome>, r: Record, status: Status) {
    IdOf(r) in outcomes ==>
      && outcomes[IdOf(r)].sequence == r.sequence
      && (outcomes[IdOf(r)].status == Pending || outcomes[IdOf(r)].status == status)
  }

  /** The one message an accepted transition sends, if it emits. */
  function Emitted(r: Record, emit: Option<Payload>): Option<Message> {
    if emit.Some? then Some(Message(r.key, r.eventId, r.sequence, emit.value)) else None
  }

  /** Accepts a transition: new key state, at most one output message, a committed outcome, the key freed. */
  function Commit(s: Shard, e: Execution, next: StateValue, emit: Option<Payload>): Result<Shard, Refusal> {
    var r := e.record;
    var message := Emitted(r, emit);
    if message.Some? && r.sequence in s.outputs && s.outputs[r.sequence] != message.value then Err(OutputCollision)
    else if !MayUpdate(s.outcomes, r, Committed) then Err(OutcomeConflict)
    else
      var t := s.(states := s.states[r.key := next],
                  outputs := if message.Some? then s.outputs[r.sequence := message.value] else s.outputs,
                  outcomes := s.outcomes[IdOf(r) := Outcome(r.sequence, Committed, e.attempt, if message.Some? then [r.sequence] else [])],
                  activeKeys := s.activeKeys - {r.key},
                  completed := s.completed + 1,
                  history := s.history + [Transition(r, e.prior, next, emit)]);
      Ok(Release(t, e.isolatedRetry))
  }

  /** A tenth of a second, doubled for each further attempt, at most five seconds. */
  function Backoff(attempt: nat): real {
    if attempt <= 1 then 0.1 else if attempt == 2 then 0.2 else if attempt == 3 then 0.4
    else if attempt == 4 then 0.8 else if attempt == 5 then 1.6 else if attempt == 6 then 3.2 else 5.0
  }

  function Quarantine(s: Shard, e: Execution): Shard {
    s.(quarantine := s.quarantine[e.record.sequence := e.record],
       outcomes := s.outcomes[IdOf(e.record) := Outcome(e.record.sequence, Failed, e.attempt + 1, [])],
       activeKeys := s.activeKeys - {e.record.key},
       failed := s.failed + 1)
  }

  function RetryOf(e: Execution, now: real): Execution {
    e.(attempt := e.attempt + 1, isolatedRetry := true, availableAt := now + Backoff(e.attempt + 1))
  }

  function Requeue(s: Shard, e: Execution, now: real): Shard {
    s.(ready := s.ready[e.record.sequence := RetryOf(e, now)],
       outcomes := s.outcomes[IdOf(e.record) := Outcome(e.record.sequence, Pending, e.attempt + 1, [])],
       retryPending := s.retryPending + 1)
  }

  /** A failed or lost attempt goes back to ready as an isolated retry, or to quarantine once the attempts are used up. */
  function RetryOrQuarantine(p: Limits, s: Shard, e: Execution, now: real): Result<Shard, Refusal> {
    var t := Release(s, e.isolatedRetry);
    if e.attempt + 1 >= p.maxAttempts then
      if MayUpdate(s.outcomes, e.record, Failed) then Ok(Quarantine(t, e)) else Err(OutcomeConflict)
    else
      if MayUpdate(s.outcomes, e.record, Pending) then Ok(Requeue(t, e, now)) else Err(OutcomeConflict)
  }

  function FinishOne(p: Limits, s: Shard, token: Name, item: Item, now: real): Result<Shard, Refusal>
    requires token in s.leases && s.leases[token].members != []
    requires s.leases[token].members[0] in s.leased
  {
    var e := s.leased[s.leases[token].members[0]].execution;
    var t := TakeFirst(s, token);
    match item
    case Failure(_) => RetryOrQuarantine(p, t, e, now)
    case Success(next, emit) => Commit(t, e, next, emit)
    case Malformed => Err(InvalidTransition)
  }

  /** The lease's remaining executions are distinct and stored. */
  predicate LeaseStored(s: Shard, token: Name) {
    && token in s.leases
    && var m := s.leases[token].members;
    && (forall i :: 0 <= i < |m| ==> m[i] in s.leased)
    && (forall i, j :: 0 <= i < j < |m| ==> m[i] != m[j])
  }

  lemma TakeKeepsLease(s: Shard, token: Name)
    requires LeaseStored(s, token) && s.leases[token].members != []
    ensures LeaseStored(TakeFirst(s, token), token)
    ensures TakeFirst(s, token).leases == s.leases[token := s.leases[token].(members := s.leases[token].members[1..])]
  {
    var m := s.leases[token].members;
    assert forall i :: 0 <= i < |m[1..]| ==> m[1..][i] == m[i + 1];
  }

  lemma CommitLeavesLeases(s: Shard, e: Execution, next: StateValue, emit: Option<Payload>)
    requires Commit(s, e, next, emit).Ok?
    ensures Commit(s, e, next, emit).value.leases == s.leases && Commit(s, e, next, emit).value.leased == s.leased
  {
  }

  lemma RetryLeavesLeases(p: Limits, s: Shard, e: Execution, now: real)
    requires RetryOrQuarantine(p, s, e, now).Ok?
    ensures RetryOrQuarantine(p, s, e, now).value.leases == s.leases
    ensures RetryOrQuarantine(p, s, e, now).value.leased == s.leased
  {
    if e.attempt + 1 >= p.maxAttempts {
    } else {
    }
  }

  lemma FinishKeepsLease(p: Limits, s: Shard, token: Name, item: Item, now: real)
    requires LeaseStored(s, token) && s.leases[token].members != []
    requires FinishOne(p, s, token, item, now).Ok?
    ensures var t := FinishOne(p, s, token, item, now).value;
            LeaseStored(t, token) && t.leases == s.leases[token := s.leases[token].(members := s.leases[token].members[1..])]
  {
    TakeKeepsLease(s, token);
    var e := s.leased[s.leases[token].members[0]].execution;
    var t := TakeFirst(s, token);
    match item
    case Failure(_) => RetryLeavesLeases(p, t, e, now);
    case Success(next, emit) => CommitLeavesLeases(t, e, next, emit);
    case Malformed =>
  }

  function FinishAll(p: Limits, s: Shard, token: Name, items: seq<Item>, now: real): Result<Shard, Refusal>
    requires LeaseStored(s, token) && |s.leases[token].members| == |items|
    decreases |items|
  {
    if items == [] then Ok(s)
    else
      match FinishOne(p, s, token, items[0], now)
      case Err(e) => Err(e)
      case Ok(t) => FinishKeepsLease(p, s, token, items[0], now); FinishAll(p, t, token, items[1..], now)
  }

  function CloseLease(s: Shard, token: Name): Shard {
    s.(leases := s.leases - {token})
  }

  /** One completion: every item in lease order, the lease consumed, then one dispatch. */
  function CompleteLease(p: Limits, s: Shard, token: Name, items: seq<Item>, build: Name, now: real): Result<Shard, Refusal>
    requires LeaseStored(s, token)
  {
    if |items| != |s.leases[token].members| then Err(Incomplete)
    else
      match FinishAll(p, s, token, items, now)
      case Err(e) => Err(e)
      case Ok(t) => Ok(Dispatch(p, CloseLease(t, token), build, now))
  }

  /** A lost lease fails every execution it holds. */
  function LoseLease(p: Limits, s: Shard, token: Name, build: Name, now: real): Result<Shard, Refusal>
    requires LeaseStored(s, token)
  {
    CompleteLease(p, s, token, seq(|s.leases[token].members|, _ => Failure("lost")), build, now)
  }

  /** Makes an execution ready again without charging an attempt. */
  function PutBack(s: Shard, e: Execution): Shard {
    var n := e.record.sequence;
    if e.attempt == 0 then s.(ready := s.ready[n := e])
    else if e.isolatedRetry then
      s.(ready := s.ready[n := e], retryRunning := Monus(s.retryRunning, 1), retryPending := s.retryPending + 1)
    else
      s.(ready := s.ready[n := e.(isolatedRetry := true)], running := Monus(s.running, 1), retryPending := s.retryPending + 1)
  }

  function ReturnFirst(s: Shard, token: Name): Shard
    requires token in s.leases && s.leases[token].members != []
    requires s.leases[token].members[0] in s.leased
  {
    PutBack(TakeFirst(s, token), s.leased[s.leases[token].members[0]].execution)
  }

  lemma ReturnKeepsLease(s: Shard, token: Name)
    requires LeaseStored(s, token) && s.leases[token].members != []
    ensures LeaseStored(ReturnFirst(s, token), token)
    ensures ReturnFirst(s, token).leases == s.leases[token := s.leases[token].(members := s.leases[token].members[1..])]
  {
    TakeKeepsLease(s, token);
  }

  function ReturnAll(s: Shard, token: Name): Shard
    requires LeaseStored(s, token)
    decreases |s.leases[token].members|
  {
    if s.leases[token].members == [] then CloseLease(s, token)
    else ReturnKeepsLease(s, token); ReturnAll(ReturnFirst(s, token), token)
  }

  // ---------------------------------------------------------------------------
  // Finality

  predicate KeyQuiet(s: Shard, key: Name) {
    key !in s.activeKeys && forall n :: n in s.mailbox ==> s.mailbox[n].key != key
  }

  function Finalize(s: Shard, key: Name): Result<Shard, Refusal> {
    if key == "" then Err(MissingKey)
    else if key in s.finalized then Ok(s)
    else if !KeyQuiet(s, key) then Err(KeyBusy)
    else Ok(s.(finalized := s.finalized + {key}))
  }
}
