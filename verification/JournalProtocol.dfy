/**
 The journal of one partition as a protocol over its atomic steps. Any number of
 clients act on one object store; a client may crash, hold a stale cursor, lose
 the reply to its conditional head update, or see that update land late.
 */
module JournalProtocol {
  import opened Wrappers
  import opened JournalLog

  type ClientId = nat

  /** A conditional head update on its way to the store. */
  datatype HeadPut = HeadPut(head: Head, expected: Option<Cursor>, payload: Payload)

  datatype Phase =
    | Idle
    | Awaiting(put: HeadPut)
    | Doubtful(put: HeadPut)
    | Walking(cursor: Option<Cursor>, after: nat, path: Option<Path>, expected: nat, found: seq<Recovered>)
    | Bailed

  datatype Client = Client(cursor: Option<Cursor>, phase: Phase)

  /** Results returned to callers, kept as history. */
  datatype Outcome =
    | Appended(path: Path, cursor: Cursor, payload: Payload)
    | Rejected(path: Path)
    | Suffix(read: Option<Cursor>, after: nat, records: seq<Recovered>)

  /** The partition's objects: its records, its head, and the last version the store issued. */
  datatype Store = Store(records: map<Path, Record>, head: Option<Cursor>, issued: nat)

  /** `flying` are head updates the store has not seen yet; `won` are those it applied. */
  datatype State = State(
    store: Store,
    flying: map<Path, HeadPut>,
    won: map<Path, Cursor>,
    clients: map<ClientId, Client>,
    outcomes: seq<Outcome>)

  datatype Step =
    | Open(c: ClientId)
    | StoreRecord(c: ClientId, epoch: nat, payload: Payload, path: Path)
    | StoreRecordFails(c: ClientId, epoch: nat, payload: Payload, path: Path, stored: bool)
    | Deliver(path: Path)
    | Acknowledge(c: ClientId)
    | LoseReply(c: ClientId)
    | ReadBack(c: ClientId)
    | ReadBackFails(c: ClientId)
    | StartRecover(c: ClientId, after: nat)
    | ReadRecord(c: ClientId)
    | FinishRecover(c: ClientId)
    | AbandonRecover(c: ClientId)

  const INIT := State(Store(map[], None, 0), map[], map[], map[], [])

  predicate Admissible(cursor: Option<Cursor>, epoch: nat) {
    epoch > 0 && (cursor.Some? ==> EpochStep(cursor.value.head.epoch, epoch))
  }

  function RecordFor(cursor: Option<Cursor>, epoch: nat, payload: Payload): Record {
    Record(
      epoch,
      if cursor.Some? then cursor.value.head.position + 1 else 1,
      if cursor.Some? then Some(cursor.value.head.path) else None,
      payload)
  }

  function PutFor(cursor: Option<Cursor>, epoch: nat, payload: Payload, path: Path): HeadPut {
    HeadPut(Head(epoch, RecordFor(cursor, epoch, payload).position, path), cursor, payload)
  }

  predicate IsIdle(s: State, c: ClientId) {
    c in s.clients && s.clients[c].phase.Idle?
  }

  predicate IsWalking(s: State, c: ClientId) {
    c in s.clients && s.clients[c].phase.Walking?
  }

  predicate CanAppend(s: State, c: ClientId, epoch: nat, path: Path) {
    IsIdle(s, c) && Admissible(s.clients[c].cursor, epoch) && path !in s.store.records
  }

  predicate Enabled(s: State, step: Step) {
    match step
    case Open(c) => true
    case StoreRecord(c, epoch, _, path) => CanAppend(s, c, epoch, path)
    case StoreRecordFails(c, epoch, _, path, _) => CanAppend(s, c, epoch, path)
    case Deliver(path) => path in s.flying
    case Acknowledge(c) => c in s.clients && s.clients[c].phase.Awaiting? && s.clients[c].phase.put.head.path in s.won
    case LoseReply(c) => c in s.clients && s.clients[c].phase.Awaiting?
    case ReadBack(c) => c in s.clients && s.clients[c].phase.Doubtful?
    case ReadBackFails(c) => c in s.clients && s.clients[c].phase.Doubtful?
    case StartRecover(c, _) => IsIdle(s, c)
    case ReadRecord(c) => IsWalking(s, c) && s.clients[c].phase.expected > s.clients[c].phase.after
    case FinishRecover(c) => IsWalking(s, c) && s.clients[c].phase.expected <= s.clients[c].phase.after
    case AbandonRecover(c) => IsWalking(s, c)
  }

  function SetClient(s: State, c: ClientId, client: Client): State {
    s.(clients := s.clients[c := client])
  }

  function SetPhase(s: State, c: ClientId, phase: Phase): State
    requires c in s.clients
  {
    SetClient(s, c, s.clients[c].(phase := phase))
  }

  function Report(s: State, outcome: Outcome): State {
    s.(outcomes := s.outcomes + [outcome])
  }

  function AddRecord(s: State, path: Path, record: Record): State {
    s.(store := s.store.(records := s.store.records[path := record]))
  }

  /** The store applies a conditional put exactly when the version it expects is current. */
  predicate Matches(store: Store, expected: Option<Cursor>) {
    if expected.None? then store.head.None?
    else store.head.Some? && store.head.value.version == expected.value.version
  }

  function DeliverPut(s: State, path: Path): State
    requires path in s.flying
  {
    var put := s.flying[path];
    var rest := s.(flying := s.flying - {path});
    if !Matches(s.store, put.expected) then rest else
    var next := Cursor(put.head, s.store.issued + 1);
    rest.(store := s.store.(head := Some(next), issued := s.store.issued + 1), won := s.won[path := next])
  }

  /** One iteration of the recovery loop: fetch the record the walk stands at, or bail. */
  function ReadOne(store: Store, w: Phase): Phase
    requires w.Walking? && w.expected > w.after
  {
    if w.path.None? || w.path.value !in store.records then Bailed else
    var r := store.records[w.path.value];
    if r.position != w.expected || r.epoch == 0 then Bailed else
    w.(path := r.parent, expected := w.expected - 1, found := w.found + [Recovered(r.epoch, r.position, r.payload)])
  }

  function StartWalk(head: Option<Cursor>, after: nat): Phase {
    if head.None? then Walking(None, after, None, 0, [])
    else Walking(head, after, Some(head.value.head.path), head.value.head.position, [])
  }

  function Apply(s: State, step: Step): State
    requires Enabled(s, step)
  {
    match step
    case Open(c) => SetClient(s, c, Client(None, Idle))
    case StoreRecord(c, epoch, payload, path) =>
      var cursor := s.clients[c].cursor;
      var put := PutFor(cursor, epoch, payload, path);
      var t := AddRecord(s, path, RecordFor(cursor, epoch, payload));
      SetPhase(t.(flying := s.flying[path := put]), c, Awaiting(put))
    case StoreRecordFails(c, epoch, payload, path, stored) =>
      Report(if stored then AddRecord(s, path, RecordFor(s.clients[c].cursor, epoch, payload)) else s, Rejected(path))
    case Deliver(path) => DeliverPut(s, path)
    case Acknowledge(c) =>
      var put := s.clients[c].phase.put;
      var next := s.won[put.head.path];
      Report(SetClient(s, c, Client(Some(next), Idle)), Appended(put.head.path, next, put.payload))
    case LoseReply(c) => SetPhase(s, c, Doubtful(s.clients[c].phase.put))
    case ReadBack(c) =>
      var put := s.clients[c].phase.put;
      var head := s.store.head;
      if head.Some? && head.value.head == put.head then
        Report(SetClient(s, c, Client(head, Idle)), Appended(put.head.path, head.value, put.payload))
      else
        Report(SetPhase(s, c, Idle), Rejected(put.head.path))
    case ReadBackFails(c) => Report(SetPhase(s, c, Idle), Rejected(s.clients[c].phase.put.head.path))
    case StartRecover(c, after) => SetPhase(s, c, StartWalk(s.store.head, after))
    case ReadRecord(c) => SetPhase(s, c, ReadOne(s.store, s.clients[c].phase))
    case FinishRecover(c) =>
      var w := s.clients[c].phase;
      var found := Reversed(w.found);
      if !Monotonic(found) then SetPhase(s, c, Bailed)
      else Report(SetClient(s, c, Client(w.cursor, Idle)), Suffix(w.cursor, w.after, found))
    case AbandonRecover(c) => SetPhase(s, c, Idle)
  }

  // ---------------------------------------------------------------------------
  // Invariant

  ghost predicate StoreOk(store: Store) {
    HeadOk(store.records, store.head) && (store.head.Some? ==> store.head.value.version == store.issued)
  }

  function LogOf(store: Store): seq<Path>
    requires HeadOk(store.records, store.head)
  {
    Log(store.records, store.head)
  }

  /** The cursor was the head once: it names a log entry, and its version pins its head. */
  ghost predicate Seen(store: Store, c: Cursor)
    requires StoreOk(store)
  {
    && store.head.Some?
    && c.version <= store.head.value.version
    && (c.version == store.head.value.version ==> c == store.head.value)
    && Linked(store.records, c.head.path, c.head.position)
    && store.records[c.head.path].epoch == c.head.epoch
    && Chain(store.records, c.head.path, c.head.position) <= LogOf(store)
  }

  ghost predicate SeenOption(store: Store, c: Option<Cursor>)
    requires StoreOk(store)
    ensures SeenOption(store, c) ==> HeadOk(store.records, c)
  {
    c.Some? ==> Seen(store, c.value)
  }

  /** The record behind a head update is stored and continues the cursor it was built on. */
  ghost predicate PutOk(store: Store, put: HeadPut)
    requires StoreOk(store)
  {
    && SeenOption(store, put.expected)
    && Admissible(put.expected, put.head.epoch)
    && put == PutFor(put.expected, put.head.epoch, put.payload, put.head.path)
    && put.head.path in store.records
    && store.records[put.head.path] == RecordFor(put.expected, put.head.epoch, put.payload)
  }

  ghost predicate WonOk(store: Store, path: Path, cursor: Cursor)
    requires StoreOk(store)
  {
    cursor.head.path == path && Seen(store, cursor)
  }

  /** A recovery walk holds, newest first, exactly the entries above its current position. */
  ghost predicate WalkOk(store: Store, w: Phase)
    requires StoreOk(store)
    requires w.Walking?
  {
    && SeenOption(store, w.cursor)
    && var log := Log(store.records, w.cursor);
    && w.expected <= |log|
    && (w.expected < |log| ==> w.after <= w.expected)
    && (forall i :: 0 <= i < |log| ==> log[i] in store.records)
    && w.path == (if w.expected == 0 then None else Some(log[w.expected - 1]))
    && w.found == Reversed(Entries(store.records, log, w.expected, |log|))
  }

  ghost predicate PhaseOk(store: Store, won: map<Path, Cursor>, phase: Phase)
    requires StoreOk(store)
  {
    match phase
    case Idle => true
    case Awaiting(put) => PutOk(store, put) && (put.head.path in won ==> won[put.head.path].head == put.head)
    case Doubtful(put) => PutOk(store, put) && (put.head.path in won ==> won[put.head.path].head == put.head)
    case Walking(_, _, _, _, _) => WalkOk(store, phase)
    case Bailed => false
  }

  ghost predicate ClientOk(s: State, client: Client)
    requires StoreOk(s.store)
  {
    && SeenOption(s.store, client.cursor)
    && PhaseOk(s.store, s.won, client.phase)
    && ((client.phase.Awaiting? || client.phase.Doubtful?) && client.phase.put.head.path in s.flying ==>
          s.flying[client.phase.put.head.path] == client.phase.put)
  }

  ghost predicate OutcomeOk(store: Store, outcome: Outcome)
    requires StoreOk(store)
  {
    match outcome
    case Appended(path, cursor, payload) =>
      && cursor.head.path == path
      && Seen(store, cursor)
      && store.records[path].payload == payload
    case Rejected(_) => true
    case Suffix(cursor, after, records) =>
      && SeenOption(store, cursor)
      && var log := Log(store.records, cursor);
      && (forall i :: 0 <= i < |log| ==> log[i] in store.records)
      && records == Entries(store.records, log, if after <= |log| then after else |log|, |log|)
  }

  ghost predicate Inv(s: State) {
    && StoreOk(s.store)
    && (forall p :: p in s.flying ==> s.flying[p].head.path == p && PutOk(s.store, s.flying[p]) && p !in s.won)
    && (forall p :: p in s.won ==> WonOk(s.store, p, s.won[p]))
    && (forall c :: c in s.clients ==> ClientOk(s, s.clients[c]))
    && (forall o :: o in s.outcomes ==> OutcomeOk(s.store, o))
  }

  // ---------------------------------------------------------------------------
  // Growth: what every step does to the store

  ghost predicate Grows(s: Store, t: Store) {
    && StoreOk(s)
    && StoreOk(t)
    && Extends(s.records, t.records)
    && LogOf(s) <= LogOf(t)
    && (s.head.Some? ==>
          && t.head.Some?
          && s.head.value.version <= t.head.value.version
          && (s.head.value.version == t.head.value.version ==> s.head == t.head))
  }

  lemma SeenGrows(s: Store, t: Store, c: Cursor)
    requires Grows(s, t) && Seen(s, c)
    ensures Seen(t, c)
    ensures Chain(t.records, c.head.path, c.head.position) == Chain(s.records, c.head.path, c.head.position)
  {
    ChainFramed(s.records, t.records, c.head.path, c.head.position);
  }

  lemma SeenOptionGrows(s: Store, t: Store, c: Option<Cursor>)
    requires Grows(s, t) && SeenOption(s, c)
    ensures SeenOption(t, c)
    ensures Log(s.records, c) == Log(t.records, c)
  {
    if c.Some? {
      SeenGrows(s, t, c.value);
    }
  }

  lemma PutGrows(s: Store, t: Store, put: HeadPut)
    requires Grows(s, t) && PutOk(s, put)
    ensures PutOk(t, put)
  {
    SeenOptionGrows(s, t, put.expected);
  }

  lemma EntriesFramed(s: Store, t: Store, log: seq<Path>, from: nat)
    requires Extends(s.records, t.records) && from <= |log|
    requires forall i :: 0 <= i < |log| ==> log[i] in s.records
    ensures Entries(s.records, log, from, |log|) == Entries(t.records, log, from, |log|)
  {
  }

  lemma PhaseGrows(s: Store, t: Store, won: map<Path, Cursor>, phase: Phase)
    requires Grows(s, t) && PhaseOk(s, won, phase)
    ensures PhaseOk(t, won, phase)
  {
    match phase
    case Awaiting(put) => PutGrows(s, t, put);
    case Doubtful(put) => PutGrows(s, t, put);
    case Walking(cursor, _, _, expected, _) =>
      SeenOptionGrows(s, t, cursor);
      EntriesFramed(s, t, Log(s.records, cursor), expected);
    case _ =>
  }

  lemma OutcomeGrows(s: Store, t: Store, o: Outcome)
    requires Grows(s, t) && OutcomeOk(s, o)
    ensures OutcomeOk(t, o)
  {
    match o
    case Appended(path, cursor, payload) => SeenGrows(s, t, cursor);
    case Rejected(_) =>
    case Suffix(cursor, after, records) =>
      SeenOptionGrows(s, t, cursor);
      var log := Log(s.records, cursor);
      EntriesFramed(s, t, log, if after <= |log| then after else |log|);
  }

  /** Growing the store under an otherwise unchanged state keeps the invariant. */
  lemma StoreGrows(s: State, store: Store)
    requires Inv(s) && Grows(s.store, store)
    ensures Inv(s.(store := store))
  {
    var t := s.(store := store);
    forall p | p in s.won ensures WonOk(store, p, s.won[p]) {
      SeenGrows(s.store, store, s.won[p]);
    }
    forall p | p in s.flying ensures PutOk(store, s.flying[p]) {
      PutGrows(s.store, store, s.flying[p]);
    }
    forall c | c in s.clients ensures ClientOk(t, s.clients[c]) {
      SeenOptionGrows(s.store, store, s.clients[c].cursor);
      PhaseGrows(s.store, store, s.won, s.clients[c].phase);
    }
    forall o | o in s.outcomes ensures OutcomeOk(store, o) {
      OutcomeGrows(s.store, store, o);
    }
  }

  /** The current head is itself a cursor somebody may hold. */
  lemma HeadIsSeen(store: Store)
    requires StoreOk(store) && store.head.Some?
    ensures Seen(store, store.head.value)
  {
  }

  // ---------------------------------------------------------------------------
  // Every step keeps the invariant

  /** Storing a record nobody has linked yet, whether or not a head update follows. */
  lemma RecordKeeps(s: State, path: Path, record: Record)
    requires Inv(s) && path !in s.store.records
    ensures var t := AddRecord(s, path, record);
            Inv(t) && Grows(s.store, t.store) && LogOf(t.store) == LogOf(s.store)
  {
    var t := AddRecord(s, path, record);
    LogFramed(s.store.records, t.store.records, s.store.head);
    StoreGrows(s, t.store);
  }

  /** Every path named anywhere in the state already has its record. */
  lemma PathsStored(s: State)
    requires Inv(s)
    ensures forall p :: p in s.won ==> p in s.store.records
    ensures forall p :: p in s.flying ==> p in s.store.records
    ensures forall d :: d in s.clients && (s.clients[d].phase.Awaiting? || s.clients[d].phase.Doubtful?) ==>
              s.clients[d].phase.put.head.path in s.store.records
  {
    forall p | p in s.won ensures p in s.store.records {
      assert WonOk(s.store, p, s.won[p]);
    }
    forall p | p in s.flying ensures p in s.store.records {
      assert PutOk(s.store, s.flying[p]);
    }
    forall d | d in s.clients && (s.clients[d].phase.Awaiting? || s.clients[d].phase.Doubtful?)
      ensures s.clients[d].phase.put.head.path in s.store.records
    {
      assert ClientOk(s, s.clients[d]);
    }
  }

  lemma StoreKeeps(s: State, step: Step)
    requires Inv(s) && Enabled(s, step)
    requires step.StoreRecord? || step.StoreRecordFails?
    ensures Inv(Apply(s, step)) && Grows(s.store, Apply(s, step).store)
  {
    assert ClientOk(s, s.clients[step.c]);
    var cursor := s.clients[step.c].cursor;
    var record := RecordFor(cursor, step.epoch, step.payload);
    var mid := AddRecord(s, step.path, record);
    PathsStored(s);
    RecordKeeps(s, step.path, record);
    if step.StoreRecord? {
      SeenOptionGrows(s.store, mid.store, cursor);
      var put := PutFor(cursor, step.epoch, step.payload, step.path);
      var t := mid.(flying := mid.flying[step.path := put]);
      FlyingKeeps(mid, step.path, put);
      ClientKeeps(t, step.c, t.clients[step.c].(phase := Awaiting(put)));
    }
  }

  lemma FlyingKeeps(mid: State, path: Path, put: HeadPut)
    requires Inv(mid) && put.head.path == path && PutOk(mid.store, put) && path !in mid.won
    requires forall d :: d in mid.clients && (mid.clients[d].phase.Awaiting? || mid.clients[d].phase.Doubtful?)
                         ==> mid.clients[d].phase.put.head.path != path
    ensures Inv(mid.(flying := mid.flying[path := put]))
  {
    var t := mid.(flying := mid.flying[path := put]);
    forall d | d in t.clients ensures ClientOk(t, t.clients[d]) {
      assert ClientOk(mid, mid.clients[d]);
    }
  }

  /** A client that only changes its own cursor and phase. */
  lemma ClientKeeps(s: State, c: ClientId, client: Client)
    requires Inv(s) && ClientOk(s, client)
    ensures Inv(SetClient(s, c, client))
  {
    var t := SetClient(s, c, client);
    forall d | d in t.clients ensures ClientOk(t, t.clients[d]) {
      if d != c {
        assert ClientOk(s, s.clients[d]);
      }
    }
  }

  lemma ReportKeeps(s: State, o: Outcome)
    requires Inv(s) && OutcomeOk(s.store, o)
    ensures Inv(Report(s, o))
  {
    var t := Report(s, o);
    forall d | d in t.clients ensures ClientOk(t, t.clients[d]) {
      assert ClientOk(s, s.clients[d]);
    }
  }

  /** A winning head update extends the log by exactly its own record. */
  lemma WinExtends(store: Store, put: HeadPut)
    requires StoreOk(store) && PutOk(store, put) && Matches(store, put.expected)
    ensures var next := store.(head := Some(Cursor(put.head, store.issued + 1)), issued := store.issued + 1);
            Grows(store, next) && LogOf(next) == LogOf(store) + [put.head.path]
  {
    assert put.expected == store.head;
    assert Linked(store.records, put.head.path, put.head.position);
  }

  lemma DeliverKeeps(s: State, path: Path)
    requires Inv(s) && path in s.flying
    ensures Inv(DeliverPut(s, path)) && Grows(s.store, DeliverPut(s, path).store)
    ensures var t := DeliverPut(s, path);
            LogOf(t.store) == LogOf(s.store) + (if path in t.won then [path] else [])
  {
    var t := DeliverPut(s, path);
    var put := s.flying[path];
    if Matches(s.store, put.expected) {
      WinExtends(s.store, put);
      StoreGrows(s, t.store);
      HeadIsSeen(t.store);
    }
    var mid := s.(store := t.store);
    forall d | d in t.clients ensures ClientOk(t, t.clients[d]) {
      assert ClientOk(mid, s.clients[d]);
    }
  }

  lemma ReplyKeeps(s: State, step: Step)
    requires Inv(s) && Enabled(s, step)
    requires step.Open? || step.Acknowledge? || step.LoseReply? || step.ReadBack? || step.ReadBackFails?
    ensures Inv(Apply(s, step))
  {
    if step.Open? {
      ClientKeeps(s, step.c, Client(None, Idle));
      return;
    }
    var client := s.clients[step.c];
    var put := client.phase.put;
    assert ClientOk(s, client);
    match step
    case LoseReply(c) =>
      ClientKeeps(s, c, client.(phase := Doubtful(put)));
    case ReadBackFails(c) =>
      ClientKeeps(s, c, client.(phase := Idle));
      ReportKeeps(SetPhase(s, c, Idle), Rejected(put.head.path));
    case Acknowledge(c) =>
      AppendedKeeps(s, c, put, s.won[put.head.path]);
    case ReadBack(c) =>
      if s.store.head.Some? && s.store.head.value.head == put.head {
        HeadIsSeen(s.store);
        AppendedKeeps(s, c, put, s.store.head.value);
      } else {
        ClientKeeps(s, c, client.(phase := Idle));
        ReportKeeps(SetPhase(s, c, Idle), Rejected(put.head.path));
      }
  }

  lemma AppendedKeeps(s: State, c: ClientId, put: HeadPut, cursor: Cursor)
    requires Inv(s) && PutOk(s.store, put) && Seen(s.store, cursor) && cursor.head == put.head
    ensures Inv(Report(SetClient(s, c, Client(Some(cursor), Idle)), Appended(put.head.path, cursor, put.payload)))
  {
    ClientKeeps(s, c, Client(Some(cursor), Idle));
    ReportKeeps(SetClient(s, c, Client(Some(cursor), Idle)), Appended(put.head.path, cursor, put.payload));
  }

  lemma RecoverKeeps(s: State, step: Step)
    requires Inv(s) && Enabled(s, step)
    requires step.StartRecover? || step.ReadRecord? || step.FinishRecover? || step.AbandonRecover?
    ensures Inv(Apply(s, step))
  {
    var client := s.clients[step.c];
    assert ClientOk(s, client);
    match step
    case StartRecover(c, after) =>
      StartedWalk(s.store, after);
      ClientKeeps(s, c, client.(phase := StartWalk(s.store.head, after)));
    case ReadRecord(c) =>
      WalkedOn(s.store, client.phase);
      ClientKeeps(s, c, client.(phase := ReadOne(s.store, client.phase)));
    case FinishRecover(c) =>
      var w := client.phase;
      WalkedSuffix(s.store, w);
      ClientKeeps(s, c, Client(w.cursor, Idle));
      ReportKeeps(SetClient(s, c, Client(w.cursor, Idle)), Suffix(w.cursor, w.after, Reversed(w.found)));
    case AbandonRecover(c) => ClientKeeps(s, c, client.(phase := Idle));
  }

  lemma StartedWalk(store: Store, after: nat)
    requires StoreOk(store)
    ensures WalkOk(store, StartWalk(store.head, after))
  {
    var log := LogOf(store);
    if store.head.Some? {
      HeadIsSeen(store);
      ChainShape(store.records, store.head.value.head.path, store.head.value.head.position);
    }
    forall i: nat | i < |log| ensures log[i] in store.records {
      assert Entry(store.records, log, i);
    }
  }

  /** Reading one more record never bails: the chain is complete below every head ever observed. */
  lemma WalkedOn(store: Store, w: Phase)
    requires StoreOk(store) && w.Walking? && WalkOk(store, w) && w.expected > w.after
    ensures ReadOne(store, w).Walking? && WalkOk(store, ReadOne(store, w))
  {
    var log := Log(store.records, w.cursor);
    ChainShape(store.records, w.cursor.value.head.path, w.cursor.value.head.position);
    var i := w.expected - 1;
    assert Entry(store.records, log, i);
    var r := store.records[log[i]];
    var item := Recovered(r.epoch, r.position, r.payload);
    assert Entries(store.records, log, i, |log|) == [item] + Entries(store.records, log, w.expected, |log|);
    assert Reversed(Entries(store.records, log, i, |log|)) == w.found + [item];
  }

  /** Finishing a walk never bails either, and hands back exactly the log above `after`. */
  lemma WalkedSuffix(store: Store, w: Phase)
    requires StoreOk(store) && w.Walking? && WalkOk(store, w) && w.expected <= w.after
    ensures Monotonic(Reversed(w.found))
    ensures OutcomeOk(store, Suffix(w.cursor, w.after, Reversed(w.found)))
  {
    var log := Log(store.records, w.cursor);
    ReversedTwice(Entries(store.records, log, w.expected, |log|));
    if w.cursor.Some? {
      ChainShape(store.records, w.cursor.value.head.path, w.cursor.value.head.position);
      EntriesMonotonic(store.records, log, w.expected);
    }
  }

  lemma ReversedTwice<T>(s: seq<T>)
    ensures Reversed(Reversed(s)) == s
  {
  }

  lemma EntriesMonotonic(records: map<Path, Record>, log: seq<Path>, from: nat)
    requires from <= |log|
    requires forall i: nat :: i < |log| ==> Entry(records, log, i)
    requires forall i :: 0 <= i < |log| ==> log[i] in records
    ensures Monotonic(Entries(records, log, from, |log|))
  {
    var found := Entries(records, log, from, |log|);
    forall i | 0 < i < |found| ensures EpochStep(found[i - 1].epoch, found[i].epoch) {
      assert Entry(records, log, from + i);
    }
  }

  // ---------------------------------------------------------------------------
  // Whole runs

  lemma StepKeeps(s: State, step: Step)
    requires Inv(s) && Enabled(s, step)
    ensures Inv(Apply(s, step)) && Grows(s.store, Apply(s, step).store)
    ensures s.outcomes <= Apply(s, step).outcomes
  {
    if step.StoreRecord? || step.StoreRecordFails? {
      StoreKeeps(s, step);
    } else if step.Deliver? {
      DeliverKeeps(s, step.path);
    } else if step.StartRecover? || step.ReadRecord? || step.FinishRecover? || step.AbandonRecover? {
      RecoverKeeps(s, step);
    } else {
      ReplyKeeps(s, step);
    }
  }

  /** A run from the empty store: any interleaving of enabled steps. */
  ghost predicate Run(states: seq<State>, steps: seq<Step>) {
    && |states| == |steps| + 1
    && states[0] == INIT
    && forall i :: 0 <= i < |steps| ==> Enabled(states[i], steps[i]) && states[i + 1] == Apply(states[i], steps[i])
  }

  lemma {:induction false} RunKeeps(states: seq<State>, steps: seq<Step>, i: nat)
    requires Run(states, steps) && i < |states|
    ensures Inv(states[i])
  {
    if i > 0 {
      RunKeeps(states, steps, i - 1);
      StepKeeps(states[i - 1], steps[i - 1]);
    }
  }

  lemma GrowsThrough(a: Store, b: Store, c: Store)
    requires Grows(a, b) && Grows(b, c)
    ensures Grows(a, c)
  {
  }

  lemma {:induction false} RunGrows(states: seq<State>, steps: seq<Step>, i: nat, j: nat)
    requires Run(states, steps) && i <= j < |states|
    ensures Grows(states[i].store, states[j].store)
    ensures states[i].outcomes <= states[j].outcomes
    decreases j
  {
    RunKeeps(states, steps, i);
    if i < j {
      var last := j - 1;
      RunGrows(states, steps, i, last);
      RunKeeps(states, steps, last);
      StepKeeps(states[last], steps[last]);
      assert states[last + 1] == Apply(states[last], steps[last]);
      GrowsThrough(states[i].store, states[last].store, states[j].store);
    }
  }

  /** The log holds `payload` at `position`, counting from 1. */
  ghost predicate Holds(s: Store, position: nat, path: Path, payload: Payload) {
    && HeadOk(s.records, s.head)
    && 0 < position <= |LogOf(s)|
    && LogOf(s)[position - 1] == path
    && path in s.records
    && s.records[path].payload == payload
    && s.records[path].position == position
  }

  lemma SeenHolds(s: Store, c: Cursor)
    requires StoreOk(s) && Seen(s, c)
    ensures Holds(s, c.head.position, c.head.path, s.records[c.head.path].payload)
  {
    ChainShape(s.records, c.head.path, c.head.position);
  }

  /** In every state of every run the chain from the head is complete down to position 1, with epochs rising by 0 or 1. */
  lemma ChainAlwaysComplete(states: seq<State>, steps: seq<Step>, i: nat)
    requires Run(states, steps) && i < |states|
    ensures HeadOk(states[i].store.records, states[i].store.head)
    ensures var s := states[i].store;
            && |LogOf(s)| == (if s.head.None? then 0 else s.head.value.head.position)
            && (forall k: nat :: k < |LogOf(s)| ==> Entry(s.records, LogOf(s), k))
  {
    RunKeeps(states, steps, i);
    var s := states[i].store;
    if s.head.Some? {
      ChainShape(s.records, s.head.value.head.path, s.head.value.head.position);
    }
  }

  /** The log grows by exactly one record per winning head update, and by nothing else. */
  lemma OneRecordPerWin(states: seq<State>, steps: seq<Step>, i: nat)
    requires Run(states, steps) && i < |steps|
    ensures StoreOk(states[i].store) && StoreOk(states[i + 1].store)
    ensures var s, t := states[i], states[i + 1];
            if steps[i].Deliver? && steps[i].path in t.won
            then LogOf(t.store) == LogOf(s.store) + [steps[i].path] && t.store.issued == s.store.issued + 1
            else LogOf(t.store) == LogOf(s.store) && t.store.issued == s.store.issued
  {
    RunKeeps(states, steps, i);
    var s, step := states[i], steps[i];
    StepKeeps(s, step);
    if step.Deliver? {
      DeliverKeeps(s, step.path);
    } else {
      OnlyDeliveryMovesTheHead(s, step);
      LogFramed(s.store.records, states[i + 1].store.records, s.store.head);
    }
  }

  lemma OnlyDeliveryMovesTheHead(s: State, step: Step)
    requires Enabled(s, step) && !step.Deliver?
    ensures Apply(s, step).store.head == s.store.head && Apply(s, step).store.issued == s.store.issued
  {
  }

  /** An append that returned Ok keeps its payload at its returned position in every later state. */
  lemma OkIsForever(states: seq<State>, steps: seq<Step>, i: nat, j: nat, path: Path, cursor: Cursor, payload: Payload)
    requires Run(states, steps) && i <= j < |states|
    requires Appended(path, cursor, payload) in states[i].outcomes
    ensures Holds(states[j].store, cursor.head.position, path, payload)
  {
    RunKeeps(states, steps, j);
    RunGrows(states, steps, i, j);
    assert OutcomeOk(states[j].store, Appended(path, cursor, payload));
    SeenHolds(states[j].store, cursor);
  }

  /** Whatever was committed stays where it is, through every rejected, fenced or lost append. */
  lemma CommittedNeverDisplaced(states: seq<State>, steps: seq<Step>, i: nat, j: nat, position: nat, path: Path, payload: Payload)
    requires Run(states, steps) && i <= j < |states|
    requires Holds(states[i].store, position, path, payload)
    ensures Holds(states[j].store, position, path, payload)
  {
    RunGrows(states, steps, i, j);
  }

  /** Recovery never bails, whatever other clients do between its reads. */
  lemma RecoveryNeverBails(states: seq<State>, steps: seq<Step>, i: nat, c: ClientId)
    requires Run(states, steps) && i < |states| && c in states[i].clients
    ensures !states[i].clients[c].phase.Bailed?
  {
    RunKeeps(states, steps, i);
    assert ClientOk(states[i], states[i].clients[c]);
  }

  /** What recovery returned is, in every later state, the log above `after` up to the head it had read. */
  lemma RecoveryIsTheSuffix(states: seq<State>, steps: seq<Step>, i: nat, j: nat, read: Option<Cursor>, after: nat, found: seq<Recovered>)
    requires Run(states, steps) && i <= j < |states|
    requires Suffix(read, after, found) in states[i].outcomes
    ensures StoreOk(states[j].store)
    ensures var s := states[j].store;
            var upto := if read.None? then 0 else read.value.head.position;
            && upto <= |LogOf(s)|
            && |found| == (if after <= upto then upto - after else 0)
            && (forall k :: 0 <= k < |found| ==>
                  && found[k].position == after + k + 1 && Holds(s, found[k].position, LogOf(s)[after + k], found[k].payload)
                  && found[k].epoch == s.records[LogOf(s)[after + k]].epoch)
  {
    RunKeeps(states, steps, j);
    RunGrows(states, steps, i, j);
    var s := states[j].store;
    assert OutcomeOk(s, Suffix(read, after, found));
    if read.Some? {
      var part := Chain(s.records, read.value.head.path, read.value.head.position);
      ChainShape(s.records, read.value.head.path, read.value.head.position);
      forall k | 0 <= k < |found|
        ensures found[k].position == after + k + 1
        ensures Holds(s, found[k].position, LogOf(s)[after + k], found[k].payload)
        ensures found[k].epoch == s.records[LogOf(s)[after + k]].epoch
      {
        assert Entry(s.records, part, after + k);
        assert part[after + k] == LogOf(s)[after + k];
      }
    }
  }

  // ---------------------------------------------------------------------------
  // When an append is in the log, whatever its client was told

  /** At step `k` the head update of `path` reaches the store, and the version it expects is current. */
  ghost predicate Lands(states: seq<State>, steps: seq<Step>, k: nat, path: Path) {
    && k < |steps| && k < |states| && steps[k] == Deliver(path)
    && path in states[k].flying && Matches(states[k].store, states[k].flying[path].expected)
  }

  lemma LandsOnce(states: seq<State>, steps: seq<Step>, k: nat, next: nat, path: Path)
    requires Run(states, steps) && k < |steps| && next == k + 1
    ensures HeadOk(states[k].store.records, states[k].store.head) && HeadOk(states[next].store.records, states[next].store.head)
    ensures path in LogOf(states[next].store) <==> path in LogOf(states[k].store) || Lands(states, steps, k, path)
  {
    RunKeeps(states, steps, k);
    OneRecordPerWin(states, steps, k);
    assert Enabled(states[k], steps[k]) && states[k + 1] == Apply(states[k], steps[k]);
  }

  /** A record is in the log exactly when its head update reached the store while the version it expected was current. */
  lemma {:induction false} LoggedExactlyWhen(states: seq<State>, steps: seq<Step>, j: nat, path: Path)
    requires Run(states, steps) && j < |states|
    ensures HeadOk(states[j].store.records, states[j].store.head)
    ensures path in LogOf(states[j].store) <==> exists k: nat :: k < j && Lands(states, steps, k, path)
    decreases j
  {
    RunKeeps(states, steps, j);
    if j > 0 {
      var last: nat := j - 1;
      LoggedExactlyWhen(states, steps, last, path);
      LandsOnce(states, steps, last, j, path);
    }
  }

  /**
   An append that was reported as rejected is in the log, now or later, exactly when its head update reached the store while
   the version it expected was current, before or after the report; and if it is, it keeps its payload and place.
   */
  lemma RejectedExactlyWhen(states: seq<State>, steps: seq<Step>, i: nat, j: nat, path: Path)
    requires Run(states, steps) && i <= j < |states| && Rejected(path) in states[i].outcomes
    ensures HeadOk(states[j].store.records, states[j].store.head) && Rejected(path) in states[j].outcomes
    ensures path in LogOf(states[j].store) <==> exists k: nat :: k < j && Lands(states, steps, k, path)
    ensures path in LogOf(states[j].store) ==> forall l: nat :: j <= l < |states| ==> StillLogged(states, j, l, path)
  {
    RunGrows(states, steps, i, j);
    LoggedExactlyWhen(states, steps, j, path);
    if path in LogOf(states[j].store) {
      forall l: nat | j <= l < |states| ensures StillLogged(states, j, l, path) {
        RunGrows(states, steps, j, l);
        var at: nat :| at < |LogOf(states[j].store)| && LogOf(states[j].store)[at] == path;
        ChainAlwaysComplete(states, steps, j);
        assert Entry(states[j].store.records, LogOf(states[j].store), at);
        assert LogOf(states[l].store)[at] == path;
      }
    }
  }

  /** What the log held in state `j` under `path` it holds in state `l` at the same place. */
  ghost predicate StillLogged(states: seq<State>, j: nat, l: nat, path: Path)
    requires j < |states| && l < |states|
  {
    var s, t := states[j].store, states[l].store;
    && HeadOk(s.records, s.head) && HeadOk(t.records, t.head) && path in s.records && path in t.records && t.records[path] == s.records[path]
    && exists at: nat :: at < |LogOf(s)| && at < |LogOf(t)| && LogOf(s)[at] == path && LogOf(t)[at] == path
  }

  // ---------------------------------------------------------------------------
  // A run in which a rejected append is committed all the same

  lemma Extend(states: seq<State>, steps: seq<Step>, step: Step) returns (next: seq<State>, taken: seq<Step>)
    requires Run(states, steps)
    requires Enabled(states[|states| - 1], step)
    ensures Run(next, taken)
    ensures next == states + [Apply(states[|states| - 1], step)]
  {
    next, taken := states + [Apply(states[|states| - 1], step)], steps + [step];
  }

  /** A client stores and commits `payload`, then loses the reply. */
  lemma CommitUnanswered(states: seq<State>, steps: seq<Step>, c: ClientId, epoch: nat, payload: Payload, path: Path)
    returns (next: seq<State>, taken: seq<Step>)
    requires Run(states, steps)
    requires var s := states[|states| - 1];
             && CanAppend(s, c, epoch, path)
             && path !in s.flying
             && s.clients[c].cursor == s.store.head
    ensures Run(next, taken) && states <= next
    ensures var s, t := states[|states| - 1], next[|next| - 1];
            var put := PutFor(s.store.head, epoch, payload, path);
            var won := Cursor(put.head, s.store.issued + 1);
            t == State(Store(s.store.records[path := RecordFor(s.store.head, epoch, payload)], Some(won), s.store.issued + 1),
                       s.flying, s.won[path := won],
                       s.clients[c := Client(s.store.head, Doubtful(put))], s.outcomes)
  {
    var s := states[|states| - 1];
    var put := PutFor(s.store.head, epoch, payload, path);
    next, taken := Extend(states, steps, StoreRecord(c, epoch, payload, path));
    next, taken := Extend(next, taken, Deliver(path));
    assert s.flying[path := put] - {path} == s.flying;
    next, taken := Extend(next, taken, LoseReply(c));
    assert s.clients[c := Client(s.store.head, Awaiting(put))][c := Client(s.store.head, Doubtful(put))]
        == s.clients[c := Client(s.store.head, Doubtful(put))];
  }

  /** A client reads the head and recovers nothing above it, which makes the head its cursor. */
  lemma AdoptHead(states: seq<State>, steps: seq<Step>, c: ClientId) returns (next: seq<State>, taken: seq<Step>)
    requires Run(states, steps)
    requires IsIdle(states[|states| - 1], c) && states[|states| - 1].store.head.Some?
    ensures Run(next, taken) && states <= next
    ensures var s, t := states[|states| - 1], next[|next| - 1];
            t.store == s.store && t.flying == s.flying && t.clients == s.clients[c := Client(s.store.head, Idle)]
  {
    var s := states[|states| - 1];
    var after := s.store.head.value.head.position;
    next, taken := Extend(states, steps, StartRecover(c, after));
    var walking := Client(s.clients[c].cursor, StartWalk(s.store.head, after));
    assert next[|next| - 1].clients == s.clients[c := walking];
    next, taken := Extend(next, taken, FinishRecover(c));
    assert s.clients[c := walking][c := Client(s.store.head, Idle)] == s.clients[c := Client(s.store.head, Idle)];
  }

  /** A rejected append may still have committed: the reply to a winning update is lost and a rival appends on top. */
  lemma RejectedMayBeCommitted() returns (states: seq<State>, steps: seq<Step>)
    ensures Run(states, steps)
    ensures Rejected(0) in states[|states| - 1].outcomes
    ensures Holds(states[|states| - 1].store, 1, 0, "a")
  {
    states, steps := [INIT], [];
    states, steps := Extend(states, steps, Open(0));
    states, steps := CommitUnanswered(states, steps, 0, 1, "a", 0);
    var committed := |states| - 1;
    RunKeeps(states, steps, committed);
    HeadIsSeen(states[committed].store);
    SeenHolds(states[committed].store, states[committed].store.head.value);
    states, steps := Extend(states, steps, Open(1));
    states, steps := AdoptHead(states, steps, 1);
    states, steps := CommitUnanswered(states, steps, 1, 1, "b", 1);
    states, steps := Extend(states, steps, ReadBack(0));
    var t := states[|states| - 1];
    assert t.outcomes[|t.outcomes| - 1] == Rejected(0);
    CommittedNeverDisplaced(states, steps, committed, |states| - 1, 1, 0, "a");
  }

  // ---------------------------------------------------------------------------
  // Who may append

  /**
   An idle client may start an append exactly under a positive epoch that is its cursor's or the one after it
   (the last epoch has none after it); without a cursor any positive epoch starts.
   */
  lemma StartsExactlyWhen(s: State, c: ClientId, epoch: nat, payload: Payload, path: Path)
    requires c in s.clients && s.clients[c].phase == Idle && path !in s.store.records
    ensures var cursor := s.clients[c].cursor;
            Enabled(s, StoreRecord(c, epoch, payload, path)) <==>
              && epoch > 0
              && (cursor.Some? ==>
                    || epoch == cursor.value.head.epoch
                    || (cursor.value.head.epoch < 0xFFFF_FFFF_FFFF_FFFF && epoch == cursor.value.head.epoch + 1))
  {
  }

  /** A head update built on the current head, once delivered, puts its record on top of the log. */
  lemma DeliveredOnTop(s: State, t: State, path: Path, put: HeadPut)
    requires Inv(t) && StoreOk(s.store) && t.store.head == s.store.head && Extends(s.store.records, t.store.records)
    requires path in t.flying && t.flying[path] == put && put.expected == s.store.head
    ensures var u := DeliverPut(t, path);
            && StoreOk(u.store) && LogOf(u.store) == LogOf(s.store) + [path] && path in u.won
            && u.won[path] == Cursor(put.head, t.store.issued + 1) && u.store.head == Some(u.won[path])
            && u.store.records == t.store.records && u.clients == t.clients && u.outcomes == t.outcomes
  {
    LogFramed(s.store.records, t.store.records, s.store.head);
    DeliverKeeps(t, path);
  }

  lemma RecordStored(s: State, c: ClientId, epoch: nat, payload: Payload, path: Path)
    requires Inv(s) && CanAppend(s, c, epoch, path) && s.clients[c].cursor == s.store.head
    ensures var t, put := Apply(s, StoreRecord(c, epoch, payload, path)), PutFor(s.store.head, epoch, payload, path);
            && Inv(t) && t.store.head == s.store.head && Extends(s.store.records, t.store.records)
            && path in t.store.records && t.store.records[path] == RecordFor(s.store.head, epoch, payload)
            && path in t.flying && t.flying[path] == put && t.outcomes == s.outcomes
            && t.clients == s.clients[c := Client(s.store.head, Awaiting(put))]
  {
    StepKeeps(s, StoreRecord(c, epoch, payload, path));
  }

  /** What an undisturbed append leaves. */
  ghost predicate AppendedOnTop(s: State, t: State, c: ClientId, epoch: nat, payload: Payload, path: Path) {
    && StoreOk(s.store) && StoreOk(t.store)
    && LogOf(t.store) == LogOf(s.store) + [path]
    && path in t.store.records && t.store.records[path].epoch == epoch && t.store.records[path].payload == payload
    && t.store.head.Some?
    && t.clients == s.clients[c := Client(t.store.head, Idle)]
    && t.outcomes == s.outcomes + [Appended(path, t.store.head.value, payload)]
  }

  lemma AppendGoesThrough(s: State, c: ClientId, epoch: nat, payload: Payload, path: Path)
    requires Inv(s) && CanAppend(s, c, epoch, path) && s.clients[c].cursor == s.store.head
    ensures var t := Apply(s, StoreRecord(c, epoch, payload, path));
            && Enabled(t, Deliver(path)) && Enabled(Apply(t, Deliver(path)), Acknowledge(c))
            && AppendedOnTop(s, Apply(Apply(t, Deliver(path)), Acknowledge(c)), c, epoch, payload, path)
  {
    var put := PutFor(s.store.head, epoch, payload, path);
    var t := Apply(s, StoreRecord(c, epoch, payload, path));
    RecordStored(s, c, epoch, payload, path);
    DeliveredOnTop(s, t, path, put);
    var u := Apply(t, Deliver(path));
    assert s.clients[c := Client(s.store.head, Awaiting(put))][c := Client(u.store.head, Idle)] == s.clients[c := Client(u.store.head, Idle)];
  }

  /**
   From any state of any run, a client whose cursor is the head can append under the head's epoch and under the one
   after it, so every handover can be written: the run goes on to the answer Ok, with its record on top of the log.
   */
  lemma HeadCanAlwaysAppend(states: seq<State>, steps: seq<Step>, c: ClientId, epoch: nat, payload: Payload, path: Path)
    returns (next: seq<State>, taken: seq<Step>)
    requires Run(states, steps)
    requires var s := states[|states| - 1];
             && c in s.clients && s.clients[c] == Client(s.store.head, Idle) && path !in s.store.records
             && epoch > 0
             && (s.store.head.Some? ==>
                   || epoch == s.store.head.value.head.epoch
                   || (s.store.head.value.head.epoch < 0xFFFF_FFFF_FFFF_FFFF && epoch == s.store.head.value.head.epoch + 1))
    ensures Run(next, taken) && states <= next
    ensures var s, t := states[|states| - 1], next[|next| - 1];
            && StoreOk(s.store) && StoreOk(t.store)
            && LogOf(t.store) == LogOf(s.store) + [path]
            && path in t.store.records && t.store.records[path].epoch == epoch && t.store.records[path].payload == payload
            && t.store.head.Some?
            && t.clients == s.clients[c := Client(t.store.head, Idle)]
            && t.outcomes == s.outcomes + [Appended(path, t.store.head.value, payload)]
  {
    RunKeeps(states, steps, |states| - 1);
    AppendGoesThrough(states[|states| - 1], c, epoch, payload, path);
    next, taken := Extend(states, steps, StoreRecord(c, epoch, payload, path));
    next, taken := Extend(next, taken, Deliver(path));
    next, taken := Extend(next, taken, Acknowledge(c));
  }
}
