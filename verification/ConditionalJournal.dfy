/**
 The journal operations as they run: `Append` puts a record, swaps the head and
 reads it back when the reply is an error; `Recover` walks the chain down.
 What other writers and the network do meanwhile is an argument of the call.
 */
module ConditionalJournal {
  import opened Wrappers
  import opened JournalLog
  import opened JournalProtocol

  /** An append that some other writer completes at the then current head. */
  datatype Rival = Rival(epoch: nat, payload: Payload, path: Path)

  datatype Reply = Answered | LostAfterCommit | LostBeforeCommit

  /** `before` and `after` are the rivals that commit ahead of this head update and ahead of its read-back. */
  datatype Weather = Weather(recordStored: bool, before: seq<Rival>, reply: Reply, after: seq<Rival>, readable: bool)

  function Commit(store: Store, epoch: nat, payload: Payload, path: Path): Store {
    var put := PutFor(store.head, epoch, payload, path);
    Store(store.records[path := RecordFor(store.head, epoch, payload)], Some(Cursor(put.head, store.issued + 1)), store.issued + 1)
  }

  predicate RivalCommits(store: Store, rival: Rival) {
    Admissible(store.head, rival.epoch) && rival.path !in store.records
  }

  function AfterRivals(store: Store, rivals: seq<Rival>): Store
    decreases |rivals|
  {
    if rivals == [] then store
    else AfterRivals(
           if RivalCommits(store, rivals[0]) then Commit(store, rivals[0].epoch, rivals[0].payload, rivals[0].path) else store,
           rivals[1..])
  }

  lemma CommitExtends(store: Store, epoch: nat, payload: Payload, path: Path)
    requires StoreOk(store) && Admissible(store.head, epoch) && path !in store.records
    ensures Grows(store, Commit(store, epoch, payload, path))
    ensures LogOf(Commit(store, epoch, payload, path)) == LogOf(store) + [path]
  {
    var mid := store.(records := store.records[path := RecordFor(store.head, epoch, payload)]);
    LogFramed(store.records, mid.records, store.head);
    var put := PutFor(store.head, epoch, payload, path);
    if store.head.Some? {
      HeadIsSeen(mid);
    }
    WinExtends(mid, put);
  }

  lemma {:induction false} RivalsGrow(store: Store, rivals: seq<Rival>)
    requires StoreOk(store)
    ensures Grows(store, AfterRivals(store, rivals))
    decreases |rivals|
  {
    if rivals != [] {
      var next := if RivalCommits(store, rivals[0]) then Commit(store, rivals[0].epoch, rivals[0].payload, rivals[0].path) else store;
      if RivalCommits(store, rivals[0]) {
        CommitExtends(store, rivals[0].epoch, rivals[0].payload, rivals[0].path);
      }
      RivalsGrow(next, rivals[1..]);
    }
  }

  /** A rival moves the head only to a record that was not stored before. */
  lemma {:induction false} RivalsMove(store: Store, rivals: seq<Rival>)
    ensures var after := AfterRivals(store, rivals);
            after.head == store.head || (after.head.Some? && after.head.value.head.path !in store.records)
    ensures Extends(store.records, AfterRivals(store, rivals).records)
    decreases |rivals|
  {
    if rivals != [] {
      var next := if RivalCommits(store, rivals[0]) then Commit(store, rivals[0].epoch, rivals[0].payload, rivals[0].path) else store;
      RivalsMove(next, rivals[1..]);
    }
  }

  function Stored(store: Store, expected: Option<Cursor>, epoch: nat, payload: Payload, path: Path): Store {
    store.(records := store.records[path := RecordFor(expected, epoch, payload)])
  }

  function Landed(store: Store, put: HeadPut): Store {
    store.(head := Some(Cursor(put.head, store.issued + 1)), issued := store.issued + 1)
  }

  lemma StoredGrows(store: Store, expected: Option<Cursor>, epoch: nat, payload: Payload, path: Path)
    requires StoreOk(store) && SeenOption(store, expected) && path !in store.records
    requires Admissible(expected, epoch)
    ensures Grows(store, Stored(store, expected, epoch, payload, path))
    ensures PutOk(Stored(store, expected, epoch, payload, path), PutFor(expected, epoch, payload, path))
    ensures store.head.Some? ==> store.head.value.head.path != path
  {
    var next := Stored(store, expected, epoch, payload, path);
    LogFramed(store.records, next.records, store.head);
    SeenOptionGrows(store, next, expected);
  }

  /**
   How a head update ended at a store: it was applied if its head was still current and the request
   arrived, and it is answered Ok if it was applied and either the reply came or the read-back still finds it.
   */
  ghost predicate Settled(base: Store, after: Store, put: HeadPut, weather: Weather, ok: bool) {
    var wins := base.head == put.expected && weather.reply != LostBeforeCommit;
    var landed := if wins then Landed(base, put) else base;
    && StoreOk(base) && StoreOk(landed)
    && LogOf(landed) == LogOf(base) + (if wins then [put.head.path] else [])
    && after == (if wins && weather.reply == Answered then landed else AfterRivals(landed, weather.after))
    && (ok <==> wins && (weather.reply == Answered || (weather.readable && after.head == landed.head)))
  }

  /** With no rival, and the reply answered or the head read back, the append is Ok and the log is one longer, by its record. */
  lemma CalmSettled(store: Store, after: Store, epoch: nat, payload: Payload, path: Path, weather: Weather, ok: bool)
    requires StoreOk(store) && Admissible(store.head, epoch) && path !in store.records
    requires weather.before == [] && (weather.reply == Answered || (weather.reply == LostAfterCommit && weather.after == [] && weather.readable))
    requires Settled(AfterRivals(Stored(store, store.head, epoch, payload, path), weather.before), after, PutFor(store.head, epoch, payload, path), weather, ok)
    ensures ok && StoreOk(after) && LogOf(after) == LogOf(store) + [path]
    ensures after.head.Some? && after.head.value.head == Head(epoch, |LogOf(after)|, path)
    ensures after.records == store.records[path :=
              Record(epoch, |LogOf(after)|, if store.head.Some? then Some(store.head.value.head.path) else None, payload)]
  {
    var base := Stored(store, store.head, epoch, payload, path);
    LogFramed(store.records, base.records, store.head);
    if store.head.Some? {
      ChainShape(store.records, store.head.value.head.path, store.head.value.head.position);
    }
  }

  class PartitionJournal {
    var records: map<Path, Record>
    var head: Option<Cursor>
    var issued: nat

    ghost function View(): Store
      reads this
    {
      Store(records, head, issued)
    }

    ghost predicate Valid()
      reads this
    {
      StoreOk(View())
    }

    constructor ()
      ensures View() == INIT.store && Valid()
    {
      records, head, issued := map[], None, 0;
    }

    /** Others at work between two requests of one call. */
    method Interleave(rivals: seq<Rival>)
      requires Valid()
      modifies this
      ensures Valid()
      ensures View() == AfterRivals(old(View()), rivals)
      ensures Grows(old(View()), View())
    {
      RivalsGrow(View(), rivals);
      var i := 0;
      while i < |rivals|
        invariant i <= |rivals|
        invariant Valid()
        invariant AfterRivals(View(), rivals[i..]) == AfterRivals(old(View()), rivals)
      {
        var rival := rivals[i];
        if Admissible(head, rival.epoch) && rival.path !in records {
          CommitExtends(View(), rival.epoch, rival.payload, rival.path);
          var put := PutFor(head, rival.epoch, rival.payload, rival.path);
          records := records[rival.path := RecordFor(head, rival.epoch, rival.payload)];
          issued := issued + 1;
          head := Some(Cursor(put.head, issued));
        }
        i := i + 1;
      }
    }

    /** The conditional head update: applied exactly when the head is still the one `put` was built on. */
    method SwapHead(put: HeadPut, reply: Reply) returns (applied: bool)
      requires Valid() && PutOk(View(), put)
      modifies this
      ensures Valid() && Grows(old(View()), View())
      ensures applied == (old(head) == put.expected && reply != LostBeforeCommit)
      ensures View() == if applied then Landed(old(View()), put) else old(View())
      ensures LogOf(View()) == LogOf(old(View())) + (if applied then [put.head.path] else [])
    {
      var matches := if put.expected.None? then head.None? else head.Some? && head.value.version == put.expected.value.version;
      applied := matches && reply != LostBeforeCommit;
      if applied {
        WinExtends(View(), put);
        issued := issued + 1;
        head := Some(Cursor(put.head, issued));
      }
    }

    /** What an append that reached its head may be answered with. */
    ghost predicate Confirms(cursor: Cursor, put: HeadPut)
      requires Valid()
      reads this
    {
      cursor.head == put.head && Seen(View(), cursor) && Holds(View(), put.head.position, put.head.path, put.payload)
    }

    lemma HeadConfirms(put: HeadPut)
      requires Valid() && PutOk(View(), put) && head.Some? && head.value.head == put.head
      ensures Confirms(head.value, put)
    {
      HeadIsSeen(View());
      SeenHolds(View(), head.value);
    }

    /** Validates the owner epoch against the cursor and stores the record; the head is not touched. */
    method PutRecord(expected: Option<Cursor>, epoch: nat, payload: Payload, path: Path, stored: bool)
      returns (r: Result<HeadPut, JournalError>)
      requires Valid() && SeenOption(View(), expected) && path !in records
      modifies this
      ensures Valid() && Grows(old(View()), View())
      ensures r == if !Admissible(expected, epoch) then Err(Invalid)
                   else if !stored then Err(Unavailable)
                   else Ok(PutFor(expected, epoch, payload, path))
      ensures r == Err(Invalid) <==>
                || epoch == 0
                || (expected.Some? && epoch != expected.value.head.epoch
                    && !(expected.value.head.epoch < 0xFFFF_FFFF_FFFF_FFFF && epoch == expected.value.head.epoch + 1))
      ensures View() == if r.Ok? then Stored(old(View()), expected, epoch, payload, path) else old(View())
      ensures r.Ok? ==> PutOk(View(), r.value) && (head.Some? ==> head.value.head.path != path)
    {
      if epoch == 0 {
        return Err(Invalid);
      }
      var position := 1;
      if expected.Some? {
        position := expected.value.head.position + 1;
        if epoch != expected.value.head.epoch && epoch != SaturatingSucc(expected.value.head.epoch) {
          return Err(Invalid);
        }
      }
      if !stored {
        return Err(Unavailable);
      }
      StoredGrows(View(), expected, epoch, payload, path);
      var parent := if expected.Some? then Some(expected.value.head.path) else None;
      records := records[path := Record(epoch, position, parent, payload)];
      return Ok(HeadPut(Head(epoch, position, path), expected, payload));
    }

    /** Swaps the head and, when the reply is an error, decides by reading it back. */
    method Settle(put: HeadPut, weather: Weather) returns (r: Result<Cursor, JournalError>)
      requires Valid() && PutOk(View(), put)
      requires head.Some? ==> head.value.head.path != put.head.path
      modifies this
      ensures Valid() && Grows(old(View()), View())
      ensures Settled(old(View()), View(), put, weather, r.Ok?)
      ensures r.Ok? ==> Confirms(r.value, put)
      ensures r.Err? ==> r.error == if weather.readable then Fenced else Unavailable
    {
      var wins := SwapHead(put, weather.reply);
      ghost var landed := View();
      PutGrows(old(View()), landed, put);
      if wins && weather.reply == Answered {
        HeadConfirms(put);
        return Ok(head.value);
      }
      RivalsMove(landed, weather.after);
      Interleave(weather.after);
      PutGrows(landed, View(), put);
      if !weather.readable {
        return Err(Unavailable);
      }
      if head.Some? && head.value.head == put.head {
        HeadConfirms(put);
        return Ok(head.value);
      }
      return Err(Fenced);
    }

    /**
     Appends after `expected`. It answers Ok exactly when its head update was applied and either the
     reply arrived or the read-back still finds it at the head; the log gains its record exactly when
     the update was applied, and no committed entry ever moves. An owner epoch is refused exactly if it
     is zero, or neither its cursor's nor the one after. At the current head, with nobody in between, the
     owner and its successor both append, even if the reply is lost; at any other cursor nobody does.
     */
    method Append(expected: Option<Cursor>, epoch: nat, payload: Payload, path: Path, weather: Weather)
      returns (r: Result<Cursor, JournalError>)
      requires Valid() && SeenOption(View(), expected) && path !in records
      modifies this
      ensures Valid() && Grows(old(View()), View())
      ensures r == Err(Invalid) <==>
                || epoch == 0
                || (expected.Some? && epoch != expected.value.head.epoch
                    && !(expected.value.head.epoch < 0xFFFF_FFFF_FFFF_FFFF && epoch == expected.value.head.epoch + 1))
      ensures r == Err(Invalid) ==> View() == old(View())
      ensures r != Err(Invalid) && !weather.recordStored ==> r == Err(Unavailable) && View() == old(View())
      ensures r != Err(Invalid) && weather.recordStored ==>
        Settled(AfterRivals(Stored(old(View()), expected, epoch, payload, path), weather.before), View(),
          PutFor(expected, epoch, payload, path), weather, r.Ok?)
      ensures r.Ok? ==> Confirms(r.value, PutFor(expected, epoch, payload, path))
      ensures expected != old(head) || !weather.recordStored || weather.reply == LostBeforeCommit ==> r.Err?
      ensures
        && epoch > 0 && expected == old(head)
        && (expected.Some? ==>
              || epoch == expected.value.head.epoch
              || (expected.value.head.epoch < 0xFFFF_FFFF_FFFF_FFFF && epoch == expected.value.head.epoch + 1))
        && weather.recordStored && weather.before == []
        && (weather.reply == Answered || (weather.reply == LostAfterCommit && weather.after == [] && weather.readable))
        ==>
        && r.Ok?
        && head.Some? && head.value.head == Head(epoch, |LogOf(View())|, path)
        && LogOf(View()) == LogOf(old(View())) + [path]
        && records == old(records)[path := Record(epoch, |LogOf(View())|, if expected.Some? then Some(expected.value.head.path) else None, payload)]
    {
      var prepared := PutRecord(expected, epoch, payload, path, weather.recordStored);
      if prepared.Err? {
        return Err(prepared.error);
      }
      ghost var stored := View();
      RivalsMove(stored, weather.before);
      Interleave(weather.before);
      PutGrows(stored, View(), prepared.value);
      r := Settle(prepared.value, weather);
      if expected == old(head) && weather.before == [] && (weather.reply == Answered || (weather.reply == LostAfterCommit && weather.after == [] && weather.readable)) {
        CalmSettled(old(View()), View(), epoch, payload, path, weather, r.Ok?);
      }
    }

    method ReadHead() returns (cursor: Option<Cursor>)
      requires Valid()
      ensures cursor == head && SeenOption(View(), cursor)
    {
      cursor := head;
      if head.Some? {
        HeadIsSeen(View());
      }
    }

    /** Walks the chain from the head down to `after`; it never bails, and returns exactly the log above `after`. */
    method Recover(after: nat) returns (r: Result<(Option<Cursor>, seq<Recovered>), JournalError>)
      requires Valid()
      ensures r.Ok? && r.value.0 == head
      ensures var log := LogOf(View());
              && (forall i :: 0 <= i < |log| ==> log[i] in records)
              && r.value.1 == Entries(records, log, if after <= |log| then after else |log|, |log|)
    {
      var cursor := ReadHead();
      var path := if cursor.Some? then Some(cursor.value.head.path) else None;
      var expectedPosition: nat := if cursor.Some? then cursor.value.head.position else 0;
      var found := [];
      ghost var store := View();
      StartedWalk(store, after);
      while expectedPosition > after
        invariant WalkOk(store, Walking(cursor, after, path, expectedPosition, found))
      {
        WalkedOn(store, Walking(cursor, after, path, expectedPosition, found));
        if path.None? {
          return Err(ChainBroken);
        }
        if path.value !in records {
          return Err(Unavailable);
        }
        var record := records[path.value];
        if record.position != expectedPosition || record.epoch == 0 {
          return Err(Invalid);
        }
        found := found + [Recovered(record.epoch, record.position, record.payload)];
        path := record.parent;
        expectedPosition := expectedPosition - 1;
      }
      WalkedSuffix(store, Walking(cursor, after, path, expectedPosition, found));
      found := Reversed(found);
      var i := 1;
      while i < |found|
        invariant 0 < i
      {
        if !EpochStep(found[i - 1].epoch, found[i].epoch) {
          return Err(Unordered);
        }
        i := i + 1;
      }
      return Ok((cursor, found));
    }
  }
}
