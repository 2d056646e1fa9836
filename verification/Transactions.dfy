/**
 Write batches and the transaction overlay: reads that see the transaction's own
 changes over the database, and the batch those changes become at commit.
 */
module Transactions {
  import opened Wrappers
  import opened Keys

  type Value = string
  type Table = map<Key, Value>

  datatype Mutation =
    | PutMutation(key: Key, value: Value)
    | DeleteMutation(key: Key)
    | DeleteRangeMutation(start: Key, end: Key)

  /** One log record: puts first, then deletes, then half-open range deletes. */
  datatype WalRecord = WalRecord(puts: seq<(Key, Value)>, deletes: seq<Key>, ranges: seq<(Key, Key)>)

  predicate InRange(k: Key, range: (Key, Key)) {
    AtMost(range.0, k) && Less(k, range.1)
  }

  predicate Covered(k: Key, ranges: seq<(Key, Key)>) {
    exists i :: 0 <= i < |ranges| && InRange(k, ranges[i])
  }

  function PutAll(db: Table, puts: seq<(Key, Value)>): Table {
    if puts == [] then db
    else PutAll(db, puts[..|puts| - 1])[puts[|puts| - 1].0 := puts[|puts| - 1].1]
  }

  predicate DistinctPuts(puts: seq<(Key, Value)>) {
    forall i, j :: 0 <= i < j < |puts| ==> puts[i].0 != puts[j].0
  }

  /** The database after a record. */
  function Applied(db: Table, r: WalRecord): Table {
    var all := PutAll(db, r.puts);
    map k | k in all && k !in r.deletes && !Covered(k, r.ranges) :: all[k]
  }

  function Added(r: WalRecord, m: Mutation): WalRecord {
    match m
    case PutMutation(k, v) => r.(puts := r.puts + [(k, v)])
    case DeleteMutation(k) => r.(deletes := r.deletes + [k])
    case DeleteRangeMutation(a, b) => r.(ranges := r.ranges + [(a, b)])
  }

  function RecordOf(mutations: seq<Mutation>): WalRecord {
    if mutations == [] then WalRecord([], [], [])
    else Added(RecordOf(mutations[..|mutations| - 1]), mutations[|mutations| - 1])
  }

  function Deleted(db: Table, deletes: seq<Key>): Table {
    map k | k in db && k !in deletes :: db[k]
  }

  /** A table without the rows that range deletions cover. */
  function Uncovered(db: Table, ranges: seq<(Key, Key)>): Table {
    map k | k in db && !Covered(k, ranges) :: db[k]
  }

  lemma AppliedInTurn(db: Table, r: WalRecord)
    ensures Applied(db, r) == Uncovered(Deleted(PutAll(db, r.puts), r.deletes), r.ranges)
  {
  }

  lemma DeletedStep(db: Table, deletes: seq<Key>, i: nat)
    requires i < |deletes|
    ensures Deleted(db, deletes[..i + 1]) == Deleted(db, deletes[..i]) - {deletes[i]}
  {
    assert deletes[..i + 1] == deletes[..i] + [deletes[i]];
  }

  lemma UncoveredStep(db: Table, ranges: seq<(Key, Key)>, i: nat)
    requires i < |ranges|
    ensures var was := Uncovered(db, ranges[..i]);
            Uncovered(db, ranges[..i + 1]) == map k | k in was && !InRange(k, ranges[i]) :: was[k]
  {
    CoveredStep(ranges, i);
  }

  /** Applies a record to the database step by step, as one write batch does. */
  method ApplyRecord(db: Table, r: WalRecord) returns (next: Table)
    ensures next == Applied(db, r)
  {
    next := db;
    var i := 0;
    while i < |r.puts|
      invariant 0 <= i <= |r.puts|
      invariant next == PutAll(db, r.puts[..i])
    {
      next := next[r.puts[i].0 := r.puts[i].1];
      assert r.puts[..i + 1][..i] == r.puts[..i];
      i := i + 1;
    }
    assert r.puts[..i] == r.puts;
    ghost var all := next;
    i := 0;
    while i < |r.deletes|
      invariant 0 <= i <= |r.deletes|
      invariant next == Deleted(all, r.deletes[..i])
    {
      DeletedStep(all, r.deletes, i);
      next := next - {r.deletes[i]};
      i := i + 1;
    }
    assert r.deletes[..i] == r.deletes;
    ghost var left := next;
    i := 0;
    while i < |r.ranges|
      invariant 0 <= i <= |r.ranges|
      invariant next == Uncovered(left, r.ranges[..i])
    {
      UncoveredStep(left, r.ranges, i);
      next := map k | k in next && !InRange(k, r.ranges[i]) :: next[k];
      i := i + 1;
    }
    assert r.ranges[..i] == r.ranges;
    AppliedInTurn(db, r);
  }

  /** Sorts a commit's mutations into the three parts of its log record. */
  method EncodeRecord(mutations: seq<Mutation>) returns (r: WalRecord)
    ensures r == RecordOf(mutations)
  {
    r := WalRecord([], [], []);
    var i := 0;
    while i < |mutations|
      invariant 0 <= i <= |mutations|
      invariant r == RecordOf(mutations[..i])
    {
      assert mutations[..i + 1][..i] == mutations[..i];
      match mutations[i] {
        case PutMutation(k, v) => r := r.(puts := r.puts + [(k, v)]);
        case DeleteMutation(k) => r := r.(deletes := r.deletes + [k]);
        case DeleteRangeMutation(a, b) => r := r.(ranges := r.ranges + [(a, b)]);
      }
      i := i + 1;
    }
    assert mutations[..i] == mutations;
  }

  lemma RecordOfSnoc(mutations: seq<Mutation>, m: Mutation)
    ensures RecordOf(mutations + [m]) == Added(RecordOf(mutations), m)
  {
    assert (mutations + [m])[..|mutations|] == mutations;
  }

  lemma {:induction false} PutAllAt(db: Table, keys: seq<Key>, m: Table, k: Key)
    requires forall x :: x in keys ==> x in m
    ensures Lookup(PutAll(db, Pairs(keys, m)), k) == if k in keys then Some(m[k]) else Lookup(db, k)
    decreases |keys|
  {
    if keys != [] {
      var rest := keys[..|keys| - 1];
      assert Pairs(keys, m)[..|keys| - 1] == Pairs(rest, m);
      assert keys == rest + [keys[|keys| - 1]];
      PutAllAt(db, rest, m, k);
    }
  }

  lemma {:induction false} PutAllTwice(db: Table, a: seq<(Key, Value)>, b: seq<(Key, Value)>)
    ensures PutAll(db, a + b) == PutAll(PutAll(db, a), b)
    decreases |b|
  {
    if b == [] {
      assert a + b == a;
    } else {
      assert (a + b)[..|a + b| - 1] == a + b[..|b| - 1];
      PutAllTwice(db, a, b[..|b| - 1]);
    }
  }

  /** What the entries of `changes` under `keys` contribute to a record. */
  function ChangesRecord(keys: seq<Key>, changes: map<Key, Option<Value>>): WalRecord
    requires forall k :: k in keys ==> k in changes
  {
    if keys == [] then WalRecord([], [], [])
    else
      var last := keys[|keys| - 1];
      Added(ChangesRecord(keys[..|keys| - 1], changes),
            if changes[last].Some? then PutMutation(last, changes[last].value) else DeleteMutation(last))
  }

  lemma {:induction false} ChangesRecordAt(db: Table, keys: seq<Key>, changes: map<Key, Option<Value>>, k: Key)
    requires forall x :: x in keys ==> x in changes
    ensures ChangesRecord(keys, changes).ranges == []
    ensures k in ChangesRecord(keys, changes).deletes <==> k in keys && changes[k].None?
    ensures Lookup(PutAll(db, ChangesRecord(keys, changes).puts), k) ==
              if k in keys && changes[k].Some? then changes[k] else Lookup(db, k)
    decreases |keys|
  {
    if keys != [] {
      var rest := keys[..|keys| - 1];
      var last := keys[|keys| - 1];
      assert keys == rest + [last];
      ChangesRecordAt(db, rest, changes, k);
      var r := ChangesRecord(rest, changes);
      if changes[last].Some? {
        assert (r.puts + [(last, changes[last].value)])[..|r.puts|] == r.puts;
      }
    }
  }

  lemma AppliedAt(db: Table, r: WalRecord, k: Key)
    ensures Lookup(Applied(db, r), k) ==
              if k in r.deletes || Covered(k, r.ranges) then None else Lookup(PutAll(db, r.puts), k)
  {
  }

  lemma UncoveredAt(m: Table, ranges: seq<(Key, Key)>, k: Key)
    ensures Lookup(Uncovered(m, ranges), k) == if Covered(k, ranges) then None else Lookup(m, k)
  {
  }

  function OverlayRecord(changes: map<Key, Option<Value>>, encoded: Table, ranges: seq<(Key, Key)>): WalRecord {
    var r := ChangesRecord(Sorted(changes.Keys), changes);
    WalRecord(r.puts + Pairs(Sorted(encoded.Keys), encoded), r.deletes, ranges)
  }

  lemma {:induction false} NoRanges(keys: seq<Key>, changes: map<Key, Option<Value>>)
    requires forall k :: k in keys ==> k in changes
    ensures ChangesRecord(keys, changes).ranges == []
    decreases |keys|
  {
    if keys != [] { NoRanges(keys[..|keys| - 1], changes); }
  }

  lemma OverlayBuilt(r: WalRecord, changes: map<Key, Option<Value>>, encoded: Table, ranges: seq<(Key, Key)>)
    requires r == ChangesRecord(Sorted(changes.Keys), changes)
    ensures var s := r.(puts := r.puts + Pairs(Sorted(encoded.Keys), encoded));
            s.(ranges := s.ranges + ranges) == OverlayRecord(changes, encoded, ranges)
  {
    NoRanges(Sorted(changes.Keys), changes);
    assert r.ranges + ranges == ranges;
  }

  /** The puts that changes list are of some of those keys, each once. */
  lemma {:induction false} ChangesDistinct(keys: seq<Key>, changes: map<Key, Option<Value>>)
    requires Ascending(keys) && forall k :: k in keys ==> k in changes
    ensures var puts := ChangesRecord(keys, changes).puts;
            DistinctPuts(puts) && forall i :: 0 <= i < |puts| ==> puts[i].0 in keys
    decreases |keys|
  {
    if keys != [] {
      var front, last := keys[..|keys| - 1], keys[|keys| - 1];
      ChangesDistinct(front, changes);
      forall k | k in front ensures k != last && k in keys {
        var i :| 0 <= i < |front| && front[i] == k;
        assert Less(keys[i], keys[|keys| - 1]);
        LessIrreflexive(last);
      }
    }
  }

  lemma PairsDistinct(keys: seq<Key>, m: Table)
    requires Ascending(keys) && forall k :: k in keys ==> k in m
    ensures DistinctPuts(Pairs(keys, m)) && forall i :: 0 <= i < |keys| ==> Pairs(keys, m)[i].0 == keys[i]
  {
    forall i, j | 0 <= i < j < |keys| ensures keys[i] != keys[j] {
      LessIrreflexive(keys[i]);
    }
  }

  /** A transaction's record puts no key twice. */
  lemma OverlayDistinct(changes: map<Key, Option<Value>>, encoded: Table, ranges: seq<(Key, Key)>)
    requires changes.Keys !! encoded.Keys
    ensures DistinctPuts(OverlayRecord(changes, encoded, ranges).puts)
  {
    SortedAscends(changes.Keys);
    SortedAscends(encoded.Keys);
    ChangesDistinct(Sorted(changes.Keys), changes);
    PairsDistinct(Sorted(encoded.Keys), encoded);
    var first, second := ChangesRecord(Sorted(changes.Keys), changes).puts, Pairs(Sorted(encoded.Keys), encoded);
    forall i, j | 0 <= i < |first| && 0 <= j < |second| ensures first[i].0 != second[j].0 {
      assert first[i].0 in changes.Keys && Sorted(encoded.Keys)[j] in encoded.Keys;
    }
  }

  /** The record of an overlay turns the database into what the overlay shows, less the covered rows. */
  lemma OverlayCommits(db: Table, changes: map<Key, Option<Value>>, encoded: Table, ranges: seq<(Key, Key)>)
    requires changes.Keys !! encoded.Keys
    ensures Applied(db, OverlayRecord(changes, encoded, ranges)) == Uncovered(Overlaid(db, changes, encoded), ranges)
  {
    var r := OverlayRecord(changes, encoded, ranges);
    forall k ensures Lookup(Applied(db, r), k) == Lookup(Uncovered(Overlaid(db, changes, encoded), ranges), k) {
      OverlayCommitsAt(db, changes, encoded, ranges, k);
    }
    SameTable(Applied(db, r), Uncovered(Overlaid(db, changes, encoded), ranges));
  }

  lemma OverlayCommitsAt(db: Table, changes: map<Key, Option<Value>>, encoded: Table, ranges: seq<(Key, Key)>, k: Key)
    requires changes.Keys !! encoded.Keys
    ensures Lookup(Applied(db, OverlayRecord(changes, encoded, ranges)), k)
         == Lookup(Uncovered(Overlaid(db, changes, encoded), ranges), k)
  {
    var keys := Sorted(changes.Keys);
    var first := ChangesRecord(keys, changes);
    ChangesRecordAt(db, keys, changes, k);
    PutAllTwice(db, first.puts, Pairs(Sorted(encoded.Keys), encoded));
    PutAllAt(PutAll(db, first.puts), Sorted(encoded.Keys), encoded, k);
    AppliedAt(db, OverlayRecord(changes, encoded, ranges), k);
    OverlaidAt(db, changes, encoded, k);
    UncoveredAt(Overlaid(db, changes, encoded), ranges, k);
  }

  lemma CoveredStep(ranges: seq<(Key, Key)>, i: nat)
    requires i < |ranges|
    ensures forall k :: Covered(k, ranges[..i + 1]) <==> Covered(k, ranges[..i]) || InRange(k, ranges[i])
  {
    forall k
      ensures Covered(k, ranges[..i + 1]) <==> Covered(k, ranges[..i]) || InRange(k, ranges[i])
    {
      if Covered(k, ranges[..i]) {
        var j :| 0 <= j < i && InRange(k, ranges[..i][j]);
        assert ranges[..i + 1][j] == ranges[j];
      }
      if InRange(k, ranges[i]) {
        assert ranges[..i + 1][i] == ranges[i];
      }
      if Covered(k, ranges[..i + 1]) {
        var j :| 0 <= j < i + 1 && InRange(k, ranges[..i + 1][j]);
        assert j < i ==> ranges[..i][j] == ranges[j];
      }
    }
  }

  function Pairs(keys: seq<Key>, m: Table): seq<(Key, Value)>
    requires forall k :: k in keys ==> k in m
  {
    seq(|keys|, i requires 0 <= i < |keys| => (keys[i], m[keys[i]]))
  }

  lemma PairsSnoc(keys: seq<Key>, i: nat, m: Table)
    requires i < |keys|
    requires forall k :: k in keys ==> k in m
    ensures Pairs(keys[..i + 1], m) == Pairs(keys[..i], m) + [(keys[i], m[keys[i]])]
  {
  }

  /** The rows of a table in key order. */
  function Items(m: Table): seq<(Key, Value)> {
    Pairs(Sorted(m.Keys), m)
  }

  /** The rows whose key starts with `prefix`. */
  function Under(m: Table, prefix: Key): Table {
    map k | k in m && HasPrefix(k, prefix) :: m[k]
  }

  function Lookup(m: Table, k: Key): Option<Value> {
    if k in m then Some(m[k]) else None
  }

  lemma SameTable(a: Table, b: Table)
    requires forall k :: Lookup(a, k) == Lookup(b, k)
    ensures a == b
  {
    forall k ensures k in a <==> k in b {
      assert Lookup(a, k) == Lookup(b, k);
    }
    forall k | k in a ensures a[k] == b[k] {
      assert Lookup(a, k) == Lookup(b, k);
    }
  }

  function Set(m: Table, k: Key, v: Option<Value>): Table {
    if v.Some? then m[k := v.value] else m - {k}
  }

  /** `values` is `base` with the rows of `over` written for the keys in `done`. */
  ghost predicate Laid(values: Table, base: Table, over: map<Key, Option<Value>>, done: seq<Key>) {
    && (forall k :: k in done ==> k in over)
    && (forall k :: Lookup(values, k) == if k in done then over[k] else Lookup(base, k))
  }

  lemma LaidStep(values: Table, base: Table, over: map<Key, Option<Value>>, it: seq<Key>, i: nat)
    requires i < |it| && it[i] in over
    requires Laid(values, base, over, it[..i])
    ensures Laid(Set(values, it[i], over[it[i]]), base, over, it[..i + 1])
  {
    assert it[..i + 1] == it[..i] + [it[i]];
    forall k
      ensures Lookup(Set(values, it[i], over[it[i]]), k) == if k in it[..i + 1] then over[k] else Lookup(base, k)
    {
      assert Lookup(values, k) == if k in it[..i] then over[k] else Lookup(base, k);
    }
  }

  /** What a read of `k` finds in a database under pending changes. */
  function Sees(db: Table, changes: map<Key, Option<Value>>, encoded: Table, k: Key): Option<Value> {
    if k in encoded then Some(encoded[k])
    else if k in changes then changes[k]
    else Lookup(db, k)
  }

  /** A database seen through pending changes. */
  function Overlaid(db: Table, changes: map<Key, Option<Value>>, encoded: Table): Table {
    map k | k in db.Keys + changes.Keys + encoded.Keys && Sees(db, changes, encoded, k).Some? ::
      Sees(db, changes, encoded, k).value
  }

  lemma OverlaidAt(db: Table, changes: map<Key, Option<Value>>, encoded: Table, k: Key)
    ensures Lookup(Overlaid(db, changes, encoded), k) == Sees(db, changes, encoded, k)
  {
  }

  lemma OverlaidIs(db: Table, changes: map<Key, Option<Value>>, encoded: Table, m: Table)
    requires forall k :: Lookup(m, k) == Sees(db, changes, encoded, k)
    ensures m == Overlaid(db, changes, encoded)
  {
    forall k ensures Lookup(m, k) == Lookup(Overlaid(db, changes, encoded), k) {
      OverlaidAt(db, changes, encoded, k);
    }
    SameTable(m, Overlaid(db, changes, encoded));
  }

  /** The keys an ordered cursor positioned at `prefix` still has to visit. */
  function CursorFrom(keys: set<Key>, prefix: Key): seq<Key> {
    Sorted(set k | k in keys && AtMost(prefix, k))
  }

  /** A cursor from `prefix` meets the prefixed keys first: once one key lacks the prefix, all later ones do. */
  lemma PrefixedFirst(keys: set<Key>, prefix: Key, i: nat)
    requires i < |CursorFrom(keys, prefix)|
    requires !HasPrefix(CursorFrom(keys, prefix)[i], prefix)
    ensures forall k :: k in keys && HasPrefix(k, prefix) ==> k in CursorFrom(keys, prefix)[..i]
  {
    var it := CursorFrom(keys, prefix);
    var from := set k | k in keys && AtMost(prefix, k);
    SortedAscends(from);
    forall k | k in keys && HasPrefix(k, prefix) ensures k in it[..i] {
      PrefixAtMost(prefix, k);
      assert k in from;
      assert k in it;
      var j :| 0 <= j < |it| && it[j] == k;
      if j >= i {
        assert it[i] in from;
        assert AtMost(it[i], k);
        PrefixContiguous(prefix, it[i], k);
      }
      assert it[..i][j] == k;
    }
  }

  class Transaction {
    const db: Table
    var changes: map<Key, Option<Value>>
    var encodedChanges: Table
    var rangeDeletions: seq<(Key, Key)>

    /** What a read of the open transaction sees. */
    function View(): Table
      reads this
    {
      Overlaid(db, changes, encodedChanges)
    }

    /** A key has at most one pending change. */
    ghost predicate Valid()
      reads this
    {
      changes.Keys !! encodedChanges.Keys
    }

    constructor (db: Table)
      ensures Valid() && this.db == db && View() == db && rangeDeletions == []
    {
      this.db := db;
      changes, encodedChanges, rangeDeletions := map[], map[], [];
    }

    method Get(key: Key) returns (value: Option<Value>)
      requires Valid()
      ensures value == if key in View() then Some(View()[key]) else None
    {
      if key in encodedChanges {
        return Some(encodedChanges[key]);
      }
      if key in changes {
        return changes[key];
      }
      return if key in db then Some(db[key]) else None;
    }

    method Put(key: Key, value: Value)
      requires Valid()
      modifies this
      ensures Valid() && rangeDeletions == old(rangeDeletions)
      ensures View() == old(View())[key := value]
    {
      ghost var before := View();
      forall k ensures Lookup(before, k) == Sees(db, changes, encodedChanges, k) {
        OverlaidAt(db, changes, encodedChanges, k);
      }
      changes := changes - {key};
      encodedChanges := encodedChanges[key := value];
      OverlaidIs(db, changes, encodedChanges, before[key := value]);
    }

    method Delete(key: Key)
      requires Valid()
      modifies this
      ensures Valid() && rangeDeletions == old(rangeDeletions)
      ensures View() == old(View()) - {key}
    {
      ghost var before := View();
      forall k ensures Lookup(before, k) == Sees(db, changes, encodedChanges, k) {
        OverlaidAt(db, changes, encodedChanges, k);
      }
      encodedChanges := encodedChanges - {key};
      changes := changes[key := None];
      OverlaidIs(db, changes, encodedChanges, before - {key});
    }

    method DeleteRange(start: Key, end: Key)
      requires Valid()
      modifies this
      ensures Valid() && View() == old(View())
      ensures rangeDeletions == old(rangeDeletions) + [(start, end)]
    {
      rangeDeletions := rangeDeletions + [(start, end)];
    }

    /** What merging the pending changes under `prefix` over `rows` gives for `k`. */
    function Merged(rows: Table, prefix: Key, k: Key): Option<Value>
      reads this
    {
      if HasPrefix(k, prefix) then Sees(rows, changes, encodedChanges, k) else Lookup(rows, k)
    }

    /** Lays the pending changes under `prefix` over rows that were read from the database. */
    method Merge(rows: Table, prefix: Key) returns (values: Table)
      ensures forall k :: Lookup(values, k) == Merged(rows, prefix, k)
    {
      var under := MergeChanges(rows, prefix);
      values := MergeEncoded(under, prefix);
      forall k ensures Lookup(values, k) == Merged(rows, prefix, k) {
        assert Lookup(under, k) == if k in changes && HasPrefix(k, prefix) then changes[k] else Lookup(rows, k);
      }
    }

    method MergeChanges(rows: Table, prefix: Key) returns (values: Table)
      ensures forall k :: Lookup(values, k) == if k in changes && HasPrefix(k, prefix) then changes[k] else Lookup(rows, k)
    {
      values := rows;
      var it := CursorFrom(changes.Keys, prefix);
      CursorComplete(changes.Keys, prefix);
      var i := 0;
      while i < |it|
        invariant 0 <= i <= |it|
        invariant forall k :: k in it[..i] ==> HasPrefix(k, prefix)
        invariant Laid(values, rows, changes, it[..i])
      {
        var key := it[i];
        if !HasPrefix(key, prefix) {
          PrefixedFirst(changes.Keys, prefix, i);
          break;
        }
        LaidStep(values, rows, changes, it, i);
        values := if changes[key].Some? then values[key := changes[key].value] else values - {key};
        i := i + 1;
      }
      assert i == |it| ==> it[..i] == it;
      assert forall k :: k in it[..i] <==> k in changes && HasPrefix(k, prefix);
    }

    method MergeEncoded(rows: Table, prefix: Key) returns (values: Table)
      ensures forall k :: Lookup(values, k) ==
                if k in encodedChanges && HasPrefix(k, prefix) then Some(encodedChanges[k]) else Lookup(rows, k)
    {
      values := rows;
      ghost var puts := map k | k in encodedChanges :: Some(encodedChanges[k]);
      var it := CursorFrom(encodedChanges.Keys, prefix);
      CursorComplete(encodedChanges.Keys, prefix);
      var i := 0;
      while i < |it|
        invariant 0 <= i <= |it|
        invariant forall k :: k in it[..i] ==> HasPrefix(k, prefix)
        invariant Laid(values, rows, puts, it[..i])
      {
        var key := it[i];
        if !HasPrefix(key, prefix) {
          PrefixedFirst(encodedChanges.Keys, prefix, i);
          break;
        }
        LaidStep(values, rows, puts, it, i);
        values := values[key := encodedChanges[key]];
        i := i + 1;
      }
      assert i == |it| ==> it[..i] == it;
      assert forall k :: k in it[..i] <==> k in encodedChanges && HasPrefix(k, prefix);
    }

    /** The mutations to commit: the pending changes in key order, then the range deletions. */
    method IntoMutations() returns (mutations: seq<Mutation>)
      requires Valid()
      ensures Applied(db, RecordOf(mutations)) == Uncovered(View(), rangeDeletions)
      ensures DistinctPuts(RecordOf(mutations).puts)
    {
      mutations := Listed();
      OverlayCommits(db, changes, encodedChanges, rangeDeletions);
      OverlayDistinct(changes, encodedChanges, rangeDeletions);
    }

    method Listed() returns (mutations: seq<Mutation>)
      ensures RecordOf(mutations) == OverlayRecord(changes, encodedChanges, rangeDeletions)
    {
      mutations := FromChanges();
      ghost var r := RecordOf(mutations);
      OverlayBuilt(r, changes, encodedChanges, rangeDeletions);
      mutations := FromEncoded(mutations);
      mutations := FromRanges(mutations);
    }

    method FromChanges() returns (mutations: seq<Mutation>)
      ensures RecordOf(mutations) == ChangesRecord(Sorted(changes.Keys), changes)
    {
      mutations := [];
      var it := Sorted(changes.Keys);
      var i := 0;
      while i < |it|
        invariant 0 <= i <= |it|
        invariant RecordOf(mutations) == ChangesRecord(it[..i], changes)
      {
        var value := changes[it[i]];
        var m := if value.Some? then PutMutation(it[i], value.value) else DeleteMutation(it[i]);
        RecordOfSnoc(mutations, m);
        assert it[..i + 1][..i] == it[..i];
        mutations := mutations + [m];
        i := i + 1;
      }
      assert it[..i] == it;
    }

    method FromEncoded(given: seq<Mutation>) returns (mutations: seq<Mutation>)
      ensures var r := RecordOf(given);
              RecordOf(mutations) == r.(puts := r.puts + Pairs(Sorted(encodedChanges.Keys), encodedChanges))
    {
      mutations := given;
      ghost var r := RecordOf(given);
      var it := Sorted(encodedChanges.Keys);
      var i := 0;
      while i < |it|
        invariant 0 <= i <= |it|
        invariant RecordOf(mutations) == r.(puts := r.puts + Pairs(it[..i], encodedChanges))
      {
        var m := PutMutation(it[i], encodedChanges[it[i]]);
        RecordOfSnoc(mutations, m);
        PairsSnoc(it, i, encodedChanges);
        mutations := mutations + [m];
        i := i + 1;
      }
      assert it[..i] == it;
    }

    method FromRanges(given: seq<Mutation>) returns (mutations: seq<Mutation>)
      ensures var r := RecordOf(given); RecordOf(mutations) == r.(ranges := r.ranges + rangeDeletions)
    {
      mutations := given;
      ghost var r := RecordOf(given);
      var i := 0;
      while i < |rangeDeletions|
        invariant 0 <= i <= |rangeDeletions|
        invariant RecordOf(mutations) == r.(ranges := r.ranges + rangeDeletions[..i])
      {
        var m := DeleteRangeMutation(rangeDeletions[i].0, rangeDeletions[i].1);
        RecordOfSnoc(mutations, m);
        mutations := mutations + [m];
        i := i + 1;
      }
      assert rangeDeletions[..i] == rangeDeletions;
    }

    /** The rows under `prefix` in key order, with the pending changes applied. */
    method Scan(prefix: Key) returns (rows: seq<(Key, Value)>)
      requires Valid()
      ensures rows == Items(Under(View(), prefix))
    {
      var values := Merge(Under(db, prefix), prefix);
      forall k ensures Lookup(values, k) == Lookup(Under(View(), prefix), k) {
        OverlaidAt(db, changes, encodedChanges, k);
      }
      SameTable(values, Under(View(), prefix));
      rows := Items(values);
    }

    /** A database row under the cursor, as the pending changes leave it. */
    method VisibleRow(key: Key) returns (row: Option<Value>)
      requires Valid() && key in db
      ensures row == Lookup(View(), key)
    {
      OverlaidAt(db, changes, encodedChanges, key);
      if key in changes {
        row := changes[key];
      } else if key in encodedChanges {
        row := Some(encodedChanges[key]);
      } else {
        row := Some(db[key]);
      }
    }

    /** The visible value, if any, of every database row. */
    ghost function Visible(): map<Key, Option<Value>>
      reads this
    {
      map k | k in db :: Lookup(View(), k)
    }

    /** Reads visible rows under `prefix` off the database cursor until there are `limit` of them. */
    method ReadAhead(prefix: Key, limit: nat) returns (values: Table, ghost it: seq<Key>, ghost i: nat)
      requires Valid() && limit > 0
      ensures Ascending(it) && i <= |it|
      ensures forall k :: k in it <==> k in db && AtMost(prefix, k)
      ensures forall k :: k in it[..i] ==> HasPrefix(k, prefix)
      ensures Laid(values, map[], Visible(), it[..i])
      ensures |values| >= limit || forall k :: k in db && HasPrefix(k, prefix) ==> k in it[..i]
    {
      values := map[];
      var cursor := CursorFrom(db.Keys, prefix);
      CursorComplete(db.Keys, prefix);
      it := cursor;
      var at := 0;
      while at < |cursor|
        invariant 0 <= at <= |cursor|
        invariant forall k :: k in it[..at] ==> HasPrefix(k, prefix)
        invariant Laid(values, map[], Visible(), it[..at])
      {
        var key := cursor[at];
        if !HasPrefix(key, prefix) {
          PrefixedFirst(db.Keys, prefix, at);
          i := at;
          return;
        }
        var row := VisibleRow(key);
        ReadRow(values, it, at, row);
        if row.Some? {
          values := values[key := row.value];
        }
        at := at + 1;
        if |values| >= limit {
          i := at;
          return;
        }
      }
      i := at;
      assert it[..i] == it;
    }

    /** One more row read. */
    lemma ReadRow(values: Table, it: seq<Key>, at: nat, row: Option<Value>)
      requires Ascending(it) && at < |it| && it[at] in db && row == Lookup(View(), it[at])
      requires Laid(values, map[], Visible(), it[..at])
      ensures Laid(if row.Some? then values[it[at] := row.value] else values, map[], Visible(), it[..at + 1])
      ensures forall k :: k in it[..at + 1] <==> k in it[..at] || k == it[at]
    {
      NotYetRead(values, it, at);
      LaidStep(values, map[], Visible(), it, at);
      assert it[..at + 1] == it[..at] + [it[at]];
    }

    lemma NotYetRead(values: Table, it: seq<Key>, at: nat)
      requires Ascending(it) && at < |it|
      requires Laid(values, map[], Visible(), it[..at])
      ensures values - {it[at]} == values
    {
      FreshKey(it, at);
      assert Lookup(values, it[at]) == None;
    }

    /**
     The first `limit` rows under `prefix`: the database cursor stops after `limit` visible rows,
     and the pending changes are merged only afterwards.
     */
    method ScanLimit(prefix: Key, limit: nat) returns (rows: seq<(Key, Value)>)
      requires Valid()
      ensures rows == Take(Items(Under(View(), prefix)), limit)
    {
      if limit == 0 {
        return [];
      }
      var ahead, it, i := ReadAhead(prefix, limit);
      var values := Merge(ahead, prefix);
      MissedAreHigh(ahead, it, i, values, prefix, limit);
      TakeItems(values, Under(View(), prefix), limit);
      rows := Take(Items(values), limit);
    }

    /** Every row the merge does not hold sorts after `limit` rows that it does hold. */
    lemma MissedAreHigh(ahead: Table, it: seq<Key>, i: nat, values: Table, prefix: Key, limit: nat)
      requires Valid()
      requires Ascending(it) && i <= |it|
      requires forall k :: k in it <==> k in db && AtMost(prefix, k)
      requires forall k :: k in it[..i] ==> HasPrefix(k, prefix)
      requires Laid(ahead, map[], Visible(), it[..i])
      requires |ahead| >= limit || forall k :: k in db && HasPrefix(k, prefix) ==> k in it[..i]
      requires forall k :: Lookup(values, k) == Merged(ahead, prefix, k)
      ensures forall k :: k in values ==> k in Under(View(), prefix) && values[k] == Under(View(), prefix)[k]
      ensures forall k :: k in Under(View(), prefix) && k !in values ==> |Below(values.Keys, k)| >= limit
    {
      var all := Under(View(), prefix);
      forall k | k in values ensures k in all && values[k] == all[k] {
        assert Lookup(values, k) == Merged(ahead, prefix, k);
        assert Lookup(ahead, k) == if k in it[..i] then Lookup(View(), k) else None;
        OverlaidAt(db, changes, encodedChanges, k);
      }
      forall k | k in all && k !in values ensures |Below(values.Keys, k)| >= limit {
        assert Lookup(values, k) == Merged(ahead, prefix, k);
        OverlaidAt(db, changes, encodedChanges, k);
        assert k in db && Lookup(ahead, k) == None;
        assert k !in it[..i];
        PrefixAtMost(prefix, k);
        VisitedBelow(it, i, k);
        forall x | x in ahead ensures x in Below(values.Keys, k) {
          assert Lookup(ahead, x) == if x in it[..i] then Lookup(View(), x) else None;
          assert Lookup(values, x) == Merged(ahead, prefix, x);
          OverlaidAt(db, changes, encodedChanges, x);
        }
        SubsetSize(ahead.Keys, Below(values.Keys, k));
      }
    }
  }

  lemma FreshKey(it: seq<Key>, i: nat)
    requires Ascending(it) && i < |it|
    ensures it[i] !in it[..i]
  {
    forall j | 0 <= j < i ensures it[..i][j] != it[i] {
      LessAsymmetric(it[j], it[i]);
    }
  }

  lemma SubsetSize<T>(a: set<T>, b: set<T>)
    requires a <= b
    ensures |a| <= |b|
  {
    if a != {} {
      var x :| x in a;
      SubsetSize(a - {x}, b - {x});
    }
  }

  /** Keys the cursor has passed sort before every key it has not. */
  lemma VisitedBelow(it: seq<Key>, i: nat, k: Key)
    requires Ascending(it) && i <= |it| && k in it && k !in it[..i]
    ensures forall x :: x in it[..i] ==> Less(x, k)
  {
    var j :| 0 <= j < |it| && it[j] == k;
    assert forall m :: 0 <= m < i ==> it[m] in it[..i];
  }

  lemma TakeItems(part: Table, all: Table, n: nat)
    requires forall k :: k in part ==> k in all && part[k] == all[k]
    requires forall k :: k in all && k !in part ==> |Below(part.Keys, k)| >= n
    ensures Take(Items(part), n) == Take(Items(all), n)
  {
    TakeAgrees(part.Keys, all.Keys, n);
    TakePairs(Sorted(part.Keys), Sorted(all.Keys), part, all, n);
  }

  lemma TakePairs(a: seq<Key>, b: seq<Key>, part: Table, all: Table, n: nat)
    requires forall k :: k in a ==> k in part
    requires forall k :: k in b ==> k in all
    requires forall k :: k in part ==> k in all && part[k] == all[k]
    requires Take(a, n) == Take(b, n)
    ensures Take(Pairs(a, part), n) == Take(Pairs(b, all), n)
  {
    var x, y := Take(Pairs(a, part), n), Take(Pairs(b, all), n);
    assert |x| == |Take(a, n)| && |y| == |Take(b, n)|;
    forall i | 0 <= i < |x| ensures x[i] == y[i] {
      assert a[i] == Take(a, n)[i] == Take(b, n)[i] == b[i];
    }
  }

  lemma CursorComplete(keys: set<Key>, prefix: Key)
    ensures Ascending(CursorFrom(keys, prefix))
    ensures forall k :: k in CursorFrom(keys, prefix) <==> k in keys && AtMost(prefix, k)
    ensures forall k :: k in keys && HasPrefix(k, prefix) ==> k in CursorFrom(keys, prefix)
  {
    SortedAscends(set k | k in keys && AtMost(prefix, k));
    forall k | k in keys && HasPrefix(k, prefix) ensures k in CursorFrom(keys, prefix) {
      PrefixAtMost(prefix, k);
    }
  }

  // ---------------------------------------------------------------------------
  // Reads before and after commit

  ghost predicate NoneCovered(rows: seq<(Key, Value)>, ranges: seq<(Key, Key)>) {
    forall i :: 0 <= i < |rows| ==> !Covered(rows[i].0, ranges)
  }

  lemma ItemsAre(m: Table)
    ensures |Items(m)| == |Sorted(m.Keys)|
    ensures forall i :: 0 <= i < |Items(m)| ==> Items(m)[i].0 == Sorted(m.Keys)[i] && Items(m)[i].0 in m
    ensures forall k :: k in m ==> k in Sorted(m.Keys)
  {
  }

  lemma UncoveredUnder(view: Table, ranges: seq<(Key, Key)>, prefix: Key)
    ensures Under(Uncovered(view, ranges), prefix) == Uncovered(Under(view, prefix), ranges)
  {
  }

  /** A row past the first `limit` uncovered ones has them all below it. */
  lemma PastTheLimit(all: Table, ranges: seq<(Key, Key)>, limit: nat, k: Key)
    requires NoneCovered(Take(Items(all), limit), ranges) && k in all && Covered(k, ranges)
    ensures |Below(Uncovered(all, ranges).Keys, k)| >= limit
  {
    var keys := Sorted(all.Keys);
    var part := Uncovered(all, ranges);
    ItemsAre(all);
    SortedAscends(all.Keys);
    var at :| 0 <= at < |keys| && keys[at] == k;
    UncoveredFirst(all, ranges, limit, at);
    FirstBelow(all, ranges, limit, at);
  }

  lemma UncoveredFirst(all: Table, ranges: seq<(Key, Key)>, limit: nat, at: nat)
    requires NoneCovered(Take(Items(all), limit), ranges) && at < |Sorted(all.Keys)|
    ensures at < limit ==> !Covered(Sorted(all.Keys)[at], ranges)
  {
    ItemsAre(all);
    if at < limit { assert Take(Items(all), limit)[at] == Items(all)[at]; }
  }

  lemma FirstBelow(all: Table, ranges: seq<(Key, Key)>, limit: nat, at: nat)
    requires at < |Sorted(all.Keys)| && limit <= at && NoneCovered(Take(Items(all), limit), ranges)
    ensures |Below(Uncovered(all, ranges).Keys, Sorted(all.Keys)[at])| >= limit
  {
    var keys, below := Sorted(all.Keys), Below(Uncovered(all, ranges).Keys, Sorted(all.Keys)[at]);
    ItemsAre(all);
    SortedAscends(all.Keys);
    forall i | 0 <= i < limit ensures keys[i] in below {
      assert Take(Items(all), limit)[i] == Items(all)[i];
      assert Less(keys[i], keys[at]);
    }
    AscendingCounts(keys, limit, below);
  }

  lemma {:induction false} AscendingCounts(keys: seq<Key>, n: nat, s: set<Key>)
    requires Ascending(keys) && n <= |keys| && forall i :: 0 <= i < n ==> keys[i] in s
    ensures |s| >= n
    decreases n
  {
    if n > 0 {
      var last := keys[n - 1];
      forall i | 0 <= i < n - 1 ensures keys[i] in s - {last} {
        LessIrreflexive(last);
        assert Less(keys[i], last);
      }
      AscendingCounts(keys, n - 1, s - {last});
    }
  }

  /** Dropping covered rows leaves the first `limit` rows as they are exactly when none of those is covered. */
  lemma LimitedExactlyWhen(all: Table, ranges: seq<(Key, Key)>, limit: nat)
    ensures Take(Items(Uncovered(all, ranges)), limit) == Take(Items(all), limit) <==> NoneCovered(Take(Items(all), limit), ranges)
  {
    var part := Uncovered(all, ranges);
    if NoneCovered(Take(Items(all), limit), ranges) {
      forall k | k in all && k !in part ensures |Below(part.Keys, k)| >= limit {
        PastTheLimit(all, ranges, limit, k);
      }
      TakeItems(part, all, limit);
    }
    if Take(Items(part), limit) == Take(Items(all), limit) {
      var rows := Take(Items(part), limit);
      ItemsAre(part);
      forall i | 0 <= i < |rows| ensures !Covered(rows[i].0, ranges) {
        assert rows[i] == Items(part)[i];
      }
    }
  }

  /** The same for all rows. */
  lemma AllExactlyWhen(all: Table, ranges: seq<(Key, Key)>)
    ensures Items(Uncovered(all, ranges)) == Items(all) <==> NoneCovered(Items(all), ranges)
  {
    var part := Uncovered(all, ranges);
    var n := if |Items(part)| <= |Items(all)| then |Items(all)| else |Items(part)|;
    LimitedExactlyWhen(all, ranges, n);
    assert Take(Items(part), n) == Items(part) && Take(Items(all), n) == Items(all);
  }

  /**
     What an open transaction reads is what the same read gives once its mutations are applied: a point read exactly if it
     finds no row in a pending range deletion, a scan exactly if none of the rows it lists lies in one, and a limited scan
     exactly if none of the rows it lists does, wherever else the deletions reach.
   */
  lemma ReadsMatchCommit(t: Transaction, mutations: seq<Mutation>, key: Key, prefix: Key, limit: nat)
    requires t.Valid() && Applied(t.db, RecordOf(mutations)) == Uncovered(t.View(), t.rangeDeletions)
    ensures var view, ranges, after := t.View(), t.rangeDeletions, Applied(t.db, RecordOf(mutations));
            && (Lookup(after, key) == Lookup(view, key) <==> !(key in view && Covered(key, ranges)))
            && (Items(Under(after, prefix)) == Items(Under(view, prefix)) <==> NoneCovered(Items(Under(view, prefix)), ranges))
            && ((Take(Items(Under(after, prefix)), limit) == Take(Items(Under(view, prefix)), limit)) <==>
                  NoneCovered(Take(Items(Under(view, prefix)), limit), ranges))
  {
    var view, ranges := t.View(), t.rangeDeletions;
    UncoveredUnder(view, ranges, prefix);
    AllExactlyWhen(Under(view, prefix), ranges);
    LimitedExactlyWhen(Under(view, prefix), ranges, limit);
    UncoveredAt(view, ranges, key);
  }

  /** A transaction that writes a row and then deletes a range around it still reads the row; once committed the row is gone. */
  method PutIntoPendingRangeIsLost(db: Table, key: Key, value: Value, start: Key, end: Key) returns (read: Option<Value>, mutations: seq<Mutation>)
    requires InRange(key, (start, end))
    ensures read == Some(value) && Lookup(Applied(db, RecordOf(mutations)), key) == None
  {
    var t := new Transaction(db);
    t.Put(key, value);
    t.DeleteRange(start, end);
    read := t.Get(key);
    mutations := t.IntoMutations();
    assert InRange(key, t.rangeDeletions[|t.rangeDeletions| - 1]);
    UncoveredAt(t.View(), t.rangeDeletions, key);
  }

  // ---------------------------------------------------------------------------
  // What a log record means, key by key

  /** The latest put of `k` among the first `n`. */
  ghost predicate LastPut(puts: seq<(Key, Value)>, n: nat, k: Key, i: nat) {
    i < n <= |puts| && puts[i].0 == k && forall j :: i < j < n ==> puts[j].0 != k
  }

  lemma {:induction false} PutAllHas(db: Table, puts: seq<(Key, Value)>, n: nat, k: Key, i: nat)
    requires LastPut(puts, n, k, i)
    ensures Lookup(PutAll(db, puts[..n]), k) == Some(puts[i].1)
    decreases n
  {
    var last := n - 1;
    assert puts[..n][..last] == puts[..last] && puts[..n][last] == puts[last];
    if i < last {
      PutAllHas(db, puts, last, k, i);
    }
  }

  lemma {:induction false} PutAllMisses(db: Table, puts: seq<(Key, Value)>, k: Key)
    requires forall j :: 0 <= j < |puts| ==> puts[j].0 != k
    ensures Lookup(PutAll(db, puts), k) == Lookup(db, k)
    decreases |puts|
  {
    if puts != [] {
      PutAllMisses(db, puts[..|puts| - 1], k);
    }
  }

  /**
   A log record, key by key: a key it deletes, or that lies in one of its ranges, start included and end excluded, is gone;
   any other has the value of its last put, and is as before if there is none.
   */
  lemma RecordAt(db: Table, r: WalRecord, k: Key, i: nat)
    ensures k in r.deletes ==> k !in Applied(db, r)
    ensures i < |r.ranges| && (k == r.ranges[i].0 || Less(r.ranges[i].0, k)) && Less(k, r.ranges[i].1) ==> k !in Applied(db, r)
    ensures k !in r.deletes && (forall j :: 0 <= j < |r.ranges| ==> Less(k, r.ranges[j].0) || k == r.ranges[j].1 || Less(r.ranges[j].1, k)) ==>
              && (LastPut(r.puts, |r.puts|, k, i) ==> Lookup(Applied(db, r), k) == Some(r.puts[i].1))
              && ((forall j :: 0 <= j < |r.puts| ==> r.puts[j].0 != k) ==> Lookup(Applied(db, r), k) == Lookup(db, k))
  {
    AppliedAt(db, r, k);
    assert r.puts[..|r.puts|] == r.puts;
    if LastPut(r.puts, |r.puts|, k, i) {
      PutAllHas(db, r.puts, |r.puts|, k, i);
    }
    if forall j :: 0 <= j < |r.puts| ==> r.puts[j].0 != k {
      PutAllMisses(db, r.puts, k);
    }
    if i < |r.ranges| && InRange(k, r.ranges[i]) {
      assert Covered(k, r.ranges);
    }
    forall j | 0 <= j < |r.ranges| && (Less(k, r.ranges[j].0) || k == r.ranges[j].1 || Less(r.ranges[j].1, k)) ensures !InRange(k, r.ranges[j]) {
      OutOfRange(k, r.ranges[j]);
    }
  }

  lemma OutOfRange(k: Key, range: (Key, Key))
    requires Less(k, range.0) || k == range.1 || Less(range.1, k)
    ensures !InRange(k, range)
  {
    LessIrreflexive(k);
    if Less(k, range.0) {
      LessAsymmetric(k, range.0);
    } else if Less(range.1, k) {
      LessAsymmetric(range.1, k);
    }
  }

  /** A zero byte after a key makes its immediate successor, so a range that ends there ends with the key itself. */
  lemma {:induction false} EndsWithKey(k: Key, last: Key)
    ensures Less(k, last + "\0") <==> AtMost(k, last)
  {
    if k != "" && last != "" {
      assert (last + "\0")[1..] == last[1..] + "\0";
      EndsWithKey(k[1..], last[1..]);
      assert k == [k[0]] + k[1..] && last == [last[0]] + last[1..];
    } else if k != "" {
      assert last + "\0" == "\0";
      assert k[0] == '\0' ==> !Less(k[1..], "");
    }
  }

  lemma RangeThroughLast(k: Key, first: Key, last: Key)
    ensures InRange(k, (first, last + "\0")) <==> AtMost(first, k) && AtMost(k, last)
  {
    EndsWithKey(k, last);
  }
}
