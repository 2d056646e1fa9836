/** Sliding-window aggregation: which windows a record belongs to, and count, sum and retractable maximum in each. */
module SlidingWindows {
  import opened Wrappers
  import opened ChangeLog

  type Name = string

  datatype Aggregation = Count | Sum | Max

  datatype Schedule = Schedule(start: real, size: real, slide: real, aggregation: Aggregation)

  datatype Accumulator = Accumulator(count: nat, sum: real, max: Option<real>)

  /** A window of a key; windows are numbered from the first, which begins at `start`. */
  type Slot = (nat, Name)

  datatype Row = Row(slot: Slot, accumulator: Accumulator)

  type RowChange = (Row, int)

  /** A contribution since the window was last empty. */
  type Entry = (real, int)

  predicate GoodSchedule(c: Schedule) {
    c.slide > 0.0 && c.size > 0.0
  }

  function WindowStart(c: Schedule, k: nat): real {
    c.start + k as real * c.slide
  }

  /** The window is aligned, begins at or after the schedule's start, and contains the time. */
  predicate InWindow(c: Schedule, k: nat, t: real) {
    WindowStart(c, k) <= t < WindowStart(c, k) + c.size
  }

  // ---------------------------------------------------------------------------
  // One window

  function LedgerCount(ledger: seq<Entry>): int {
    if ledger == [] then 0 else LedgerCount(ledger[..|ledger| - 1]) + ledger[|ledger| - 1].1
  }

  function LedgerSum(ledger: seq<Entry>): real {
    if ledger == [] then 0.0 else LedgerSum(ledger[..|ledger| - 1]) + ledger[|ledger| - 1].0 * ledger[|ledger| - 1].1 as real
  }

  /** The net multiplicity of a value. */
  function LedgerOf(ledger: seq<Entry>, v: real): int {
    if ledger == [] then 0 else LedgerOf(ledger[..|ledger| - 1], v) + if ledger[|ledger| - 1].0 == v then ledger[|ledger| - 1].1 else 0
  }

  lemma LedgerSnoc(ledger: seq<Entry>, e: Entry)
    ensures LedgerCount(ledger + [e]) == LedgerCount(ledger) + e.1
    ensures LedgerSum(ledger + [e]) == LedgerSum(ledger) + e.0 * e.1 as real
    ensures forall v :: LedgerOf(ledger + [e], v) == LedgerOf(ledger, v) + if e.0 == v then e.1 else 0
  {
    assert (ledger + [e])[..|ledger|] == ledger;
  }

  function TotalOf(values: map<real, nat>): nat {
    SumOver(values, values.Keys)
  }

  function SumOver(values: map<real, nat>, keys: set<real>): nat
    requires keys <= values.Keys
    decreases |keys|
  {
    if keys == {} then 0
    else
      var v := Pick(keys);
      values[v] + SumOver(values, keys - {v})
  }

  predicate IsGreatest(keys: set<real>, v: real) {
    v in keys && forall w :: w in keys ==> w <= v
  }

  lemma Member<T>(s: set<T>) returns (x: T)
    requires s != {}
    ensures x in s
  {
    x :| x in s;
  }

  lemma {:induction false} GreatestExists(keys: set<real>)
    requires keys != {}
    ensures exists v :: IsGreatest(keys, v)
    decreases |keys|
  {
    var x := Member(keys);
    var rest := keys - {x};
    if rest == {} {
      assert keys == {x};
      assert IsGreatest(keys, x);
    } else {
      GreatestExists(rest);
      var m :| IsGreatest(rest, m);
      assert forall y :: y in keys ==> y == x || y in rest;
      assert IsGreatest(keys, if x > m then x else m);
    }
  }

  function Pick(keys: set<real>): (v: real)
    requires keys != {}
    ensures v in keys && IsGreatest(keys, v)
  {
    GreatestExists(keys);
    assert exists v :: v in keys && IsGreatest(keys, v) by {
      var w :| IsGreatest(keys, w);
      assert w in keys && IsGreatest(keys, w);
    }
    var v :| v in keys && IsGreatest(keys, v);
    v
  }

  /** The greatest value that is there. */
  function GreatestOf(values: map<real, nat>): Option<real> {
    if values.Keys == {} then None else Some(Pick(values.Keys))
  }

  lemma {:induction false} SumUpdated(values: map<real, nat>, after: map<real, nat>, keys: set<real>, v: real)
    requires keys <= values.Keys && keys <= after.Keys && forall w :: w in keys && w != v ==> values[w] == after[w]
    ensures SumOver(after, keys) as int == SumOver(values, keys) as int + (if v in keys then after[v] as int - values[v] as int else 0)
    decreases |keys|
  {
    if keys != {} {
      SumUpdated(values, after, keys - {Pick(keys)}, v);
    }
  }

  lemma {:induction false} SumSplit(values: map<real, nat>, keys: set<real>, v: real)
    requires keys <= values.Keys && v in keys
    ensures SumOver(values, keys) == values[v] + SumOver(values, keys - {v})
    decreases |keys|
  {
    var x := Pick(keys);
    if x != v {
      var rest := keys - {x};
      SumSplit(values, rest, v);
      var others := keys - {v};
      SumSplit(values, others, x);
      assert rest - {v} == others - {x};
    }
  }

  /** The value counts after a contribution; an absent value stands for zero. */
  function Bumped(values: map<real, nat>, v: real, count: nat): map<real, nat> {
    if count == 0 then values - {v} else values[v := count]
  }

  function ValueCount(values: map<real, nat>, v: real): nat {
    if v in values then values[v] else 0
  }

  lemma BumpedTotal(values: map<real, nat>, v: real, count: nat)
    ensures TotalOf(Bumped(values, v, count)) as int == TotalOf(values) as int + count as int - ValueCount(values, v) as int
  {
    var rest := values - {v};
    assert rest.Keys == values.Keys - {v};
    SumUpdated(values, rest, rest.Keys, v);
    if v in values { SumSplit(values, values.Keys, v); } else { assert rest == values; }
    assert TotalOf(rest) as int == TotalOf(values) as int - ValueCount(values, v) as int;
    if count > 0 {
      var more := values[v := count];
      SumSplit(more, more.Keys, v);
      assert more.Keys - {v} == rest.Keys;
      SumUpdated(rest, more, rest.Keys, v);
      assert SumOver(more, rest.Keys) == TotalOf(rest);
    }
  }

  /** The contributions once this one is in; an empty window starts afresh. */
  ghost function Noted(ledger: seq<Entry>, v: real, weight: int): seq<Entry> {
    if LedgerCount(ledger) + weight == 0 then [] else ledger + [(v, weight)]
  }

  /** Of all the contributions a window took, those since it was last empty. */
  ghost function Kept(history: seq<Entry>): seq<Entry> {
    if history == [] then []
    else Noted(Kept(history[..|history| - 1]), history[|history| - 1].0, history[|history| - 1].1)
  }

  lemma KeptSnoc(history: seq<Entry>, v: real, weight: int)
    ensures Kept(history + [(v, weight)]) == Noted(Kept(history), v, weight)
  {
    assert (history + [(v, weight)])[..|history|] == history;
  }

  /** What is stored for a window says exactly what its contributions since it was last empty add up to. */
  ghost predicate SlotTrue(c: Schedule, accumulator: Option<Accumulator>, values: map<real, nat>, history: seq<Entry>) {
    && Units(history) && (c.aggregation.Max? ==> FoundLive(history))
    && LedgerTrue(c, accumulator, values, Kept(history))
  }

  ghost predicate LedgerTrue(c: Schedule, accumulator: Option<Accumulator>, values: map<real, nat>, ledger: seq<Entry>) {
    && (accumulator.None? <==> ledger == [])
    && (accumulator.Some? ==> accumulator.value.count == LedgerCount(ledger) && accumulator.value.count > 0)
    && (accumulator.Some? && c.aggregation.Sum? ==> accumulator.value.sum == LedgerSum(ledger))
    && (c.aggregation.Max? ==>
          && (forall v :: ValueCount(values, v) == LedgerOf(ledger, v))
          && (forall v :: v in values ==> values[v] > 0)
          && TotalOf(values) == (if accumulator.Some? then accumulator.value.count else 0)
          && (accumulator.Some? ==> accumulator.value.max == GreatestOf(values)))
  }

  /** When the contribution can be taken: something is there to retract, and for a maximum that very value. */
  ghost predicate Takes(c: Schedule, history: seq<Entry>, v: real, weight: int) {
    var ledger := Kept(history);
    LedgerCount(ledger) + weight >= 0 && (c.aggregation.Max? ==> LedgerOf(ledger, v) + weight >= 0)
  }

  lemma NotedTrue(c: Schedule, ledger: seq<Entry>, v: real, weight: int, accumulator: Option<Accumulator>, values: map<real, nat>, next: Accumulator, values': map<real, nat>)
    requires LedgerTrue(c, accumulator, values, ledger) && weight != 0
    requires next.count as int == (if accumulator.Some? then accumulator.value.count else 0) as int + weight
    requires c.aggregation.Sum? ==> next.sum == (if accumulator.Some? then accumulator.value.sum else 0.0) + v * weight as real
    requires c.aggregation.Max? ==> ValueCount(values, v) as int + weight >= 0 && values' == Bumped(values, v, ValueCount(values, v) + weight) && next.max == GreatestOf(values')
    requires !c.aggregation.Max? ==> values' == values
    ensures LedgerTrue(c, if next.count == 0 then None else Some(next), values', Noted(ledger, v, weight))
  {
    LedgerSnoc(ledger, (v, weight));
    if c.aggregation.Max? {
      NotedValues(ledger, v, weight, values, values');
      BumpedTotal(values, v, ValueCount(values, v) + weight);
      NothingLeft(values');
    }
  }

  /** An accepted contribution joins the history, and a maximum only accepts a retraction of a live value. */
  lemma HistoryTrue(c: Schedule, history: seq<Entry>, v: real, weight: int, before: Option<Accumulator>, counts: map<real, nat>, accumulator: Option<Accumulator>, values: map<real, nat>)
    requires SlotTrue(c, before, counts, history) && Takes(c, history, v, weight) && (weight == 1 || weight == -1)
    requires LedgerTrue(c, accumulator, values, Noted(Kept(history), v, weight))
    ensures SlotTrue(c, accumulator, values, history + [(v, weight)])
  {
    KeptSnoc(history, v, weight);
    if c.aggregation.Max? {
      KeptIsLive(history);
      FoundSnoc(history, v, weight);
    }
  }

  /** The value counts follow the contributions. */
  lemma NotedValues(ledger: seq<Entry>, v: real, weight: int, values: map<real, nat>, values': map<real, nat>)
    requires (forall w :: ValueCount(values, w) == LedgerOf(ledger, w)) && (forall w :: w in values ==> values[w] > 0)
    requires ValueCount(values, v) as int + weight >= 0 && values' == Bumped(values, v, ValueCount(values, v) + weight)
    ensures (forall w :: ValueCount(values', w) == LedgerOf(ledger + [(v, weight)], w)) && forall w :: w in values' ==> values'[w] > 0
  {
    LedgerSnoc(ledger, (v, weight));
  }

  lemma NothingLeft(values: map<real, nat>)
    requires forall v :: v in values ==> values[v] > 0
    ensures TotalOf(values) == 0 <==> values == map[]
  {
    if values.Keys == {} {
      assert values == map[];
    } else {
      var v := Pick(values.Keys);
      SumSplit(values, values.Keys, v);
      assert values[v] > 0;
    }
  }

  // ---------------------------------------------------------------------------
  // The change log

  function Held(accumulators: map<Slot, Accumulator>, s: Slot): Option<Accumulator> {
    if s in accumulators then Some(accumulators[s]) else None
  }

  function Holding(accumulators: map<Slot, Accumulator>, s: Slot, after: Option<Accumulator>): map<Slot, Accumulator> {
    if after.Some? then accumulators[s := after.value] else accumulators - {s}
  }

  ghost predicate LogOk(changes: seq<RowChange>, accumulators: map<Slot, Accumulator>) {
    forall row: Row :: Net(changes, row) == if Held(accumulators, row.slot) == Some(row.accumulator) then 1 else 0
  }

  /** The changes of one window: what it held goes, what it holds now comes. */
  function Turned(s: Slot, before: Option<Accumulator>, after: Option<Accumulator>): seq<RowChange> {
    (if before.Some? then [(Row(s, before.value), -1)] else []) + (if after.Some? then [(Row(s, after.value), 1)] else [])
  }

  lemma TurnedLog(changes: seq<RowChange>, accumulators: map<Slot, Accumulator>, s: Slot, after: Option<Accumulator>)
    requires LogOk(changes, accumulators)
    ensures LogOk(changes + Turned(s, Held(accumulators, s), after), Holding(accumulators, s, after))
  {
    var before := Held(accumulators, s);
    var gone := if before.Some? then [(Row(s, before.value), -1)] else [];
    var come := if after.Some? then [(Row(s, after.value), 1)] else [];
    var next := Holding(accumulators, s, after);
    var all := changes + Turned(s, before, after);
    assert all == changes + gone + come;
    forall row: Row ensures Net(all, row) == if Held(next, row.slot) == Some(row.accumulator) then 1 else 0 {
      assert Net(changes, row) == if Held(accumulators, row.slot) == Some(row.accumulator) then 1 else 0;
      if before.Some? { NetSnoc(changes, gone[0], row); } else { assert changes + gone == changes; }
      if after.Some? { NetSnoc(changes + gone, come[0], row); } else { assert changes + gone + come == changes + gone; }
    }
  }

  // ---------------------------------------------------------------------------
  // The windows of a record

  /** Rounding down to the last aligned start at or before the time. */
  lemma LastWindow(c: Schedule, t: real)
    requires GoodSchedule(c) && t >= c.start
    ensures ((t - c.start) / c.slide).Floor >= 0
    ensures WindowStart(c, ((t - c.start) / c.slide).Floor) <= t < WindowStart(c, ((t - c.start) / c.slide).Floor) + c.slide
  {
    var q := (t - c.start) / c.slide;
    assert q * c.slide == t - c.start;
    assert q >= 0.0;
    Between(q.Floor as real, q, c.slide, t - c.start);
  }

  lemma Distribute(a: real, b: real, s: real, c: real)
    requires c == a + b
    ensures c * s == a * s + b * s
  {
  }

  lemma Between(x: real, q: real, s: real, d: real)
    requires x <= q < x + 1.0 && s > 0.0 && q * s == d
    ensures x * s <= d < x * s + s
  {
    var above, below := x + 1.0 - q, q - x;
    Product(below, s);
    Product(above, s);
    Distribute(x, below, s, q);
    Distribute(below, above, s, 1.0);
    var xs, bs, cs := x * s, below * s, above * s;
    assert bs >= 0.0 && cs > 0.0 && s == bs + cs && d == xs + bs;
  }

  lemma Below(a: real, b: real, s: real)
    requires a <= b && s > 0.0
    ensures a * s <= b * s
  {
    var gap := b - a;
    Product(gap, s);
    Distribute(a, gap, s, b);
  }

  lemma Product(a: real, s: real)
    requires a >= 0.0 && s > 0.0
    ensures a * s >= 0.0
    ensures a > 0.0 ==> a * s > 0.0
  {
  }

  lemma StartsRise(c: Schedule, j: nat, k: nat)
    requires GoodSchedule(c) && j <= k
    ensures WindowStart(c, j) <= WindowStart(c, k)
    ensures j < k ==> WindowStart(c, j) + c.slide <= WindowStart(c, k)
  {
    Below(j as real, k as real, c.slide);
    if j < k {
      var x := j as real;
      Below(x + 1.0, k as real, c.slide);
      assert (x + 1.0) * c.slide == x * c.slide + c.slide;
      assert WindowStart(c, j) + c.slide == c.start + (x + 1.0) * c.slide;
    }
  }

  lemma PreviousStart(c: Schedule, k: nat)
    requires k > 0
    ensures WindowStart(c, k - 1) == WindowStart(c, k) - c.slide
  {
    assert (k - 1) as real == k as real - 1.0;
    assert (k as real - 1.0) * c.slide == k as real * c.slide - c.slide;
  }

  /** A later window is past the time; an earlier one that already ended leaves no earlier one open. */
  lemma WindowEdges(c: Schedule, last: nat, k: nat, t: real)
    requires GoodSchedule(c) && WindowStart(c, last) <= t < WindowStart(c, last) + c.slide
    ensures k > last ==> !InWindow(c, k, t)
    ensures k <= last ==> WindowStart(c, k) <= t
    ensures forall j: nat :: j <= k && t >= WindowStart(c, k) + c.size ==> !InWindow(c, j, t)
  {
    if k > last { StartsRise(c, last, k); } else { StartsRise(c, k, last); }
    forall j: nat | j <= k && t >= WindowStart(c, k) + c.size ensures !InWindow(c, j, t) {
      StartsRise(c, j, k);
    }
  }

  // ---------------------------------------------------------------------------
  // The operator

  datatype Reason = NoState | NoValue

  class WindowOperator {
    const schedule: Schedule
    var accumulators: map<Slot, Accumulator>
    var values: map<Slot, map<real, nat>>
    var changes: seq<RowChange>
    ghost var histories: map<Slot, seq<Entry>>

    ghost predicate Valid()
      reads this
    {
      && GoodSchedule(schedule) && LogOk(changes, accumulators)
      && forall s :: SlotHolds(s, schedule, accumulators, values, histories)
    }

    constructor (schedule: Schedule)
      requires GoodSchedule(schedule)
      ensures Valid() && this.schedule == schedule && histories == map[] && changes == []
    {
      this.schedule := schedule;
      accumulators, values, changes := map[], map[], [];
      histories := map[];
    }

    /** What a window holds after one more contribution. */
    method Accumulate(previous: Option<Accumulator>, counts: map<real, nat>, ghost history: seq<Entry>, v: real, weight: int) returns (res: Result<(Accumulator, map<real, nat>), Reason>)
      requires SlotTrue(schedule, previous, counts, history) && (weight == 1 || weight == -1)
      ensures res.Ok? <==> Takes(schedule, history, v, weight)
      ensures res.Ok? ==> SlotTrue(schedule, if res.value.0.count == 0 then None else Some(res.value.0), res.value.1, history + [(v, weight)])
    {
      var accumulator := if previous.Some? then previous.value else Accumulator(0, 0.0, None);
      var count := accumulator.count as int + weight;
      if count < 0 { return Err(NoState); }
      var next := counts;
      if schedule.aggregation == Sum {
        accumulator := accumulator.(sum := accumulator.sum + v * weight as real);
      } else if schedule.aggregation == Max {
        var bumped := ValueCount(counts, v) as int + weight;
        if bumped < 0 { return Err(NoValue); }
        next := Bumped(counts, v, bumped);
        accumulator := accumulator.(max := GreatestOf(next));
      }
      accumulator := accumulator.(count := count);
      NotedTrue(schedule, Kept(history), v, weight, previous, counts, accumulator, next);
      HistoryTrue(schedule, history, v, weight, previous, counts, if accumulator.count == 0 then None else Some(accumulator), next);
      return Ok((accumulator, next));
    }

    /** One contribution to one window, with the changes it makes to the window's row. */
    method Contribute(s: Slot, v: real, weight: int) returns (res: Result<(), Reason>)
      requires Valid() && (weight == 1 || weight == -1)
      modifies this
      ensures res.Ok? <==> Takes(schedule, HistoryOf(old(histories), s), v, weight)
      ensures res.Ok? ==> Valid() && old(changes) <= changes && histories == old(histories)[s := HistoryOf(old(histories), s) + [(v, weight)]]
    {
      assert SlotHolds(s, schedule, accumulators, values, histories);
      ghost var history := HistoryOf(histories, s);
      var previous := Held(accumulators, s);
      var accumulated := Accumulate(previous, if s in values then values[s] else map[], history, v, weight);
      if accumulated.Err? { return Err(accumulated.error); }
      var after := if accumulated.value.0.count == 0 then None else Some(accumulated.value.0);
      Replace(s, previous, after, accumulated.value.1, history + [(v, weight)]);
      return Ok(());
    }

    /** Logs the change of a window's row and stores what the window holds now. */
    method Replace(s: Slot, previous: Option<Accumulator>, after: Option<Accumulator>, counts: map<real, nat>, ghost history: seq<Entry>)
      requires Valid() && previous == Held(accumulators, s) && SlotTrue(schedule, after, counts, history)
      modifies this
      ensures Valid() && old(changes) <= changes && histories == old(histories)[s := history]
    {
      TurnedLog(changes, accumulators, s, after);
      OtherSlots(s, schedule, accumulators, values, histories, after, counts, history);
      changes := changes + Turned(s, previous, after);
      histories := histories[s := history];
      accumulators := Holding(accumulators, s, after);
      values := values[s := counts];
    }

    /** A record contributes to every window that contains its time, from the latest to the earliest. */
    method Index(key: Name, time: real, v: real, weight: int) returns (res: Result<(), Reason>)
      requires Valid() && (weight == 1 || weight == -1)
      modifies this
      ensures res.Ok? <==> forall k: nat :: InWindow(schedule, k, time) ==> Takes(schedule, HistoryOf(old(histories), (k, key)), v, weight)
      ensures res.Ok? ==> Valid() && old(changes) <= changes
      ensures res.Ok? ==> forall s: Slot :: After(s, schedule, old(histories), histories, key, time, v, weight)
    {
      if time < schedule.start {
        NoWindowBefore(schedule, time);
        return Ok(());
      }
      LastWindow(schedule, time);
      var last: nat := ((time - schedule.start) / schedule.slide).Floor;
      var k: nat := last;
      var start := schedule.start + k as real * schedule.slide;
      ghost var first, lowest: nat := histories, last + 1;
      while start >= schedule.start && time < start + schedule.size
        invariant Valid() && old(changes) <= changes
        invariant k <= last && start == WindowStart(schedule, k) && lowest == k + 1
        invariant forall s: Slot :: Visited(s, schedule, first, histories, key, time, v, weight, lowest, last)
        invariant forall j: nat :: lowest <= j <= last ==> InWindow(schedule, j, time) && Takes(schedule, HistoryOf(first, (j, key)), v, weight)
        decreases k
      {
        WindowEdges(schedule, last, k, time);
        assert Visited((k, key), schedule, first, histories, key, time, v, weight, lowest, last);
        ghost var before := histories;
        res := Contribute((k, key), v, weight);
        if res.Err? { return; }
        VisitNext(schedule, first, before, histories, key, time, v, weight, lowest, k, last);
        lowest := k;
        FirstStart(schedule, k);
        if start < schedule.start + schedule.slide { break; }
        PreviousStart(schedule, k);
        start := start - schedule.slide;
        k := k - 1;
      }
      NoneLeft(schedule, last, k, lowest, time);
      forall s: Slot ensures After(s, schedule, first, histories, key, time, v, weight) {
        assert Visited(s, schedule, first, histories, key, time, v, weight, lowest, last);
      }
      return Ok(());
    }
  }

  lemma OtherSlots(s: Slot, c: Schedule, accumulators: map<Slot, Accumulator>, values: map<Slot, map<real, nat>>, histories: map<Slot, seq<Entry>>, after: Option<Accumulator>, counts: map<real, nat>, history: seq<Entry>)
    requires forall x :: SlotHolds(x, c, accumulators, values, histories)
    requires SlotTrue(c, after, counts, history)
    ensures var a, b, l := Holding(accumulators, s, after), values[s := counts], histories[s := history]; forall x :: SlotHolds(x, c, a, b, l)
  {
    var a, b, l := Holding(accumulators, s, after), values[s := counts], histories[s := history];
    forall x ensures SlotHolds(x, c, a, b, l) {
      assert SlotHolds(x, c, accumulators, values, histories);
    }
  }

  /** The windows of the key that contain the time took the contribution, and nothing else changed. */
  ghost predicate After(s: Slot, c: Schedule, first: map<Slot, seq<Entry>>, histories: map<Slot, seq<Entry>>, key: Name, time: real, v: real, weight: int) {
    HistoryOf(histories, s) == if s.1 == key && InWindow(c, s.0, time) then HistoryOf(first, s) + [(v, weight)] else HistoryOf(first, s)
  }

  /** The windows from `lowest` to `last` have taken the contribution, and no others. */
  ghost predicate Visited(s: Slot, c: Schedule, first: map<Slot, seq<Entry>>, histories: map<Slot, seq<Entry>>, key: Name, time: real, v: real, weight: int, lowest: nat, last: nat) {
    HistoryOf(histories, s) == if s.1 == key && lowest <= s.0 <= last then HistoryOf(first, s) + [(v, weight)] else HistoryOf(first, s)
  }

  lemma VisitNext(c: Schedule, first: map<Slot, seq<Entry>>, before: map<Slot, seq<Entry>>, after: map<Slot, seq<Entry>>, key: Name, time: real, v: real, weight: int, lowest: nat, k: nat, last: nat)
    requires lowest == k + 1 && k <= last && forall s: Slot :: Visited(s, c, first, before, key, time, v, weight, lowest, last)
    requires after == before[(k, key) := HistoryOf(before, (k, key)) + [(v, weight)]]
    ensures forall s: Slot :: Visited(s, c, first, after, key, time, v, weight, k, last)
  {
    forall s: Slot ensures Visited(s, c, first, after, key, time, v, weight, k, last) {
      assert Visited(s, c, first, before, key, time, v, weight, lowest, last);
    }
  }

  /** Only the first window begins less than one slide after the start. */
  lemma FirstStart(c: Schedule, k: nat)
    requires GoodSchedule(c)
    ensures WindowStart(c, k) < c.start + c.slide <==> k == 0
  {
    var one: nat := 1;
    if k > 0 {
      StartsRise(c, one, k);
      assert WindowStart(c, one) == c.start + c.slide;
    }
  }

  /** After the loop every window that contains the time was visited. */
  lemma NoneLeft(c: Schedule, last: nat, k: nat, lowest: nat, t: real)
    requires GoodSchedule(c) && k <= last && WindowStart(c, last) <= t < WindowStart(c, last) + c.slide
    requires lowest == 0 || (lowest == k + 1 && (WindowStart(c, k) < c.start || t >= WindowStart(c, k) + c.size))
    ensures forall j: nat :: InWindow(c, j, t) ==> lowest <= j <= last
  {
    var zero: nat := 0;
    StartsRise(c, zero, k);
    forall j: nat | InWindow(c, j, t) ensures lowest <= j <= last {
      WindowEdges(c, last, j, t);
      WindowEdges(c, last, k, t);
    }
  }

  lemma NoWindowBefore(c: Schedule, t: real)
    requires GoodSchedule(c) && t < c.start
    ensures forall k: nat :: !InWindow(c, k, t)
  {
    forall k: nat ensures !InWindow(c, k, t) {
      var zero: nat := 0;
      StartsRise(c, zero, k);
    }
  }

  function HistoryOf(histories: map<Slot, seq<Entry>>, s: Slot): seq<Entry> {
    if s in histories then histories[s] else []
  }

  ghost predicate SlotHolds(s: Slot, c: Schedule, accumulators: map<Slot, Accumulator>, values: map<Slot, map<real, nat>>, histories: map<Slot, seq<Entry>>) {
    SlotTrue(c, Held(accumulators, s), if s in values then values[s] else map[], HistoryOf(histories, s))
  }

  // ---------------------------------------------------------------------------
  // The live values of a window, recomputed from everything it ever took

  function Live(history: seq<Entry>): multiset<real> {
    if history == [] then multiset{}
    else
      var before := Live(history[..|history| - 1]);
      var e := history[|history| - 1];
      if e.1 > 0 then before + multiset{e.0} else before - multiset{e.0}
  }

  lemma LiveSnoc(history: seq<Entry>, v: real, weight: int)
    ensures Live(history + [(v, weight)]) == if weight > 0 then Live(history) + multiset{v} else Live(history) - multiset{v}
  {
    assert (history + [(v, weight)])[..|history|] == history;
  }

  ghost predicate Units(history: seq<Entry>) {
    forall i :: 0 <= i < |history| ==> history[i].1 == 1 || history[i].1 == -1
  }

  /** The i-th contribution adds a value, or retracts one that is live. */
  ghost predicate Finds(history: seq<Entry>, i: nat)
    requires i < |history|
  {
    history[i].1 == 1 || history[i].0 in Live(history[..i])
  }

  /** Every retraction found its value live. */
  ghost predicate FoundLive(history: seq<Entry>) {
    forall i: nat :: i < |history| ==> Finds(history, i)
  }

  lemma FoundFront(history: seq<Entry>)
    requires history != []
    ensures var front := history[..|history| - 1]; var e := history[|history| - 1];
            && (FoundLive(history) <==> FoundLive(front) && (e.1 == 1 || e.0 in Live(front)))
            && (Units(history) ==> Units(front))
  {
    var front := history[..|history| - 1];
    forall i: nat | i < |front| ensures Finds(history, i) <==> Finds(front, i) {
      assert history[..i] == front[..i];
    }
    var last: nat := |front|;
    assert Finds(history, last) <==> history[last].1 == 1 || history[last].0 in Live(front);
  }

  lemma FoundSnoc(history: seq<Entry>, v: real, weight: int)
    ensures FoundLive(history + [(v, weight)]) <==> FoundLive(history) && (weight == 1 || v in Live(history))
  {
    var more := history + [(v, weight)];
    assert more[..|more| - 1] == history;
    FoundFront(more);
  }

  ghost function Distinct(b: multiset<real>): set<real> {
    set v | v in b
  }

  /** The sum of a multiset of values, each as often as it occurs. */
  ghost function SumOf(b: multiset<real>): real
    decreases |b|
  {
    var keys := Distinct(b);
    if keys == {} then 0.0
    else
      var v := Pick(keys);
      v + SumOf(b - multiset{v})
  }

  lemma {:induction false} SumTake(b: multiset<real>, v: real)
    requires v in b
    ensures SumOf(b) == v + SumOf(b - multiset{v})
    decreases |b|
  {
    var keys := Distinct(b);
    assert v in keys;
    var x := Pick(keys);
    if x != v {
      var without, others := b - multiset{x}, b - multiset{v};
      SumTake(without, v);
      SumTake(others, x);
      assert without - multiset{v} == others - multiset{x};
    }
  }

  /** The aggregates of the live values. */
  ghost predicate Agrees(history: seq<Entry>) {
    var ledger, live := Kept(history), Live(history);
    LedgerCount(ledger) == |live| && LedgerSum(ledger) == SumOf(live) && (ledger == [] <==> live == multiset{})
  }

  lemma TakenOut(b: multiset<real>, v: real)
    ensures v in b ==> |b| == |b - multiset{v}| + 1 && SumOf(b) == v + SumOf(b - multiset{v})
    ensures v !in b ==> b - multiset{v} == b
  {
    if v in b {
      assert b == b - multiset{v} + multiset{v};
      SumTake(b, v);
    }
  }

  lemma PutIn(b: multiset<real>, v: real)
    ensures |b + multiset{v}| == |b| + 1 && SumOf(b + multiset{v}) == v + SumOf(b)
  {
    var more := b + multiset{v};
    assert v in more && more - multiset{v} == b;
    TakenOut(more, v);
  }

  /** What a contribution does to the count and sum kept, and that the kept contributions are none when they count to zero. */
  lemma OneTime(v: real, weight: int)
    requires weight == 1 || weight == -1
    ensures v * weight as real == if weight == 1 then v else -v
  {
  }

  lemma NotedAdds(ledger: seq<Entry>, v: real, weight: int)
    requires (weight == 1 || weight == -1) && (LedgerCount(ledger) + weight == 0 ==> LedgerSum(ledger) + v * weight as real == 0.0)
    ensures LedgerCount(Noted(ledger, v, weight)) == LedgerCount(ledger) + weight
    ensures LedgerSum(Noted(ledger, v, weight)) == LedgerSum(ledger) + (if weight == 1 then v else -v)
    ensures Noted(ledger, v, weight) == [] <==> LedgerCount(ledger) + weight == 0
  {
    OneTime(v, weight);
    LedgerSnoc(ledger, (v, weight));
  }

  lemma NotedCounts(ledger: seq<Entry>, v: real, weight: int)
    ensures LedgerCount(Noted(ledger, v, weight)) == LedgerCount(ledger) + weight
  {
    LedgerSnoc(ledger, (v, weight));
  }

  lemma AgreesAdded(history: seq<Entry>, v: real)
    requires Agrees(history)
    ensures Agrees(history + [(v, 1)])
  {
    var live := Live(history);
    KeptSnoc(history, v, 1);
    LiveSnoc(history, v, 1);
    PutIn(live, v);
    NoneLive(live + multiset{v});
    NotedAdds(Kept(history), v, 1);
  }

  lemma AgreesTaken(history: seq<Entry>, v: real)
    requires Agrees(history) && v in Live(history)
    ensures Agrees(history + [(v, -1)])
  {
    var live := Live(history);
    KeptSnoc(history, v, -1);
    LiveSnoc(history, v, -1);
    TakenOut(live, v);
    NoneLive(live - multiset{v});
    NotedAdds(Kept(history), v, -1);
  }

  lemma AbsentDisagrees(history: seq<Entry>, v: real)
    requires Agrees(history) && v !in Live(history)
    ensures LedgerCount(Kept(history + [(v, -1)])) != |Live(history + [(v, -1)])|
  {
    KeptSnoc(history, v, -1);
    LiveSnoc(history, v, -1);
    TakenOut(Live(history), v);
    NotedCounts(Kept(history), v, -1);
  }

  /** After one more contribution the stored count and sum are those of the live values exactly when it found its value. */
  lemma AgreesNext(history: seq<Entry>, v: real, weight: int)
    requires Agrees(history) && (weight == 1 || weight == -1)
    ensures Agrees(history + [(v, weight)]) <==> weight == 1 || v in Live(history)
    ensures LedgerCount(Kept(history + [(v, weight)])) == |Live(history + [(v, weight)])| <==> weight == 1 || v in Live(history)
  {
    if weight == 1 {
      AgreesAdded(history, v);
    } else if v in Live(history) {
      AgreesTaken(history, v);
    } else {
      AbsentDisagrees(history, v);
    }
  }

  lemma NoneLive(b: multiset<real>)
    ensures |b| == 0 <==> b == multiset{}
    ensures b == multiset{} ==> SumOf(b) == 0.0
  {
  }

  ghost predicate SameCounts(ledger: seq<Entry>, live: multiset<real>) {
    forall v :: live[v] == LedgerOf(ledger, v)
  }

  lemma CountsNext(ledger: seq<Entry>, live: multiset<real>, v: real, weight: int)
    requires SameCounts(ledger, live) && LedgerCount(ledger) == |live| && (weight == 1 || (weight == -1 && v in live))
    ensures SameCounts(Noted(ledger, v, weight), if weight > 0 then live + multiset{v} else live - multiset{v})
  {
    LedgerSnoc(ledger, (v, weight));
    TakenOut(live, v);
    NoneLive(live - multiset{v});
  }

  /** With every retraction found, the contributions since the window was last empty are the live values, one by one. */
  lemma {:induction false} KeptIsLive(history: seq<Entry>)
    requires Units(history) && FoundLive(history)
    ensures Agrees(history) && SameCounts(Kept(history), Live(history))
    decreases |history|
  {
    if history == [] {
      NoneLive(multiset{});
    } else {
      var front, e := history[..|history| - 1], history[|history| - 1];
      FoundFront(history);
      KeptIsLive(front);
      assert history == front + [e];
      AgreesNext(front, e.0, e.1);
      KeptSnoc(front, e.0, e.1);
      LiveSnoc(front, e.0, e.1);
      CountsNext(Kept(front), Live(front), e.0, e.1);
    }
  }

  /** The row of a window is the aggregate of the live values, and there is a row only while there are some. */
  ghost predicate RowIs(c: Schedule, accumulator: Option<Accumulator>, live: multiset<real>) {
    && (accumulator.None? <==> live == multiset{})
    && (accumulator.Some? ==>
          && accumulator.value.count == |live|
          && (c.aggregation.Sum? ==> accumulator.value.sum == SumOf(live))
          && (c.aggregation.Max? ==> accumulator.value.max.Some? && IsGreatest(Distinct(live), accumulator.value.max.value)))
  }

  /** For a maximum the row is always the aggregate of the live values, and a retraction is taken exactly when its value is live. */
  lemma MaximumOfLive(c: Schedule, accumulator: Option<Accumulator>, values: map<real, nat>, history: seq<Entry>, v: real)
    requires c.aggregation.Max? && SlotTrue(c, accumulator, values, history)
    ensures RowIs(c, accumulator, Live(history))
    ensures Takes(c, history, v, -1) <==> v in Live(history)
  {
    KeptIsLive(history);
    var live := Live(history);
    forall w ensures w in live <==> w in values {
      assert live[w] == LedgerOf(Kept(history), w) == ValueCount(values, w);
    }
    assert Distinct(live) == values.Keys;
    if v in live { TakenOut(live, v); }
    NothingLeft(values);
  }

  /** Once a row is right, one more accepted contribution keeps it right exactly when it found its value; a maximum takes no other. */
  lemma RowExactlyWhen(c: Schedule, accumulator: Option<Accumulator>, values: map<real, nat>, history: seq<Entry>, v: real, weight: int)
    requires Units(history) && FoundLive(history) && (weight == 1 || weight == -1)
    requires SlotTrue(c, accumulator, values, history + [(v, weight)])
    ensures RowIs(c, accumulator, Live(history + [(v, weight)])) <==> weight == 1 || v in Live(history)
    ensures c.aggregation.Max? ==> weight == 1 || v in Live(history)
  {
    var more := history + [(v, weight)];
    KeptIsLive(history);
    AgreesNext(history, v, weight);
    FoundSnoc(history, v, weight);
    if c.aggregation.Max? { MaximumOfLive(c, accumulator, values, more, v); }
  }

  /** What is stored for a window after each of its first `n` contributions. */
  ghost predicate Stored(c: Schedule, rows: seq<Option<Accumulator>>, values: seq<map<real, nat>>, history: seq<Entry>, i: nat) {
    i < |rows| && i < |values| && i <= |history| && SlotTrue(c, rows[i], values[i], history[..i])
  }

  /** The rows after the first `n` contributions and before are the aggregates of what was live. */
  ghost predicate RowsRight(c: Schedule, rows: seq<Option<Accumulator>>, history: seq<Entry>, n: nat)
    requires n < |rows| && n <= |history|
  {
    RowIs(c, rows[n], Live(history[..n])) && (n > 0 ==> RowsRight(c, rows, history, n - 1))
  }

  lemma FoundUpTo(history: seq<Entry>, last: nat, n: nat)
    requires n == last + 1 && n <= |history|
    ensures history[..n] == history[..last] + [history[last]]
    ensures FoundLive(history[..n]) <==> FoundLive(history[..last]) && (history[last].1 == 1 || history[last].0 in Live(history[..last]))
    ensures Units(history[..n]) ==> Units(history[..last]) && (history[last].1 == 1 || history[last].1 == -1)
  {
    var more := history[..n];
    assert more[..|more| - 1] == history[..last];
    FoundFront(more);
  }

  lemma FirstRow(c: Schedule, rows: seq<Option<Accumulator>>, values: seq<map<real, nat>>, history: seq<Entry>)
    requires Stored(c, rows, values, history, 0)
    ensures RowIs(c, rows[0], Live(history[..0])) && FoundLive(history[..0])
  {
    assert history[..0] == [];
  }

  lemma LastRow(c: Schedule, rows: seq<Option<Accumulator>>, values: seq<map<real, nat>>, history: seq<Entry>, last: nat, n: nat)
    requires Stored(c, rows, values, history, n) && n == last + 1 && FoundLive(history[..last])
    ensures RowIs(c, rows[n], Live(history[..n])) <==> FoundLive(history[..n])
  {
    FoundUpTo(history, last, n);
    RowExactlyWhen(c, rows[n], values[n], history[..last], history[last].0, history[last].1);
  }

  /** Every row a window ever shows is the aggregate of what is live then, exactly when every retraction found its value live. */
  lemma {:induction false} RowsExactlyWhen(c: Schedule, rows: seq<Option<Accumulator>>, values: seq<map<real, nat>>, history: seq<Entry>, n: nat)
    requires n < |rows| && n < |values| && n <= |history| && forall i: nat :: i <= n ==> Stored(c, rows, values, history, i)
    ensures RowsRight(c, rows, history, n) <==> FoundLive(history[..n])
    decreases n
  {
    if n == 0 {
      FirstRow(c, rows, values, history);
    } else {
      var last: nat := n - 1;
      RowsExactlyWhen(c, rows, values, history, last);
      FoundUpTo(history, last, n);
      if FoundLive(history[..last]) {
        LastRow(c, rows, values, history, last, n);
      }
    }
  }

  /** Every row of the operator is the aggregate of what its window holds live, if every retraction the window took found its value. */
  lemma RowsAreBatch(op: WindowOperator, s: Slot)
    requires op.Valid()
    ensures op.schedule.aggregation.Max? || FoundLive(HistoryOf(op.histories, s)) ==> RowIs(op.schedule, Held(op.accumulators, s), Live(HistoryOf(op.histories, s)))
  {
    var c, history := op.schedule, HistoryOf(op.histories, s);
    assert SlotHolds(s, c, op.accumulators, op.values, op.histories);
    if c.aggregation.Max? {
      MaximumOfLive(c, Held(op.accumulators, s), if s in op.values then op.values[s] else map[], history, 0.0);
    } else if FoundLive(history) {
      KeptIsLive(history);
    }
  }

  /** A count or a sum also takes the retraction of a value that is not live, unless the window is empty; its row is then wrong. */
  lemma AbsentValueRetracted(c: Schedule, history: seq<Entry>, v: real)
    requires !c.aggregation.Max? && Units(history) && FoundLive(history) && v !in Live(history)
    ensures Takes(c, history, v, -1) <==> Live(history) != multiset{}
    ensures !Agrees(history + [(v, -1)])
  {
    KeptIsLive(history);
    NoneLive(Live(history));
    AgreesNext(history, v, -1);
  }

  /** A window that was given two values takes the retraction of a third. */
  lemma AbsentValueTaken(c: Schedule) returns (history: seq<Entry>)
    requires !c.aggregation.Max?
    ensures Units(history) && FoundLive(history) && Live(history) == multiset{3.0, 5.0} && Takes(c, history, 7.0, -1)
  {
    history := [(5.0, 1), (3.0, 1)];
    var one: seq<Entry> := [(5.0, 1)];
    assert history[..1] == one && one[..0] == [];
    AbsentValueRetracted(c, history, 7.0);
  }

  /** While every retraction found its value, an addition is always taken, and a retraction exactly if its value is live, or, unless for a maximum, anything is. */
  lemma TakesExactlyWhen(c: Schedule, history: seq<Entry>, v: real)
    requires Units(history) && FoundLive(history)
    ensures Takes(c, history, v, 1)
    ensures Takes(c, history, v, -1) <==> if c.aggregation.Max? then v in Live(history) else Live(history) != multiset{}
  {
    KeptIsLive(history);
    NoneLive(Live(history));
    if v in Live(history) { TakenOut(Live(history), v); }
  }

  /** Windows as long as they are apart cover every time from the start on, each exactly once. */
  lemma TumblingCoversOnce(c: Schedule, t: real) returns (k: nat)
    requires GoodSchedule(c) && c.size == c.slide && t >= c.start
    ensures InWindow(c, k, t) && forall j: nat :: InWindow(c, j, t) ==> j == k
  {
    k := ((t - c.start) / c.slide).Floor;
    LastWindow(c, t);
    forall j: nat | InWindow(c, j, t) ensures j == k {
      if j < k { StartsRise(c, j, k); } else { StartsRise(c, k, j); }
    }
  }
}
