/** The interval join of two streams: pairs of one key within bounds, kept under additions, retractions and retention. */
module IntervalJoin {
  import opened Wrappers
  import opened ChangeLog
  import opened TemporalJoin

  datatype Side = Left | Right

  /** A record of one side; its number is its place in its stream. */
  datatype Input = Input(key: Name, time: real, value: Payload)

  type Slot = (Side, nat)
  type Arranged = map<Slot, Input>
  type Pair = (nat, nat)
  type PairChange = (Pair, int)

  datatype Bounds = Bounds(lower: real, upper: real)

  predicate Contains(b: Bounds, left: real, right: real) {
    left + b.lower <= right <= left + b.upper
  }

  function Other(side: Side): Side {
    if side == Left then Right else Left
  }

  function PairOf(side: Side, n: nat, m: nat): Pair {
    if side == Left then (n, m) else (m, n)
  }

  /** Two records of opposite sides belong together. */
  predicate Joins(b: Bounds, side: Side, x: Input, y: Input) {
    x.key == y.key && if side == Left then Contains(b, x.time, y.time) else Contains(b, y.time, x.time)
  }

  /** The pairs of a set of records, by definition. */
  predicate IsPair(b: Bounds, live: Arranged, p: Pair) {
    (Left, p.0) in live && (Right, p.1) in live && Joins(b, Left, live[(Left, p.0)], live[(Right, p.1)])
  }

  /** Past both frontiers a record cannot meet any later one. */
  predicate Closed(b: Bounds, side: Side, x: Input, left: Frontier, right: Frontier) {
    if side == Left then Reaches(right, x.time + b.upper) && Reaches(left, x.time)
    else Reaches(left, x.time - b.lower) && Reaches(right, x.time)
  }

  function Own(side: Side, left: Frontier, right: Frontier): Frontier {
    if side == Left then left else right
  }

  /** Whatever arrives later on the other side lies beyond its frontier, so it misses a closed record. */
  lemma ClosedMissesLater(b: Bounds, side: Side, x: Input, y: Input, left: Frontier, right: Frontier)
    requires Closed(b, side, x, left, right) && !Reaches(Own(Other(side), left, right), y.time)
    ensures !Joins(b, side, x, y)
  {
  }

  /** Both frontiers have passed what lets a new record meet one that retention may have dropped. */
  predicate MayMiss(b: Bounds, side: Side, x: Input, left: Frontier, right: Frontier) {
    && Reaches(Own(side, left, right), x.time)
    && Reaches(Own(Other(side), left, right), if side == Right then x.time - b.upper else x.time + b.lower)
  }

  /** A closed record that a new one joins: the frontiers have passed both. */
  lemma JoinedClosedMayMiss(b: Bounds, side: Side, x: Input, y: Input, left: Frontier, right: Frontier)
    requires Closed(b, Other(side), y, left, right) && Joins(b, Other(side), y, x)
    ensures MayMiss(b, side, x, left, right)
  {
  }

  /** The oldest record that joins a new one, which is closed when the frontiers have passed both. */
  function Oldest(b: Bounds, side: Side, x: Input): Input {
    x.(time := if side == Right then x.time - b.upper else x.time + b.lower)
  }

  lemma OldestIsClosed(b: Bounds, side: Side, x: Input, left: Frontier, right: Frontier)
    requires b.lower <= b.upper
    ensures Joins(b, side, x, Oldest(b, side, x))
    ensures MayMiss(b, side, x, left, right) ==> Closed(b, Other(side), Oldest(b, side, x), left, right)
  {
  }

  ghost predicate LogOk(changes: seq<PairChange>, outputs: map<Pair, (Input, Input)>) {
    forall p :: Net(changes, p) == if p in outputs then 1 else 0
  }

  ghost predicate OutputAt(p: Pair, b: Bounds, live: Arranged, outputs: map<Pair, (Input, Input)>) {
    && (p in outputs <==> IsPair(b, live, p))
    && (p in outputs ==> outputs[p] == (live[(Left, p.0)], live[(Right, p.1)]))
  }

  /** The outputs are exactly the pairs of these records. */
  ghost predicate Exact(b: Bounds, live: Arranged, outputs: map<Pair, (Input, Input)>) {
    forall p: Pair :: OutputAt(p, b, live, outputs)
  }

  ghost predicate SlotOk(x: Slot, b: Bounds, arranged: Arranged, live: Arranged, left: Frontier, right: Frontier) {
    && (x in arranged ==> x in live && live[x] == arranged[x])
    && (x in live && x !in arranged ==> Closed(b, x.0, live[x], left, right))
  }

  /** Exact outputs, told by the records: a pair is there exactly if both are, under one key, and the right one's time lies within the bounds of the left one's, ends included. */
  lemma ExactMeans(b: Bounds, live: Arranged, outputs: map<Pair, (Input, Input)>, l: nat, r: nat)
    requires Exact(b, live, outputs)
    ensures (l, r) in outputs <==>
              && (Left, l) in live && (Right, r) in live && live[(Left, l)].key == live[(Right, r)].key
              && live[(Left, l)].time + b.lower <= live[(Right, r)].time <= live[(Left, l)].time + b.upper
    ensures (l, r) in outputs ==> outputs[(l, r)] == (live[(Left, l)], live[(Right, r)])
  {
    assert OutputAt((l, r), b, live, outputs);
  }

  /** Retention keeps exactly what could still join something beyond the other side's frontier, or lies beyond its own. */
  lemma ClosedExactlyWhen(b: Bounds, side: Side, x: Input, left: Frontier, right: Frontier)
    requires b.lower <= b.upper && left.Until? && right.Until?
    ensures Closed(b, side, x, left, right) <==>
              && x.time <= Own(side, left, right).time
              && forall y: Input :: Joins(b, side, x, y) ==> y.time <= Own(Other(side), left, right).time
  {
    var latest := x.(time := if side == Left then x.time + b.upper else x.time - b.lower);
    assert Joins(b, side, x, latest);
  }

  lemma StillClosed(b: Bounds, side: Side, x: Input, left: Frontier, right: Frontier, left': Frontier, right': Frontier)
    requires Closed(b, side, x, left, right) && Advances(left, left') && Advances(right, right')
    ensures Closed(b, side, x, left', right')
  {
  }

  class IntervalJoinOperator {
    const bounds: Bounds
    var arranged: Arranged
    var outputs: map<Pair, (Input, Input)>
    var changes: seq<PairChange>
    var left: Frontier
    var right: Frontier
    ghost var live: Arranged

    /** The outputs are exactly the pairs of everything added and not retracted, and the change log adds up to them. */
    ghost predicate Valid()
      reads this
    {
      && Exact(bounds, live, outputs)
      && LogOk(changes, outputs)
      && (forall x: Slot :: SlotOk(x, bounds, arranged, live, left, right))
    }

    constructor (bounds: Bounds)
      ensures Valid() && this.bounds == bounds && live == map[] && arranged == map[] && outputs == map[]
      ensures left == Unknown && right == Unknown
    {
      this.bounds := bounds;
      arranged, outputs, changes, left, right := map[], map[], [], Unknown, Unknown;
      live := map[];
    }

    method EmitPair(p: Pair, l: Input, r: Input) returns (emitted: bool)
      requires LogOk(changes, outputs)
      modifies this`outputs, this`changes
      ensures LogOk(changes, outputs) && old(changes) <= changes
      ensures emitted <==> p !in old(outputs)
      ensures outputs == if emitted then old(outputs)[p := (l, r)] else old(outputs)
    {
      if p in outputs { return false; }
      outputs := outputs[p := (l, r)];
      forall q ensures Net(changes + [(p, 1)], q) == if q in outputs then 1 else 0 {
        NetSnoc(changes, (p, 1), q);
      }
      changes := changes + [(p, 1)];
      return true;
    }

    method DropPair(p: Pair)
      requires LogOk(changes, outputs) && p in outputs
      modifies this`outputs, this`changes
      ensures LogOk(changes, outputs) && old(changes) <= changes && outputs == old(outputs) - {p}
    {
      outputs := outputs - {p};
      forall q ensures Net(changes + [(p, -1)], q) == if q in outputs then 1 else 0 {
        NetSnoc(changes, (p, -1), q);
      }
      changes := changes + [(p, -1)];
    }

    /** Nothing added and not retracted has left the arrangement. */
    ghost predicate Whole()
      reads this
    {
      forall x :: x in live ==> x in arranged
    }

    /**
     A new record meets every arranged record of the other side, then is arranged itself. That is every record it should meet
     unless the frontiers have passed one that it joins, or when nothing was dropped yet.
     */
    method Add(side: Side, n: nat, x: Input)
      requires Valid() && (side, n) !in live
      modifies this`arranged, this`outputs, this`changes, this`live
      ensures live == old(live)[(side, n) := x] && arranged == old(arranged)[(side, n) := x] && old(changes) <= changes && LogOk(changes, outputs)
      ensures outputs == Met(old(outputs), old(arranged), bounds, side, n, x)
      ensures !MayMiss(bounds, side, x, left, right) || old(Whole()) ==> Valid()
    {
      MeetStrangers(bounds, live, outputs, side, n);
      MeetAll(side, n, x);
      if !MayMiss(bounds, side, x, left, right) || old(Whole()) {
        MetIsExact(bounds, arranged, live, old(outputs), left, right, side, n, x);
      }
      ghost var next, more := arranged[(side, n) := x], live[(side, n) := x];
      forall s: Slot ensures SlotOk(s, bounds, next, more, left, right) {
        assert SlotOk(s, bounds, arranged, live, left, right);
      }
      arranged := arranged[(side, n) := x];
      live := more;
    }

    method MeetAll(side: Side, n: nat, x: Input)
      requires LogOk(changes, outputs) && forall p :: p in outputs ==> Mine(side, p) != n
      modifies this`outputs, this`changes
      ensures LogOk(changes, outputs) && old(changes) <= changes && outputs == Met(old(outputs), arranged, bounds, side, n, x)
    {
      var todo := set s | s in arranged && s.0 == Other(side) && arranged[s].key == x.key;
      ghost var all := todo;
      while todo != {}
        invariant todo <= all && LogOk(changes, outputs) && old(changes) <= changes
        invariant forall p: Pair :: Meeting(p, old(outputs), outputs, arranged, bounds, side, n, x, todo)
        decreases |todo|
      {
        var s :| s in todo;
        var p := PairOf(side, n, s.1);
        var l, r := if side == Left then x else arranged[s], if side == Left then arranged[s] else x;
        ghost var before := outputs;
        assert Meeting(p, old(outputs), outputs, arranged, bounds, side, n, x, todo);
        if Contains(bounds, l.time, r.time) {
          var emitted := EmitPair(p, l, r);
        }
        MeetingNext(old(outputs), before, outputs, arranged, bounds, side, n, x, todo, s);
        todo := todo - {s};
      }
      MeetingDone(old(outputs), outputs, arranged, bounds, side, n, x);
    }

    /**
     A retraction finds one arranged record of the same key, time and value, and takes its pairs with it. It finds nothing
     only if no such record is arranged, and in time only if none is live.
     */
    method Remove(side: Side, key: Name, time: real, value: Payload) returns (found: Option<nat>)
      requires Valid()
      modifies this`arranged, this`outputs, this`changes, this`live
      ensures Valid() && old(changes) <= changes
      ensures found.Some? ==> (side, found.value) in old(live) && old(live)[(side, found.value)] == Input(key, time, value) && live == old(live) - {(side, found.value)}
      ensures found.None? ==> live == old(live) && forall n :: (side, n) in arranged ==> arranged[(side, n)] != Input(key, time, value)
      ensures found.None? && (!Reaches(Own(side, left, right), time) || Whole()) ==>
                forall n :: (side, n) in live ==> live[(side, n)] != Input(key, time, value)
    {
      found := FindArranged(side, Input(key, time, value));
      if found.None? {
        forall n | (side, n) in live && (!Reaches(Own(side, left, right), time) || Whole()) ensures live[(side, n)] != Input(key, time, value) {
          assert SlotOk((side, n), bounds, arranged, live, left, right);
        }
        return;
      }
      var n := found.value;
      assert SlotOk((side, n), bounds, arranged, live, left, right);
      DropPairs(side, n);
      ghost var fewer, rest := live - {(side, n)}, arranged - {(side, n)};
      forall p: Pair ensures OutputAt(p, bounds, fewer, outputs) {
        assert OutputAt(p, bounds, live, old(outputs));
      }
      forall s: Slot ensures SlotOk(s, bounds, rest, fewer, left, right) {
        assert SlotOk(s, bounds, arranged, live, left, right);
      }
      arranged := arranged - {(side, n)};
      live := fewer;
    }

    /** Retracts every pair of one record. */
    method DropPairs(side: Side, n: nat)
      requires LogOk(changes, outputs)
      modifies this`outputs, this`changes
      ensures LogOk(changes, outputs) && old(changes) <= changes
      ensures forall p :: p in outputs <==> p in old(outputs) && Mine(side, p) != n
      ensures forall p :: p in outputs ==> outputs[p] == old(outputs)[p]
    {
      var doomed := set p | p in outputs && Mine(side, p) == n;
      var todo := doomed;
      while todo != {}
        invariant todo <= doomed && LogOk(changes, outputs) && old(changes) <= changes
        invariant forall p :: p in outputs <==> p in old(outputs) && (p !in doomed || p in todo)
        invariant forall p :: p in outputs ==> outputs[p] == old(outputs)[p]
        decreases |todo|
      {
        var p :| p in todo;
        todo := todo - {p};
        DropPair(p);
      }
    }

    method FindArranged(side: Side, x: Input) returns (found: Option<nat>)
      ensures found.Some? ==> (side, found.value) in arranged && arranged[(side, found.value)] == x
      ensures found.None? ==> forall n :: (side, n) in arranged ==> arranged[(side, n)] != x
    {
      var todo := set s | s in arranged && s.0 == side && arranged[s].key == x.key;
      ghost var all := todo;
      found := None;
      while todo != {}
        invariant todo <= all && forall s :: s in all && s !in todo ==> arranged[s] != x
        decreases |todo|
      {
        var s :| s in todo;
        todo := todo - {s};
        if arranged[s].time == x.time && arranged[s].value == x.value { return Some(s.1); }
      }
    }

    /** Frontiers advance; what neither side can meet any more is dropped from the arrangement, but its pairs stay. */
    method Retain(left': Frontier, right': Frontier)
      requires Valid() && Advances(left, left') && Advances(right, right')
      modifies this`arranged, this`left, this`right
      ensures Valid() && left == left' && right == right'
      ensures arranged == Open(old(arranged), bounds, left', right')
    {
      ghost var before, l, r := arranged, left, right;
      left, right := left', right';
      if left != Unknown && right != Unknown {
        arranged := WithoutClosed(arranged, bounds, Left, left, right);
        arranged := WithoutClosed(arranged, bounds, Right, left, right);
      }
      TwoPasses(before, bounds, left, right);
      OpenSlots(bounds, before, live, l, r, left, right);
    }
  }

  /** One side's pass over the arrangement. */
  function WithoutClosed(arranged: Arranged, b: Bounds, side: Side, left: Frontier, right: Frontier): Arranged {
    map s | s in arranged && !(s.0 == side && Closed(b, side, arranged[s], left, right)) :: arranged[s]
  }

  lemma TwoPasses(arranged: Arranged, b: Bounds, left: Frontier, right: Frontier)
    ensures WithoutClosed(WithoutClosed(arranged, b, Left, left, right), b, Right, left, right) == Open(arranged, b, left, right)
    ensures left.Unknown? || right.Unknown? ==> Open(arranged, b, left, right) == arranged
  {
  }

  /** What can still meet a later record. */
  function Open(arranged: Arranged, b: Bounds, left: Frontier, right: Frontier): Arranged {
    map s | s in arranged && !Closed(b, s.0, arranged[s], left, right) :: arranged[s]
  }

  lemma OpenSlots(b: Bounds, arranged: Arranged, live: Arranged, left: Frontier, right: Frontier, left': Frontier, right': Frontier)
    requires (forall x: Slot :: SlotOk(x, b, arranged, live, left, right)) && Advances(left, left') && Advances(right, right')
    ensures var open := Open(arranged, b, left', right'); forall x: Slot :: SlotOk(x, b, open, live, left', right')
  {
    var open := Open(arranged, b, left', right');
    forall x: Slot ensures SlotOk(x, b, open, live, left', right') {
      assert SlotOk(x, b, arranged, live, left, right);
      if x in live && x !in arranged { StillClosed(b, x.0, live[x], left, right, left', right'); }
    }
  }

  function Mine(side: Side, p: Pair): nat {
    if side == Left then p.0 else p.1
  }

  function Theirs(side: Side, p: Pair): nat {
    if side == Left then p.1 else p.0
  }

  /** The pair of slot numbers as the two joined records. */
  function Both(side: Side, x: Input, y: Input): (Input, Input) {
    if side == Left then (x, y) else (y, x)
  }

  /** The new record's pairs with what is arranged. */
  function NewPairs(arranged: Arranged, b: Bounds, side: Side, n: nat, x: Input): map<Pair, (Input, Input)> {
    map s | s in arranged && s.0 == Other(side) && Joins(b, side, x, arranged[s]) :: PairOf(side, n, s.1) := Both(side, x, arranged[s])
  }

  function Met(outputs: map<Pair, (Input, Input)>, arranged: Arranged, b: Bounds, side: Side, n: nat, x: Input): map<Pair, (Input, Input)> {
    outputs + NewPairs(arranged, b, side, n, x)
  }

  lemma NewPairAt(arranged: Arranged, b: Bounds, side: Side, n: nat, x: Input, p: Pair)
    ensures var s := (Other(side), Theirs(side, p)); var f := NewPairs(arranged, b, side, n, x);
            && (p in f <==> Mine(side, p) == n && s in arranged && Joins(b, side, x, arranged[s]))
            && (p in f ==> f[p] == Both(side, x, arranged[s]))
  {
    var s: Slot := (Other(side), Theirs(side, p));
    var f := NewPairs(arranged, b, side, n, x);
    assert PairOf(side, n, Theirs(side, p)) == p <==> Mine(side, p) == n;
    if p in f {
      var q: Slot :| q in arranged && q.0 == Other(side) && Joins(b, side, x, arranged[q]) && PairOf(side, n, q.1) == p;
      assert q == s;
    }
    if Mine(side, p) == n && s in arranged && Joins(b, side, x, arranged[s]) {
      assert PairOf(side, n, s.1) == p;
      assert PairOf(side, n, s.1) in f;
    }
  }

  /** While a record is being added: its pairs with the candidates still to come are missing, and nothing else is. */
  ghost predicate Meeting(p: Pair, first: map<Pair, (Input, Input)>, outputs: map<Pair, (Input, Input)>, arranged: Arranged, b: Bounds, side: Side, n: nat, x: Input, todo: set<Slot>) {
    var s := (Other(side), Theirs(side, p));
    if Mine(side, p) == n && s in arranged && s !in todo && Joins(b, side, x, arranged[s]) then p in outputs && outputs[p] == Both(side, x, arranged[s])
    else (p in outputs <==> p in first && Mine(side, p) != n) && (p in outputs ==> outputs[p] == first[p])
  }

  lemma MeetStrangers(b: Bounds, live: Arranged, outputs: map<Pair, (Input, Input)>, side: Side, n: nat)
    requires Exact(b, live, outputs) && (side, n) !in live
    ensures forall p :: p in outputs ==> Mine(side, p) != n
  {
    forall p | p in outputs ensures Mine(side, p) != n {
      assert OutputAt(p, b, live, outputs);
    }
  }

  lemma MeetingNext(first: map<Pair, (Input, Input)>, before: map<Pair, (Input, Input)>, after: map<Pair, (Input, Input)>, arranged: Arranged, b: Bounds, side: Side, n: nat, x: Input, todo: set<Slot>, s: Slot)
    requires forall p: Pair :: Meeting(p, first, before, arranged, b, side, n, x, todo)
    requires s in todo && s in arranged && s.0 == Other(side) && arranged[s].key == x.key
    requires var joined := Both(side, x, arranged[s]);
             after == if Contains(b, joined.0.time, joined.1.time) then before[PairOf(side, n, s.1) := joined] else before
    ensures var rest := todo - {s}; forall p: Pair :: Meeting(p, first, after, arranged, b, side, n, x, rest)
  {
    var rest := todo - {s};
    forall p: Pair ensures Meeting(p, first, after, arranged, b, side, n, x, rest) {
      assert Meeting(p, first, before, arranged, b, side, n, x, todo);
      assert p == PairOf(side, n, s.1) <==> Mine(side, p) == n && Theirs(side, p) == s.1;
    }
  }

  lemma MeetingDone(first: map<Pair, (Input, Input)>, outputs: map<Pair, (Input, Input)>, arranged: Arranged, b: Bounds, side: Side, n: nat, x: Input)
    requires forall p: Pair :: Meeting(p, first, outputs, arranged, b, side, n, x, {})
    requires forall p :: p in first ==> Mine(side, p) != n
    ensures outputs == Met(first, arranged, b, side, n, x)
  {
    var met := Met(first, arranged, b, side, n, x);
    forall p: Pair ensures (p in outputs <==> p in met) && (p in outputs ==> outputs[p] == met[p]) {
      assert Meeting(p, first, outputs, arranged, b, side, n, x, {});
      NewPairAt(arranged, b, side, n, x, p);
    }
  }

  /** A record that meets everything arranged misses exactly the pairs with live records that were dropped. */
  ghost predicate MissesNothing(b: Bounds, arranged: Arranged, live: Arranged, side: Side, x: Input) {
    forall s: Slot :: s in live && s !in arranged && s.0 == Other(side) ==> !Joins(b, side, x, live[s])
  }

  /** After any addition, in time or late, the outputs are the pairs of the live records if and only if none of those was dropped that it joins. */
  lemma AddedExactlyWhen(b: Bounds, arranged: Arranged, live: Arranged, outputs: map<Pair, (Input, Input)>, side: Side, n: nat, x: Input)
    requires Exact(b, live, outputs) && (side, n) !in live
    requires forall s :: s in arranged ==> s in live && live[s] == arranged[s]
    ensures Exact(b, live[(side, n) := x], Met(outputs, arranged, b, side, n, x)) <==> MissesNothing(b, arranged, live, side, x)
  {
    var more, met := live[(side, n) := x], Met(outputs, arranged, b, side, n, x);
    forall p: Pair ensures OutputAt(p, b, more, met) <==> Mine(side, p) != n || (var s := (Other(side), Theirs(side, p)); s in live && s !in arranged ==> !Joins(b, side, x, live[s])) {
      assert OutputAt(p, b, live, outputs);
      NewPairAt(arranged, b, side, n, x, p);
    }
    if Exact(b, more, met) {
      forall s: Slot | s in live && s !in arranged && s.0 == Other(side) ensures !Joins(b, side, x, live[s]) {
        assert OutputAt(PairOf(side, n, s.1), b, more, met);
      }
    }
  }

  lemma MetIsExact(b: Bounds, arranged: Arranged, live: Arranged, outputs: map<Pair, (Input, Input)>, left: Frontier, right: Frontier, side: Side, n: nat, x: Input)
    requires Exact(b, live, outputs) && (forall s: Slot :: SlotOk(s, b, arranged, live, left, right)) && (side, n) !in live
    requires !MayMiss(b, side, x, left, right) || forall s :: s in live ==> s in arranged
    ensures Exact(b, live[(side, n) := x], Met(outputs, arranged, b, side, n, x))
  {
    forall s: Slot | s in live && s !in arranged && s.0 == Other(side) ensures !Joins(b, side, x, live[s]) {
      assert SlotOk(s, b, arranged, live, left, right);
      if Joins(b, s.0, live[s], x) { JoinedClosedMayMiss(b, side, x, live[s], left, right); }
    }
    forall s | s in arranged ensures s in live && live[s] == arranged[s] {
      assert SlotOk(s, b, arranged, live, left, right);
    }
    AddedExactlyWhen(b, arranged, live, outputs, side, n, x);
  }

  /** Whatever was arranged, live and put out before, adding the record leaves the outputs exact. */
  ghost predicate StaysExact(b: Bounds, arranged: Arranged, live: Arranged, outputs: map<Pair, (Input, Input)>, left: Frontier, right: Frontier, side: Side, n: nat, x: Input) {
    Exact(b, live, outputs) && (forall s: Slot :: SlotOk(s, b, arranged, live, left, right)) && (side, n) !in live ==>
      Exact(b, live[(side, n) := x], Met(outputs, arranged, b, side, n, x))
  }

  /** Dropped after it was closed, the oldest partner is missed. */
  lemma DroppedPartnerIsMissed(b: Bounds, side: Side, x: Input, left: Frontier, right: Frontier)
    requires b.lower <= b.upper && MayMiss(b, side, x, left, right)
    ensures !StaysExact(b, map[], map[(Other(side), 0) := Oldest(b, side, x)], map[], left, right, side, 0, x)
  {
    var z := Oldest(b, side, x);
    var live: Arranged := map[(Other(side), 0) := z];
    OldestIsClosed(b, side, x, left, right);
    assert (Other(side), 0) in live && Joins(b, side, x, live[(Other(side), 0)]);
    assert !MissesNothing(b, map[], live, side, x);
    AddedExactlyWhen(b, map[], live, map[], side, 0, x);
  }

  /**
   Told from the frontiers alone: every state they allow keeps exact outputs when the record is added, if and only if they
   have not both passed what lets it meet a dropped record.
   */
  lemma AddedSafelyExactlyWhen(b: Bounds, side: Side, x: Input, left: Frontier, right: Frontier)
    requires b.lower <= b.upper
    ensures (forall arranged, live, outputs, n :: StaysExact(b, arranged, live, outputs, left, right, side, n, x)) <==> !MayMiss(b, side, x, left, right)
  {
    if MayMiss(b, side, x, left, right) {
      DroppedPartnerIsMissed(b, side, x, left, right);
    } else {
      forall arranged, live, outputs, n ensures StaysExact(b, arranged, live, outputs, left, right, side, n, x) {
        if Exact(b, live, outputs) && (forall s: Slot :: SlotOk(s, b, arranged, live, left, right)) && (side, n) !in live {
          MetIsExact(b, arranged, live, outputs, left, right, side, n, x);
        }
      }
    }
  }

  /** A retraction that finds nothing arranged is right about a live record exactly when that record has no pair. */
  lemma MissedRetractionExactlyWhen(b: Bounds, live: Arranged, outputs: map<Pair, (Input, Input)>, side: Side, n: nat)
    requires Exact(b, live, outputs) && (side, n) in live
    ensures Exact(b, live - {(side, n)}, outputs) <==> forall p: Pair :: IsPair(b, live, p) ==> Mine(side, p) != n
  {
    var fewer := live - {(side, n)};
    forall p: Pair ensures OutputAt(p, b, fewer, outputs) <==> (IsPair(b, live, p) ==> Mine(side, p) != n) {
      assert OutputAt(p, b, live, outputs);
    }
  }

  lemma NothingMet(b: Bounds, side: Side, n: nat, x: Input)
    ensures Met(map[], map[], b, side, n, x) == map[]
  {
  }

  lemma NothingOpen(b: Bounds, side: Side, n: nat, x: Input, left: Frontier, right: Frontier)
    requires Closed(b, side, x, left, right)
    ensures Open(map[(side, n) := x], b, left, right) == map[]
  {
  }

  /** Whenever the frontiers have passed both, a record was added, dropped by retention and then missed by a late one. */
  method LateRecordMissesItsPair(b: Bounds, side: Side, x: Input, left: Frontier, right: Frontier) returns (join: IntervalJoinOperator)
    requires b.lower <= b.upper && MayMiss(b, side, x, left, right)
    ensures fresh(join) && join.bounds == b && join.left == left && join.right == right
    ensures join.live == map[(Other(side), 0) := Oldest(b, side, x), (side, 0) := x]
    ensures join.outputs == map[] && !Exact(b, join.live, join.outputs)
  {
    join := new IntervalJoinOperator(b);
    var z := Oldest(b, side, x);
    OldestIsClosed(b, side, x, left, right);
    join.Add(Other(side), 0, z);
    NothingMet(b, Other(side), 0, z);
    join.Retain(left, right);
    NothingOpen(b, Other(side), 0, z, left, right);
    DroppedPartnerIsMissed(b, side, x, left, right);
    NothingMet(b, side, 0, x);
    join.Add(side, 0, x);
  }
}
