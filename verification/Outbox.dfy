/** From the messages processes emit to what sinks receive: promotion, leased delivery and acknowledgement. */
module Outbox {
  import opened Wrappers
  import Keys

  type Id = string
  type Payload = string
  type Name = string

  /** A message in the outbox. */
  datatype Entry = Entry(payload: Payload, owner: Option<Name>, expires: Option<real>, attempts: nat, acked: Option<real>)

  datatype Marker = Marker(id: Id, payload: Payload)

  datatype Delivery = Delivery(id: Id, consumer: Name, at: real, until: real)

  datatype Fault = Collision | Missing | NotHolder

  type Box = map<Id, Entry>

  function Fetch(box: Box, id: Id): Option<Entry> {
    if id in box then Some(box[id]) else None
  }

  function NewEntry(payload: Payload): Entry {
    Entry(payload, None, None, 0, None)
  }

  /** Inserts every marker that is not there yet; the same message again changes nothing. */
  function Promoted(box: Box, markers: seq<Marker>): Result<Box, Fault> {
    if markers == [] then Ok(box)
    else
      match Promoted(box, markers[..|markers| - 1])
      case Err(e) => Err(e)
      case Ok(b) =>
        var m := markers[|markers| - 1];
        if m.id in b then if b[m.id].payload == m.payload then Ok(b) else Err(Collision)
        else Ok(b[m.id := NewEntry(m.payload)])
  }

  predicate Available(e: Entry, now: real) {
    e.acked.None? && (e.expires.None? || e.expires.value <= now)
  }

  function Leased(e: Entry, consumer: Name, now: real, seconds: real): Entry {
    e.(owner := Some(consumer), expires := Some(now + seconds), attempts := e.attempts + 1)
  }

  function Acknowledged(e: Entry, consumer: Name, now: real): Result<Entry, Fault> {
    if e.acked.Some? then Ok(e)
    else if e.owner != Some(consumer) || e.expires.None? || e.expires.value <= now then Err(NotHolder)
    else Ok(e.(acked := Some(now), owner := None, expires := None))
  }

  // ---------------------------------------------------------------------------
  // The outbox as its transactions change it

  class OutboxStore {
    var box: Box

    constructor ()
      ensures box == map[]
    {
      box := map[];
    }

    /** Committed whole or not at all. */
    method Promote(markers: seq<Marker>) returns (r: Result<(), Fault>)
      modifies this
      ensures Promoted(old(box), markers).Ok? ==> r == Ok(()) && box == Promoted(old(box), markers).value
      ensures Promoted(old(box), markers).Err? ==> r == Err(Promoted(old(box), markers).error) && box == old(box)
    {
      var work := box;
      for i := 0 to |markers|
        invariant box == old(box) && Promoted(box, markers[..i]) == Ok(work)
      {
        var m := markers[i];
        assert markers[..i + 1][..i] == markers[..i] && markers[..i + 1][i] == m;
        if m.id in work {
          if work[m.id].payload != m.payload {
            CollisionStays(box, markers, i + 1);
            return Err(Collision);
          }
        } else {
          work := work[m.id := NewEntry(m.payload)];
        }
      }
      assert markers[..|markers|] == markers;
      box := work;
      return Ok(());
    }

    /** Looks for the first available message of the sink, in key order. */
    method FindAvailable(now: real) returns (found: Option<Id>)
      ensures found.None? ==> forall id :: id in box ==> !Available(box[id], now)
      ensures found.Some? ==> found.value in box && Available(box[found.value], now)
      ensures found.Some? ==> forall id :: id in box && Keys.Less(id, found.value) ==> !Available(box[id], now)
    {
      var ids := Keys.Sorted(box.Keys);
      Keys.SortedAscends(box.Keys);
      for i := 0 to |ids|
        invariant forall j :: 0 <= j < i ==> !Available(box[ids[j]], now)
      {
        if Available(box[ids[i]], now) {
          forall id | id in box && Keys.Less(id, ids[i]) ensures !Available(box[id], now) {
            assert id in ids;
            var j :| 0 <= j < |ids| && ids[j] == id;
            if j >= i {
              if j > i { Keys.LessAsymmetric(ids[i], ids[j]); } else { Keys.LessIrreflexive(ids[i]); }
            }
          }
          return Some(ids[i]);
        }
      }
      forall id | id in box ensures !Available(box[id], now) {
        assert id in ids;
      }
      return None;
    }

    /** Leases the candidate if it is still available when the transaction runs. */
    method Lease(id: Id, consumer: Name, now: real, seconds: real) returns (delivered: Option<Entry>)
      modifies this
      ensures delivered.Some? <==> id in old(box) && Available(old(box)[id], now)
      ensures delivered.Some? ==> delivered.value == Leased(old(box)[id], consumer, now, seconds) && box == old(box)[id := delivered.value]
      ensures delivered.None? ==> box == old(box)
    {
      if id !in box { return None; }
      var candidate := box[id];
      if candidate.acked.None? && (candidate.expires.None? || candidate.expires.value <= now) {
        candidate := candidate.(owner := Some(consumer), expires := Some(now + seconds), attempts := candidate.attempts + 1);
        box := box[id := candidate];
        return Some(candidate);
      }
      return None;
    }

    method Acknowledge(id: Id, consumer: Name, now: real) returns (r: Result<Entry, Fault>)
      modifies this
      ensures id !in old(box) ==> r == Err(Missing) && box == old(box)
      ensures id in old(box) ==> r == Acknowledged(old(box)[id], consumer, now)
      ensures id in old(box) ==> box == if r.Ok? then old(box)[id := r.value] else old(box)
    {
      if id !in box { return Err(Missing); }
      var message := box[id];
      if message.acked.None? {
        if message.owner != Some(consumer) || message.expires.None? || message.expires.value <= now { return Err(NotHolder); }
        message := message.(acked := Some(now), owner := None, expires := None);
        box := box[id := message];
      }
      assert old(box)[id].acked.Some? ==> box == old(box)[id := message];
      return Ok(message);
    }
  }

  lemma {:induction false} CollisionStays(box: Box, markers: seq<Marker>, i: nat)
    requires i <= |markers| && Promoted(box, markers[..i]) == Err(Collision)
    ensures Promoted(box, markers) == Err(Collision)
    decreases |markers|
  {
    if i == |markers| {
      assert markers[..i] == markers;
    } else {
      var front := markers[..|markers| - 1];
      assert front[..i] == markers[..i];
      CollisionStays(box, front, i);
    }
  }

  // ---------------------------------------------------------------------------
  // Every run

  /** The markers of all shards are immutable and only grow; deliveries are recorded, no transaction reads them. */
  datatype State = State(pending: map<Id, Payload>, box: Box, deliveries: seq<Delivery>, clock: real)

  const START := State(map[], map[], [], 0.0)

  datatype Step =
    | Emit(id: Id, payload: Payload)
    | Promote(ids: seq<Id>)
    | Poll(id: Id, consumer: Name, now: real, seconds: real)
    | Ack(id: Id, consumer: Name, now: real)

  function MarkersOf(pending: map<Id, Payload>, ids: seq<Id>): seq<Marker>
    requires forall i :: 0 <= i < |ids| ==> ids[i] in pending
  {
    seq(|ids|, i requires 0 <= i < |ids| => Marker(ids[i], pending[ids[i]]))
  }

  /** A process emits each message once; a promotion reads some of the markers; time does not go back. */
  predicate Enabled(s: State, step: Step) {
    match step
    case Emit(id, _) => id !in s.pending
    case Promote(ids) => forall i :: 0 <= i < |ids| ==> ids[i] in s.pending
    case Poll(_, _, now, seconds) => now >= s.clock && seconds > 0.0
    case Ack(_, _, now) => now >= s.clock
  }

  function Apply(s: State, step: Step): State
    requires Enabled(s, step)
  {
    match step
    case Emit(id, payload) => s.(pending := s.pending[id := payload])
    case Promote(ids) =>
      (match Promoted(s.box, MarkersOf(s.pending, ids))
       case Ok(box) => s.(box := box)
       case Err(_) => s)
    case Poll(id, consumer, now, seconds) =>
      if id in s.box && Available(s.box[id], now) then
        s.(box := s.box[id := Leased(s.box[id], consumer, now, seconds)],
           deliveries := s.deliveries + [Delivery(id, consumer, now, now + seconds)],
           clock := now)
      else s.(clock := now)
    case Ack(id, consumer, now) =>
      if id in s.box && Acknowledged(s.box[id], consumer, now).Ok? then
        s.(box := s.box[id := Acknowledged(s.box[id], consumer, now).value], clock := now)
      else s.(clock := now)
  }

  ghost predicate EntryTrue(id: Id, pending: map<Id, Payload>, box: Box) {
    id in box ==> id in pending && box[id].payload == pending[id]
  }

  function CountOf(deliveries: seq<Delivery>, id: Id): nat {
    if deliveries == [] then 0
    else CountOf(deliveries[..|deliveries| - 1], id) + if deliveries[|deliveries| - 1].id == id then 1 else 0
  }

  function LastOf(deliveries: seq<Delivery>, id: Id): Option<Delivery> {
    if deliveries == [] then None
    else if deliveries[|deliveries| - 1].id == id then Some(deliveries[|deliveries| - 1])
    else LastOf(deliveries[..|deliveries| - 1], id)
  }

  /** An unacknowledged message is leased to its latest receiver; an acknowledged one to nobody. */
  ghost predicate LeaseTrue(id: Id, box: Box, deliveries: seq<Delivery>) {
    && CountOf(deliveries, id) == (if id in box then box[id].attempts else 0)
    && (id in box && box[id].acked.Some? ==> box[id].owner.None? && box[id].expires.None?)
    && (id in box && box[id].acked.None? ==>
          match LastOf(deliveries, id)
          case None => box[id].owner.None? && box[id].expires.None?
          case Some(d) => box[id].owner == Some(d.consumer) && box[id].expires == Some(d.until))
  }

  /** Two deliveries of one message never overlap. */
  ghost predicate Exclusive(i: nat, j: nat, deliveries: seq<Delivery>) {
    i < j < |deliveries| && deliveries[i].id == deliveries[j].id ==> deliveries[i].until <= deliveries[j].at
  }

  ghost predicate Positive(i: nat, deliveries: seq<Delivery>) {
    i < |deliveries| ==> deliveries[i].at < deliveries[i].until
  }

  ghost predicate Inv(s: State) {
    && (forall id :: EntryTrue(id, s.pending, s.box))
    && (forall id :: LeaseTrue(id, s.box, s.deliveries))
    && (forall i: nat, j: nat :: Exclusive(i, j, s.deliveries))
    && (forall i: nat :: Positive(i, s.deliveries))
  }

  /** A promotion keeps what is there and adds a new entry for each marker it read. */
  ghost predicate Merged(id: Id, box: Box, ids: seq<Id>, pending: map<Id, Payload>, after: Box) {
    Fetch(after, id) == if id in box then Some(box[id]) else if id in ids && id in pending then Some(NewEntry(pending[id])) else None
  }

  lemma {:induction false} PromotedKeeps(pending: map<Id, Payload>, box: Box, ids: seq<Id>)
    requires (forall id :: EntryTrue(id, pending, box)) && forall i :: 0 <= i < |ids| ==> ids[i] in pending
    ensures var r := Promoted(box, MarkersOf(pending, ids));
            && r.Ok? && (forall id :: EntryTrue(id, pending, r.value))
            && (forall id :: Merged(id, box, ids, pending, r.value))
    decreases |ids|
  {
    if ids != [] {
      var front, last := ids[..|ids| - 1], ids[|ids| - 1];
      PromotedKeeps(pending, box, front);
      assert MarkersOf(pending, ids)[..|ids| - 1] == MarkersOf(pending, front);
      assert ids == front + [last];
      var b := Promoted(box, MarkersOf(pending, front)).value;
      assert EntryTrue(last, pending, b);
      var r := Promoted(box, MarkersOf(pending, ids)).value;
      forall id ensures EntryTrue(id, pending, r) {
        assert EntryTrue(id, pending, b);
      }
      forall id ensures Merged(id, box, ids, pending, r) {
        assert Merged(id, box, front, pending, b) && Merged(last, box, front, pending, b);
      }
    }
  }

  lemma {:induction false} LastOfIs(deliveries: seq<Delivery>, id: Id) returns (k: nat)
    ensures LastOf(deliveries, id).Some? ==> k < |deliveries| && deliveries[k] == LastOf(deliveries, id).value && deliveries[k].id == id
    ensures LastOf(deliveries, id).None? ==> k == 0
    ensures forall i :: (if LastOf(deliveries, id).Some? then k < i else 0 <= i) && i < |deliveries| ==> deliveries[i].id != id
    decreases |deliveries|
  {
    if deliveries == [] {
      k := 0;
    } else if deliveries[|deliveries| - 1].id == id {
      k := |deliveries| - 1;
    } else {
      k := LastOfIs(deliveries[..|deliveries| - 1], id);
    }
  }

  lemma AppendCounts(deliveries: seq<Delivery>, d: Delivery, id: Id)
    ensures CountOf(deliveries + [d], id) == CountOf(deliveries, id) + (if d.id == id then 1 else 0)
    ensures LastOf(deliveries + [d], id) == if d.id == id then Some(d) else LastOf(deliveries, id)
  {
    assert (deliveries + [d])[..|deliveries|] == deliveries;
  }

  /** Every earlier delivery of an available message has run out. */
  lemma AllRunOut(s: State, id: Id, now: real, i: nat)
    requires Inv(s) && id in s.box && Available(s.box[id], now) && i < |s.deliveries| && s.deliveries[i].id == id
    ensures s.deliveries[i].until <= now
  {
    var k := LastOfIs(s.deliveries, id);
    assert LeaseTrue(id, s.box, s.deliveries);
    assert Exclusive(i, k, s.deliveries) && Positive(k, s.deliveries);
  }

  lemma PollKeeps(s: State, id: Id, consumer: Name, now: real, seconds: real)
    requires Inv(s) && Enabled(s, Poll(id, consumer, now, seconds)) && id in s.box && Available(s.box[id], now)
    ensures Inv(Apply(s, Poll(id, consumer, now, seconds)))
  {
    var d := Delivery(id, consumer, now, now + seconds);
    var box, deliveries := s.box[id := Leased(s.box[id], consumer, now, seconds)], s.deliveries + [d];
    forall other ensures EntryTrue(other, s.pending, box) && LeaseTrue(other, box, deliveries) {
      assert EntryTrue(other, s.pending, s.box) && LeaseTrue(other, s.box, s.deliveries);
      AppendCounts(s.deliveries, d, other);
    }
    forall i: nat, j: nat ensures Exclusive(i, j, deliveries) {
      assert Exclusive(i, j, s.deliveries);
      if i < |s.deliveries| && s.deliveries[i].id == id { AllRunOut(s, id, now, i); }
    }
    forall i: nat ensures Positive(i, deliveries) {
      assert Positive(i, s.deliveries);
    }
  }

  lemma AckKeeps(s: State, id: Id, consumer: Name, now: real)
    requires Inv(s) && id in s.box && Acknowledged(s.box[id], consumer, now).Ok?
    ensures Inv(s.(box := s.box[id := Acknowledged(s.box[id], consumer, now).value], clock := now))
  {
    var box := s.box[id := Acknowledged(s.box[id], consumer, now).value];
    forall other ensures EntryTrue(other, s.pending, box) && LeaseTrue(other, box, s.deliveries) {
      assert EntryTrue(other, s.pending, s.box) && LeaseTrue(other, s.box, s.deliveries);
    }
  }

  lemma PromoteKeeps(s: State, ids: seq<Id>)
    requires Inv(s) && Enabled(s, Promote(ids))
    ensures Promoted(s.box, MarkersOf(s.pending, ids)).Ok? && Inv(Apply(s, Promote(ids)))
  {
    PromotedKeeps(s.pending, s.box, ids);
    var box := Promoted(s.box, MarkersOf(s.pending, ids)).value;
    forall id ensures LeaseTrue(id, box, s.deliveries) {
      assert LeaseTrue(id, s.box, s.deliveries);
      assert Merged(id, s.box, ids, s.pending, box);
      var k := LastOfIs(s.deliveries, id);
      NoneWhenUncounted(s.deliveries, id);
    }
  }

  lemma {:induction false} NoneWhenUncounted(deliveries: seq<Delivery>, id: Id)
    ensures CountOf(deliveries, id) == 0 <==> LastOf(deliveries, id).None?
    decreases |deliveries|
  {
    if deliveries != [] { NoneWhenUncounted(deliveries[..|deliveries| - 1], id); }
  }

  lemma StepKeeps(s: State, step: Step)
    requires Inv(s) && Enabled(s, step)
    ensures Inv(Apply(s, step))
  {
    match step
    case Emit(id, payload) =>
      var pending := s.pending[id := payload];
      forall other ensures EntryTrue(other, pending, s.box) {
        assert EntryTrue(other, s.pending, s.box);
      }
    case Promote(ids) => PromoteKeeps(s, ids);
    case Poll(id, consumer, now, seconds) =>
      if id in s.box && Available(s.box[id], now) { PollKeeps(s, id, consumer, now, seconds); }
    case Ack(id, consumer, now) =>
      if id in s.box && Acknowledged(s.box[id], consumer, now).Ok? { AckKeeps(s, id, consumer, now); }
  }

  predicate Runs(s: State, steps: seq<Step>)
    decreases |steps|
  {
    steps != [] ==> Enabled(s, steps[0]) && Runs(Apply(s, steps[0]), steps[1..])
  }

  function Run(s: State, steps: seq<Step>): State
    requires Runs(s, steps)
    decreases |steps|
  {
    if steps == [] then s else Run(Apply(s, steps[0]), steps[1..])
  }

  lemma {:induction false} RunKeeps(s: State, steps: seq<Step>)
    requires Inv(s) && Runs(s, steps)
    ensures Inv(Run(s, steps))
    decreases |steps|
  {
    if steps != [] {
      StepKeeps(s, steps[0]);
      RunKeeps(Apply(s, steps[0]), steps[1..]);
    }
  }

  lemma StartHolds()
    ensures Inv(START)
  {
  }

  /** However often promotion repeats, a sink sees each emitted message once, with the emitted payload, and nothing else. */
  lemma OneEntryPerMessage(s: State, ids: seq<Id>, again: seq<Id>)
    requires Inv(s) && Enabled(s, Promote(ids)) && Enabled(s, Promote(again))
    requires forall id :: id in s.pending ==> id in ids
    ensures var t := Apply(s, Promote(ids));
            && t.box.Keys == s.pending.Keys && (forall id :: id in t.box ==> t.box[id].payload == s.pending[id])
            && Apply(t, Promote(again)).box == t.box
  {
    PromotedKeeps(s.pending, s.box, ids);
    var t := Apply(s, Promote(ids));
    PromotedKeeps(s.pending, t.box, again);
    var u := Apply(t, Promote(again));
    forall id ensures (id in t.box <==> id in s.pending) && (id in t.box ==> t.box[id].payload == s.pending[id]) && Fetch(u.box, id) == Fetch(t.box, id) {
      assert EntryTrue(id, s.pending, s.box) && EntryTrue(id, s.pending, t.box);
      assert Merged(id, s.box, ids, s.pending, t.box) && Merged(id, t.box, again, s.pending, u.box);
    }
    SameBox(t.box, u.box);
  }

  lemma SameBox(a: Box, b: Box)
    requires forall id :: Fetch(a, id) == Fetch(b, id)
    ensures a == b
  {
    assert forall id :: id in a ==> Fetch(a, id) == Fetch(b, id);
    assert forall id :: id in b ==> Fetch(a, id) == Fetch(b, id);
  }

  ghost predicate AckedAs(s: State, id: Id, e: Entry, deliveries: nat) {
    id in s.box && s.box[id] == e && e.acked.Some? && CountOf(s.deliveries, id) == deliveries
  }

  lemma AckedStays(s: State, step: Step, id: Id, e: Entry, deliveries: nat)
    requires Inv(s) && Enabled(s, step) && AckedAs(s, id, e, deliveries)
    ensures AckedAs(Apply(s, step), id, e, deliveries)
  {
    if step.Promote? {
      PromotedKeeps(s.pending, s.box, step.ids);
      assert Merged(id, s.box, step.ids, s.pending, Apply(s, step).box);
    } else if step.Poll? {
      AppendCounts(s.deliveries, Delivery(step.id, step.consumer, step.now, step.now + step.seconds), id);
    }
  }

  /** An acknowledged message stays acknowledged and is never delivered again. */
  lemma {:induction false} NeverAfterAck(s: State, steps: seq<Step>, id: Id, e: Entry, deliveries: nat)
    requires Inv(s) && Runs(s, steps) && AckedAs(s, id, e, deliveries)
    ensures AckedAs(Run(s, steps), id, e, deliveries)
    decreases |steps|
  {
    if steps != [] {
      StepKeeps(s, steps[0]);
      AckedStays(s, steps[0], id, e, deliveries);
      NeverAfterAck(Apply(s, steps[0]), steps[1..], id, e, deliveries);
    }
  }

  /** Only the latest receiver, while its lease lasts, can acknowledge; and no two deliveries of a message overlap. */
  lemma AckedByItsReceiver(s: State, id: Id, consumer: Name, now: real)
    requires Inv(s) && id in s.box && s.box[id].acked.None?
    ensures Acknowledged(s.box[id], consumer, now).Ok? <==>
            LastOf(s.deliveries, id).Some? && LastOf(s.deliveries, id).value.consumer == consumer && now < LastOf(s.deliveries, id).value.until
    ensures forall i: nat, j: nat :: Exclusive(i, j, s.deliveries)
  {
    assert LeaseTrue(id, s.box, s.deliveries);
  }

  /** An accepted acknowledgement stamps the time and releases the message; repeated, it answers the same. */
  lemma AckStamps(e: Entry, consumer: Name, now: real, again: Name, later: real)
    requires Acknowledged(e, consumer, now).Ok?
    ensures var acked := Acknowledged(e, consumer, now).value;
            && acked == (if e.acked.Some? then e else Entry(e.payload, None, None, e.attempts, Some(now)))
            && Acknowledged(acked, again, later) == Ok(acked)
  {
  }

  /**
   A poll delivers a message exactly if it was promoted and not acknowledged, and every earlier delivery of it has run out:
   so it is delivered again as soon as its lease ends, to whoever asks, and never before.
   */
  lemma DeliversExactlyWhen(s: State, id: Id, consumer: Name, now: real, seconds: real)
    requires Inv(s) && Enabled(s, Poll(id, consumer, now, seconds))
    ensures var t := Apply(s, Poll(id, consumer, now, seconds));
            if id in s.box && s.box[id].acked == None && forall i :: 0 <= i < |s.deliveries| && s.deliveries[i].id == id ==> s.deliveries[i].until <= now
            then t.deliveries == s.deliveries + [Delivery(id, consumer, now, now + seconds)]
            else t.deliveries == s.deliveries && t.box == s.box
  {
    if id in s.box {
      if Available(s.box[id], now) {
        forall i | 0 <= i < |s.deliveries| && s.deliveries[i].id == id ensures s.deliveries[i].until <= now {
          AllRunOut(s, id, now, i);
        }
      } else if s.box[id].acked.None? {
        assert LeaseTrue(id, s.box, s.deliveries);
        var k := LastOfIs(s.deliveries, id);
        assert s.deliveries[k].id == id && s.deliveries[k].until > now;
      }
    }
  }

  ghost predicate Clashes(box: Box, markers: seq<Marker>, i: nat) {
    i < |markers| &&
    if markers[i].id in box then box[markers[i].id].payload != markers[i].payload
    else exists j: nat :: j < i && markers[j].id == markers[i].id && markers[j].payload != markers[i].payload
  }

  ghost predicate Inserted(box: Box, markers: seq<Marker>, after: Box) {
    && (forall id :: id in box ==> id in after && after[id] == box[id])
    && (forall id :: id in after ==> id in box || exists j: nat :: j < |markers| && markers[j].id == id)
    && (forall j: nat :: j < |markers| ==> markers[j].id in after && after[markers[j].id].payload == markers[j].payload)
    && (forall id :: id in after && id !in box ==> after[id] == Entry(after[id].payload, None, None, 0, None))
  }

  lemma InsertsNext(box: Box, markers: seq<Marker>, b: Box)
    requires markers != [] && Inserted(box, markers[..|markers| - 1], b)
    ensures var m := markers[|markers| - 1];
            && (m.id in b && b[m.id].payload != m.payload <==> Clashes(box, markers, |markers| - 1))
            && (m.id in b && b[m.id].payload == m.payload ==> Inserted(box, markers, b))
            && (m.id !in b ==> Inserted(box, markers, b[m.id := Entry(m.payload, None, None, 0, None)]))
  {
    var front, last := markers[..|markers| - 1], |markers| - 1;
    var m := markers[last];
    assert forall j: nat :: j < last ==> front[j] == markers[j];
    assert markers == front + [m];
  }

  /** A promotion is refused exactly if two payloads claim one message, and otherwise inserts each marker once, unleased, and nothing else. */
  lemma {:induction false} CollidesExactlyWhen(box: Box, markers: seq<Marker>)
    ensures Promoted(box, markers).Err? <==> exists i: nat :: Clashes(box, markers, i)
    ensures Promoted(box, markers).Err? ==> Promoted(box, markers) == Err(Collision)
    ensures Promoted(box, markers).Ok? ==> Inserted(box, markers, Promoted(box, markers).value)
    decreases |markers|
  {
    if markers != [] {
      var front, last := markers[..|markers| - 1], |markers| - 1;
      CollidesExactlyWhen(box, front);
      forall i: nat | i < last ensures Clashes(box, front, i) <==> Clashes(box, markers, i) {
        assert forall j: nat :: j <= i ==> front[j] == markers[j];
      }
      if Promoted(box, front).Ok? {
        InsertsNext(box, markers, Promoted(box, front).value);
      } else {
        var i: nat :| Clashes(box, front, i);
        assert Clashes(box, markers, i);
      }
    }
  }
}
