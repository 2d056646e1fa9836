/**
 Several shards of a process and the outbox together: what the shards emit is what the sink receives, each message once.
 Nothing about the identifiers is assumed; that they are fresh follows from the shards' invariant.
 */
module OutboxFeed {
  import opened Wrappers
  import opened ProcessShard
  import opened ProcessInvariant
  import opened ProcessGrowth
  import opened ProcessPartition
  import opened ProcessRuns
  import opened ProcessTheorems
  import O = Outbox

  type Outputs = map<nat, Message>
  type Pending = map<O.Id, O.Payload>

  /** How a message's number and contents are written down. */
  datatype Format = Format(name: nat -> O.Id, text: Message -> O.Payload)

  ghost predicate NamesApart(f: Format) {
    forall m: nat, n: nat :: f.name(m) == f.name(n) ==> m == n
  }

  /** Event numbers of all shards: the shard above, the number within it below. */
  function Global(shard: nat, n: nat): nat {
    shard * SEQUENCE_LIMIT + n
  }

  lemma GlobalApart(s: nat, m: nat, t: nat, n: nat)
    requires m < SEQUENCE_LIMIT && n < SEQUENCE_LIMIT
    ensures Global(s, m) == Global(t, n) <==> s == t && m == n
  {
    if s < t {
      assert (s + 1) * SEQUENCE_LIMIT <= t * SEQUENCE_LIMIT;
    } else if t < s {
      assert (t + 1) * SEQUENCE_LIMIT <= s * SEQUENCE_LIMIT;
    }
  }

  // ---------------------------------------------------------------------------
  // The markers of all shards

  /** The marker of a shard's message is there and says what the message says. */
  ghost predicate Marked(f: Format, pending: Pending, s: nat, outputs: Outputs, n: nat) {
    n in outputs ==> f.name(Global(s, n)) in pending && pending[f.name(Global(s, n))] == f.text(outputs[n])
  }

  ghost predicate FromMessage(f: Format, outs: seq<Outputs>, id: O.Id, s: nat, n: nat) {
    s < |outs| && n in outs[s] && f.name(Global(s, n)) == id
  }

  ghost predicate Sourced(f: Format, pending: Pending, outs: seq<Outputs>, id: O.Id) {
    id in pending ==> exists s: nat, n: nat :: FromMessage(f, outs, id, s, n)
  }

  /** The pending markers are exactly the shards' messages. */
  ghost predicate MarkersOk(f: Format, pending: Pending, outs: seq<Outputs>) {
    && (forall s: nat, n: nat :: s < |outs| ==> Marked(f, pending, s, outs[s], n))
    && (forall id :: Sourced(f, pending, outs, id))
  }

  ghost predicate Numbered(outputs: Outputs) {
    forall n :: n in outputs ==> n < SEQUENCE_LIMIT
  }

  ghost predicate Grown(before: Outputs, after: Outputs) {
    forall n :: MessageKept(n, before, after)
  }

  /** A shard's transaction writes one marker for each message it adds. */
  ghost function Marking(f: Format, pending: Pending, s: nat, before: Outputs, after: Outputs): Pending
    requires NamesApart(f)
  {
    pending + Fresh(f, s, before, after)
  }

  ghost function Fresh(f: Format, s: nat, before: Outputs, after: Outputs): Pending
    requires NamesApart(f)
  {
    map n | n in after && n !in before :: f.name(Global(s, n)) := f.text(after[n])
  }

  lemma FreshIs(f: Format, s: nat, before: Outputs, after: Outputs, id: O.Id)
    requires NamesApart(f)
    ensures id in Fresh(f, s, before, after) <==> exists n: nat :: n in after && n !in before && f.name(Global(s, n)) == id
    ensures forall n: nat :: n in after && n !in before ==>
              f.name(Global(s, n)) in Fresh(f, s, before, after) && Fresh(f, s, before, after)[f.name(Global(s, n))] == f.text(after[n])
  {
  }

  /** A new message's name is not taken: no marker is ever overwritten. */
  lemma FreshIsNew(f: Format, pending: Pending, outs: seq<Outputs>, s: nat, after: Outputs, id: O.Id)
    requires NamesApart(f) && MarkersOk(f, pending, outs) && s < |outs| && (forall t :: 0 <= t < |outs| ==> Numbered(outs[t])) && Numbered(after)
    requires id in Fresh(f, s, outs[s], after)
    ensures id !in pending
  {
    FreshIs(f, s, outs[s], after, id);
    var n: nat :| n in after && n !in outs[s] && f.name(Global(s, n)) == id;
    assert Sourced(f, pending, outs, id);
    if id in pending {
      var t: nat, m: nat :| FromMessage(f, outs, id, t, m);
      assert Numbered(outs[t]);
      GlobalApart(s, n, t, m);
      assert false;
    }
  }

  lemma MarkingKeeps(f: Format, pending: Pending, outs: seq<Outputs>, s: nat, after: Outputs)
    requires NamesApart(f) && MarkersOk(f, pending, outs) && s < |outs| && Grown(outs[s], after)
    requires (forall t :: 0 <= t < |outs| ==> Numbered(outs[t])) && Numbered(after)
    ensures MarkersOk(f, Marking(f, pending, s, outs[s], after), outs[s := after])
    ensures forall id :: id in pending ==> id in Marking(f, pending, s, outs[s], after) && Marking(f, pending, s, outs[s], after)[id] == pending[id]
  {
    var more, next := Marking(f, pending, s, outs[s], after), outs[s := after];
    forall id | id in pending ensures id in more && more[id] == pending[id] {
      if id in Fresh(f, s, outs[s], after) { FreshIsNew(f, pending, outs, s, after, id); }
    }
    forall t: nat, n: nat | t < |next| ensures Marked(f, more, t, next[t], n) {
      MarkedNext(f, pending, outs, s, after, t, n);
    }
    forall id ensures Sourced(f, more, next, id) {
      SourcedNext(f, pending, outs, s, after, id);
    }
  }

  lemma MarkedNext(f: Format, pending: Pending, outs: seq<Outputs>, s: nat, after: Outputs, t: nat, n: nat)
    requires NamesApart(f) && MarkersOk(f, pending, outs) && s < |outs| && Grown(outs[s], after) && t < |outs|
    requires forall id :: id in pending ==> id in Marking(f, pending, s, outs[s], after) && Marking(f, pending, s, outs[s], after)[id] == pending[id]
    ensures Marked(f, Marking(f, pending, s, outs[s], after), t, outs[s := after][t], n)
  {
    assert Marked(f, pending, t, outs[t], n);
    FreshIs(f, s, outs[s], after, f.name(Global(t, n)));
    if t == s { assert MessageKept(n, outs[s], after); }
  }

  lemma SourcedNext(f: Format, pending: Pending, outs: seq<Outputs>, s: nat, after: Outputs, id: O.Id)
    requires NamesApart(f) && MarkersOk(f, pending, outs) && s < |outs| && Grown(outs[s], after)
    ensures Sourced(f, Marking(f, pending, s, outs[s], after), outs[s := after], id)
  {
    var next := outs[s := after];
    FreshIs(f, s, outs[s], after, id);
    if id in Fresh(f, s, outs[s], after) {
      var n: nat :| n in after && n !in outs[s] && f.name(Global(s, n)) == id;
      assert FromMessage(f, next, id, s, n);
    } else if id in pending {
      assert Sourced(f, pending, outs, id);
      var t: nat, m: nat :| FromMessage(f, outs, id, t, m);
      if t == s { assert MessageKept(m, outs[s], after); }
      assert FromMessage(f, next, id, t, m);
    }
  }

  // ---------------------------------------------------------------------------
  // Runs of the shards and the outbox

  datatype Feed = Feed(parts: seq<Partition>, out: O.State)

  /** A transaction of one shard, or one of the outbox. */
  datatype Action = Work(shard: nat, step: Step) | Serve(request: O.Step)

  function OutputsOf(parts: seq<Partition>): seq<Outputs> {
    seq(|parts|, s requires 0 <= s < |parts| => parts[s].shard.outputs)
  }

  ghost predicate FeedInv(p: Limits, f: Format, x: Feed) {
    && (forall s :: 0 <= s < |x.parts| ==> PartitionInv(p, x.parts[s]))
    && O.Inv(x.out) && MarkersOk(f, x.out.pending, OutputsOf(x.parts))
  }

  ghost predicate Enabled(x: Feed, action: Action) {
    match action
    case Work(s, _) => s < |x.parts|
    case Serve(step) => !step.Emit? && O.Enabled(x.out, step)
  }

  ghost function Acted(p: Limits, f: Format, x: Feed, action: Action): Feed
    requires GoodLimits(p) && NamesApart(f) && FeedInv(p, f, x) && Enabled(x, action)
  {
    match action
    case Work(s, step) =>
      var y := Next(p, x.parts[s], step);
      Feed(x.parts[s := y], x.out.(pending := Marking(f, x.out.pending, s, x.parts[s].shard.outputs, y.shard.outputs)))
    case Serve(step) => x.(out := O.Apply(x.out, step))
  }

  lemma OutputsNumbered(p: Limits, s: Shard)
    requires Inv(p, s)
    ensures Numbered(s.outputs)
  {
    forall n | n in s.outputs ensures n < SEQUENCE_LIMIT {
      assert n in Done(s.history);
      assert PlaceOk(n, s.nextSequence, s.mailbox.Keys, s.ready.Keys, s.leased.Keys, s.quarantine.Keys, Done(s.history));
    }
  }

  lemma AllNumbered(p: Limits, parts: seq<Partition>)
    requires forall s :: 0 <= s < |parts| ==> PartitionInv(p, parts[s])
    ensures forall s :: 0 <= s < |parts| ==> Numbered(OutputsOf(parts)[s])
  {
    forall s | 0 <= s < |parts| ensures Numbered(OutputsOf(parts)[s]) {
      OutputsNumbered(p, parts[s].shard);
    }
  }

  lemma PendingGrows(s: O.State, more: Pending)
    requires O.Inv(s) && forall id :: id in s.pending ==> id in more && more[id] == s.pending[id]
    ensures O.Inv(s.(pending := more))
  {
    forall id ensures O.EntryTrue(id, more, s.box) {
      assert O.EntryTrue(id, s.pending, s.box);
    }
  }

  lemma WorkMarkers(p: Limits, f: Format, parts: seq<Partition>, pending: Pending, s: nat, y: Partition)
    requires NamesApart(f) && (forall t :: 0 <= t < |parts| ==> PartitionInv(p, parts[t])) && s < |parts|
    requires MarkersOk(f, pending, OutputsOf(parts)) && PartitionInv(p, y) && Forward(parts[s], y)
    ensures var more := Marking(f, pending, s, parts[s].shard.outputs, y.shard.outputs);
            && MarkersOk(f, more, OutputsOf(parts[s := y]))
            && forall id :: id in pending ==> id in more && more[id] == pending[id]
  {
    var outs, after := OutputsOf(parts), y.shard.outputs;
    AllNumbered(p, parts);
    OutputsNumbered(p, y.shard);
    KeptOutputs(parts[s], y);
    MarkingKeeps(f, pending, outs, s, after);
    assert OutputsOf(parts[s := y]) == outs[s := after];
  }

  lemma WorkKeeps(p: Limits, f: Format, x: Feed, s: nat, step: Step)
    requires GoodLimits(p) && NamesApart(f) && FeedInv(p, f, x) && s < |x.parts|
    ensures FeedInv(p, f, Acted(p, f, x, Work(s, step)))
  {
    var y := Next(p, x.parts[s], step);
    NextOk(p, x.parts[s], step);
    WorkMarkers(p, f, x.parts, x.out.pending, s, y);
    PendingGrows(x.out, Marking(f, x.out.pending, s, x.parts[s].shard.outputs, y.shard.outputs));
  }

  lemma KeptOutputs(x: Partition, y: Partition)
    requires Forward(x, y)
    ensures Grown(x.shard.outputs, y.shard.outputs)
  {
  }

  lemma ServeKeeps(p: Limits, f: Format, x: Feed, step: O.Step)
    requires GoodLimits(p) && NamesApart(f) && FeedInv(p, f, x) && Enabled(x, Serve(step))
    ensures FeedInv(p, f, Acted(p, f, x, Serve(step))) && Acted(p, f, x, Serve(step)).out.pending == x.out.pending
  {
    O.StepKeeps(x.out, step);
  }

  lemma ActKeeps(p: Limits, f: Format, x: Feed, action: Action)
    requires GoodLimits(p) && NamesApart(f) && FeedInv(p, f, x) && Enabled(x, action)
    ensures FeedInv(p, f, Acted(p, f, x, action))
  {
    match action
    case Work(s, step) => WorkKeeps(p, f, x, s, step);
    case Serve(step) => ServeKeeps(p, f, x, step);
  }

  ghost predicate Runs(p: Limits, f: Format, x: Feed, actions: seq<Action>)
    requires GoodLimits(p) && NamesApart(f) && FeedInv(p, f, x)
    decreases |actions|
  {
    actions != [] ==>
      && Enabled(x, actions[0])
      && (ActKeeps(p, f, x, actions[0]); Runs(p, f, Acted(p, f, x, actions[0]), actions[1..]))
  }

  ghost function Ran(p: Limits, f: Format, x: Feed, actions: seq<Action>): (y: Feed)
    requires GoodLimits(p) && NamesApart(f) && FeedInv(p, f, x) && Runs(p, f, x, actions)
    ensures FeedInv(p, f, y)
    decreases |actions|
  {
    if actions == [] then x
    else
      ActKeeps(p, f, x, actions[0]);
      Ran(p, f, Acted(p, f, x, actions[0]), actions[1..])
  }

  /** Shards that nobody owns yet, and an empty outbox. */
  ghost predicate Begins(x: Feed) {
    x.out == O.START && forall s :: 0 <= s < |x.parts| ==> x.parts[s] == UNASSIGNED
  }

  lemma NoMarkers(f: Format, outs: seq<Outputs>)
    requires forall s :: 0 <= s < |outs| ==> outs[s] == map[]
    ensures MarkersOk(f, map[], outs)
  {
  }

  lemma NothingPut()
    ensures UNASSIGNED.shard.outputs == map[]
  {
  }

  lemma EachUnassigned(p: Limits, parts: seq<Partition>)
    requires forall s :: 0 <= s < |parts| ==> parts[s] == UNASSIGNED
    ensures forall s :: 0 <= s < |parts| ==> PartitionInv(p, parts[s])
  {
    UnassignedHolds(p);
  }

  lemma EachPutNothing(parts: seq<Partition>)
    requires forall s :: 0 <= s < |parts| ==> parts[s] == UNASSIGNED
    ensures forall s :: 0 <= s < |OutputsOf(parts)| ==> OutputsOf(parts)[s] == map[]
  {
    NothingPut();
  }

  lemma EmptyHolds(p: Limits, f: Format, x: Feed)
    requires Begins(x)
    ensures FeedInv(p, f, x)
  {
    EachUnassigned(p, x.parts);
    O.StartHolds();
    EachPutNothing(x.parts);
    NoMarkers(f, OutputsOf(x.parts));
  }

  // ---------------------------------------------------------------------------
  // Every emitted message once

  /** The pending markers, as a scan of their prefix lists them. */
  ghost predicate Lists(ids: seq<O.Id>, pending: Pending) {
    forall id :: id in ids <==> id in pending
  }

  lemma MarkerOfMessage(p: Limits, f: Format, x: Feed, s: nat, n: nat)
    requires NamesApart(f) && FeedInv(p, f, x) && s < |x.parts| && n < SEQUENCE_LIMIT
    ensures f.name(Global(s, n)) in x.out.pending <==> n in x.parts[s].shard.outputs
    ensures n in x.parts[s].shard.outputs ==> x.out.pending[f.name(Global(s, n))] == f.text(x.parts[s].shard.outputs[n])
  {
    var outs, id := OutputsOf(x.parts), f.name(Global(s, n));
    assert Marked(f, x.out.pending, s, outs[s], n) && Sourced(f, x.out.pending, outs, id);
    if id in x.out.pending {
      var t: nat, m: nat :| FromMessage(f, outs, id, t, m);
      OutputsNumbered(p, x.parts[t].shard);
      GlobalApart(s, n, t, m);
    }
  }

  /** What the promotion puts in the outbox for an admitted event: its transition's message if it committed with one, else nothing. */
  ghost predicate Delivered(f: Format, x: Feed, box: O.Box, s: nat, id: EventKey)
    requires s < |x.parts| && id in x.parts[s].shard.dedup
  {
    var shard, name := x.parts[s].shard, f.name(Global(s, x.parts[s].shard.dedup[id].sequence));
    && (name in box <==> exists i: nat :: CommittedBy(shard, id, i) && shard.history[i].emit.Some?)
    && forall i: nat :: CommittedBy(shard, id, i) && shard.history[i].emit.Some? ==>
         name in box && box[name].payload == f.text(Message(id.0, id.1, shard.dedup[id].sequence, shard.history[i].emit.value))
  }

  /**
   After any run of any number of shards and of the outbox (`EmptyHolds` gives every beginning its invariant), a promotion leaves in the outbox exactly one message, with its
   transition's payload, for each event that committed with an output, nothing for any other event, and nothing else; and
   promoting again changes nothing.
   */
  lemma EachEmittedOnce(p: Limits, f: Format, start: Feed, actions: seq<Action>, x: Feed, ids: seq<O.Id>, again: seq<O.Id>, t: O.State)
    requires GoodLimits(p) && NamesApart(f) && Begins(start) && FeedInv(p, f, start) && Runs(p, f, start, actions)
    requires x == Ran(p, f, start, actions) && Lists(ids, x.out.pending) && Lists(again, x.out.pending)
    requires t == O.Apply(x.out, O.Promote(ids))
    ensures forall s: nat, id :: s < |x.parts| && id in x.parts[s].shard.dedup ==> Delivered(f, x, t.box, s, id)
    ensures forall name :: name in t.box ==> exists s: nat, n: nat :: FromMessage(f, OutputsOf(x.parts), name, s, n)
    ensures O.Apply(t, O.Promote(again)).box == t.box
  {
    O.OneEntryPerMessage(x.out, ids, again);
    forall s: nat, id | s < |x.parts| && id in x.parts[s].shard.dedup ensures Delivered(f, x, t.box, s, id) {
      MessageDelivered(p, f, x, t.box, s, id);
    }
    forall name | name in t.box ensures exists s: nat, n: nat :: FromMessage(f, OutputsOf(x.parts), name, s, n) {
      assert Sourced(f, x.out.pending, OutputsOf(x.parts), name);
    }
  }

  lemma MessageDelivered(p: Limits, f: Format, x: Feed, box: O.Box, s: nat, id: EventKey)
    requires NamesApart(f) && FeedInv(p, f, x) && s < |x.parts| && id in x.parts[s].shard.dedup
    requires box.Keys == x.out.pending.Keys && forall name :: name in box ==> box[name].payload == x.out.pending[name]
    ensures Delivered(f, x, box, s, id)
  {
    var shard := x.parts[s].shard;
    assert EntryOk(id, shard.nextSequence, shard.dedup, shard.outcomes);
    MarkerOfMessage(p, f, x, s, shard.dedup[id].sequence);
    OneMessagePerEmit(p, x.parts[s], id);
  }
}
