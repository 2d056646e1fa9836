/** How a process-wide configuration is divided among shards, and what the shards together may then hold. */
module ProcessLimits {
  import opened Sequences
  import opened ProcessShard
  import opened ProcessInvariant

  /** The bounds configured for a process as a whole. */
  datatype Settings = Settings(maxConcurrentKeys: nat, retryConcurrency: nat, mailboxCapacity: nat, maxAttempts: nat, batchMax: nat)

  ghost predicate GoodSettings(o: Settings) {
    o.maxConcurrentKeys > 0 && o.retryConcurrency > 0 && o.mailboxCapacity > 0 && o.maxAttempts > 0
  }

  /** A shard's share of a process-wide bound: rounded up, and never zero. */
  function Share(bound: nat, shards: nat): nat
    requires shards > 0
  {
    var share := Ceiling(bound, shards);
    if share == 0 then 1 else share
  }

  function LimitsOf(o: Settings, shards: nat): Limits
    requires shards > 0
  {
    Limits(Share(o.maxConcurrentKeys, shards), Share(o.retryConcurrency, shards), Ceiling(o.mailboxCapacity, shards), o.maxAttempts, o.batchMax)
  }

  lemma ShareCovers(bound: nat, shards: nat)
    requires shards > 0 && bound > 0
    ensures Share(bound, shards) == Ceiling(bound, shards) > 0
    ensures bound <= shards * Share(bound, shards) < bound + shards
  {
    CeilingCovers(bound, shards);
    var share := Ceiling(bound, shards);
    assert share * shards >= bound > 0;
    assert (share - 1) * shards == share * shards - shards;
  }

  lemma LimitsAreGood(o: Settings, shards: nat)
    requires GoodSettings(o) && shards > 0
    ensures GoodLimits(LimitsOf(o, shards))
  {
    ShareCovers(o.maxConcurrentKeys, shards);
    ShareCovers(o.retryConcurrency, shards);
    ShareCovers(o.mailboxCapacity, shards);
  }

  function Sum(xs: seq<nat>): nat {
    if xs == [] then 0 else xs[0] + Sum(xs[1..])
  }

  lemma {:induction false} SumBounded(xs: seq<nat>, bound: nat)
    requires forall i :: 0 <= i < |xs| ==> xs[i] <= bound
    ensures Sum(xs) <= |xs| * bound
    decreases |xs|
  {
    if xs != [] {
      var rest := xs[1..];
      SumBounded(rest, bound);
      assert |xs| * bound == |rest| * bound + bound;
    }
  }

  function Running(states: seq<Shard>): nat {
    Sum(seq(|states|, i requires 0 <= i < |states| => states[i].running))
  }

  function RetryRunning(states: seq<Shard>): nat {
    Sum(seq(|states|, i requires 0 <= i < |states| => states[i].retryRunning))
  }

  function Work(states: seq<Shard>): nat {
    Sum(seq(|states|, i requires 0 <= i < |states| => Total(states[i])))
  }

  lemma EachBounded(p: Limits, states: seq<Shard>)
    requires forall i :: 0 <= i < |states| ==> BoundsOk(p, states[i])
    ensures Running(states) <= |states| * p.concurrency
    ensures RetryRunning(states) <= |states| * p.retryConcurrency
    ensures Work(states) <= |states| * p.capacity
  {
    SumBounded(seq(|states|, i requires 0 <= i < |states| => states[i].running), p.concurrency);
    SumBounded(seq(|states|, i requires 0 <= i < |states| => states[i].retryRunning), p.retryConcurrency);
    SumBounded(seq(|states|, i requires 0 <= i < |states| => Total(states[i])), p.capacity);
  }

  /**
   Whatever each shard went through, the process as a whole exceeds a configured bound by less than one event per shard,
   and the shards' shares together reach the bound.
   */
  lemma ProcessWide(o: Settings, states: seq<Shard>)
    requires GoodSettings(o) && states != []
    requires forall i :: 0 <= i < |states| ==> Inv(LimitsOf(o, |states|), states[i])
    ensures Running(states) < o.maxConcurrentKeys + |states|
    ensures RetryRunning(states) < o.retryConcurrency + |states|
    ensures Work(states) < o.mailboxCapacity + |states|
    ensures |states| * LimitsOf(o, |states|).concurrency >= o.maxConcurrentKeys
    ensures |states| * LimitsOf(o, |states|).retryConcurrency >= o.retryConcurrency
    ensures |states| * LimitsOf(o, |states|).capacity >= o.mailboxCapacity
  {
    EachBounded(LimitsOf(o, |states|), states);
    ShareCovers(o.maxConcurrentKeys, |states|);
    ShareCovers(o.retryConcurrency, |states|);
    ShareCovers(o.mailboxCapacity, |states|);
  }
}
