/**
 When the log of a partition is a serial order of its transactions, told from the steps alone: no committed transaction's
 node was synchronized with newer records between the operation and the append.
 */
module Serializability {
  import opened Wrappers
  import opened Keys
  import opened Transactions
  import opened ShardedReplay
  import opened Replication

  /** The states a run goes through. */
  ghost predicate Trace(states: seq<State>, steps: seq<Step>) {
    && |states| == |steps| + 1 && states[0] == Start(states[0].format)
    && forall i: nat :: i < |steps| ==> Enabled(states[i], steps[i]) && states[i + 1] == Apply(states[i], steps[i])
  }

  /** A step that begins or ends a transaction of the node. */
  predicate Bounds(step: Step, node: Name) {
    match step
    case Operate(m, _) => m == node
    case Append(m, _) => m == node
    case Drop(m) => m == node
    case _ => false
  }

  /** The node operated at step `i`, and nothing began or ended a transaction of it until `t`. */
  ghost predicate OpenSince(steps: seq<Step>, node: Name, i: nat, t: nat) {
    && i < t <= |steps| && steps[i].Operate? && steps[i].node == node
    && forall m :: i < m < t ==> !Bounds(steps[m], node)
  }

  /** Step `j` synchronizes the node with a log longer than what it had read. */
  ghost predicate Refreshes(states: seq<State>, steps: seq<Step>, node: Name, j: nat) {
    && j < |steps| && j < |states| && steps[j] == Sync(node)
    && node in states[j].nodes && states[j].nodes[node].sequence != |states[j].log|
  }

  ghost predicate RefreshedBetween(states: seq<State>, steps: seq<Step>, node: Name, i: nat, t: nat) {
    exists j :: i < j < t && Refreshes(states, steps, node, j)
  }

  /** Step `k` appends a record to the log. */
  ghost predicate Commits(steps: seq<Step>, k: nat) {
    k < |steps| && steps[k].Append? && steps[k].reply != Refused
  }

  /** The transaction appended at step `k` had its node refreshed since it operated. */
  ghost predicate Crossed(states: seq<State>, steps: seq<Step>, k: nat) {
    Commits(steps, k) && exists i: nat :: OpenSince(steps, steps[k].node, i, k) && RefreshedBetween(states, steps, steps[k].node, i, k)
  }

  // ---------------------------------------------------------------------------
  // The recorded flag says what the steps did

  ghost predicate JobTold(states: seq<State>, steps: seq<Step>, node: Name, t: nat)
    requires t < |states|
  {
    node in states[t].nodes && states[t].nodes[node].job.Some? ==>
      exists i: nat :: OpenSince(steps, node, i, t) && (states[t].nodes[node].job.value.moved <==> RefreshedBetween(states, steps, node, i, t))
  }

  lemma OpenFurther(steps: seq<Step>, node: Name, i: nat, last: nat, t: nat)
    requires OpenSince(steps, node, i, last) && t == last + 1 <= |steps| && !Bounds(steps[last], node)
    ensures OpenSince(steps, node, i, t)
  {
  }

  lemma RefreshedFurther(states: seq<State>, steps: seq<Step>, node: Name, i: nat, last: nat, t: nat)
    requires t == last + 1 && i < last
    ensures RefreshedBetween(states, steps, node, i, t) <==> RefreshedBetween(states, steps, node, i, last) || Refreshes(states, steps, node, last)
  {
    if RefreshedBetween(states, steps, node, i, last) {
      var j :| i < j < last && Refreshes(states, steps, node, j);
      assert i < j < t;
    }
  }

  /** What one step does to a node's transaction. */
  lemma JobAfter(s: State, step: Step, node: Name)
    requires Enabled(s, step)
    ensures var t := Apply(s, step);
            node in t.nodes && t.nodes[node].job.Some? ==>
              if step.Operate? && step.node == node then !t.nodes[node].job.value.moved
              else
                && !Bounds(step, node) && node in s.nodes && s.nodes[node].job.Some?
                && (t.nodes[node].job.value.moved <==>
                      s.nodes[node].job.value.moved || (step == Sync(node) && s.nodes[node].sequence != |s.log|))
  {
  }

  lemma {:induction false} JobsTold(states: seq<State>, steps: seq<Step>, node: Name, t: nat)
    requires Trace(states, steps) && t < |states|
    ensures JobTold(states, steps, node, t)
    decreases t
  {
    if t > 0 && node in states[t].nodes && states[t].nodes[node].job.Some? {
      var last: nat := t - 1;
      assert Enabled(states[last], steps[last]) && states[last + 1] == Apply(states[last], steps[last]);
      JobAfter(states[last], steps[last], node);
      if steps[last].Operate? && steps[last].node == node {
        assert OpenSince(steps, node, last, t);
        assert !RefreshedBetween(states, steps, node, last, t);
      } else {
        JobsTold(states, steps, node, last);
        var i: nat :| OpenSince(steps, node, i, last)
                      && (states[last].nodes[node].job.value.moved <==> RefreshedBetween(states, steps, node, i, last));
        OpenFurther(steps, node, i, last, t);
        RefreshedFurther(states, steps, node, i, last, t);
      }
    }
  }

  /** A transaction has one beginning. */
  lemma OneBeginning(steps: seq<Step>, node: Name, i: nat, j: nat, t: nat)
    requires OpenSince(steps, node, i, t) && OpenSince(steps, node, j, t)
    ensures i == j
  {
    assert Bounds(steps[i], node) && Bounds(steps[j], node);
  }

  lemma CrossedIsMoved(states: seq<State>, steps: seq<Step>, k: nat)
    requires Trace(states, steps) && Commits(steps, k)
    ensures steps[k].node in states[k].nodes && states[k].nodes[steps[k].node].job.Some?
    ensures Crossed(states, steps, k) <==> states[k].nodes[steps[k].node].job.value.moved
  {
    var node := steps[k].node;
    assert Enabled(states[k], steps[k]);
    JobsTold(states, steps, node, k);
    var i: nat :| OpenSince(steps, node, i, k) && (states[k].nodes[node].job.value.moved <==> RefreshedBetween(states, steps, node, i, k));
    if Crossed(states, steps, k) {
      var j: nat :| OpenSince(steps, node, j, k) && RefreshedBetween(states, steps, node, j, k);
      OneBeginning(steps, node, i, j, k);
    }
  }

  // ---------------------------------------------------------------------------
  // The log

  ghost predicate Still(log: seq<Entry>) {
    forall i :: 0 <= i < |log| ==> !log[i].moved
  }

  lemma StillNext(s: State, step: Step)
    requires Enabled(s, step)
    ensures var t := Apply(s, step);
            Still(t.log) <==> Still(s.log) && (step.Append? && step.reply != Refused ==> !s.nodes[step.node].job.value.moved)
  {
    var t := Apply(s, step);
    if step.Append? && step.reply != Refused {
      assert t.log[|s.log|].moved == s.nodes[step.node].job.value.moved;
      assert forall i :: 0 <= i < |s.log| ==> t.log[i] == s.log[i];
    }
  }

  /** No transaction appended before `t` was crossed. */
  ghost predicate NoneCrossed(states: seq<State>, steps: seq<Step>, t: nat) {
    t > 0 ==> NoneCrossed(states, steps, t - 1) && !Crossed(states, steps, t - 1)
  }

  lemma {:induction false} StillExactlyWhen(states: seq<State>, steps: seq<Step>, t: nat)
    requires Trace(states, steps) && t < |states|
    ensures Still(states[t].log) <==> NoneCrossed(states, steps, t)
    decreases t
  {
    if t > 0 {
      var last: nat := t - 1;
      StillExactlyWhen(states, steps, last);
      assert Enabled(states[last], steps[last]) && states[last + 1] == Apply(states[last], steps[last]);
      StillNext(states[last], steps[last]);
      if Commits(steps, last) { CrossedIsMoved(states, steps, last); }
    }
  }

  lemma {:induction false} TraceKeeps(states: seq<State>, steps: seq<Step>, t: nat)
    requires Trace(states, steps) && t < |states|
    ensures Inv(states[t])
    decreases t
  {
    if t > 0 {
      var last: nat := t - 1;
      TraceKeeps(states, steps, last);
      assert Enabled(states[last], steps[last]) && states[last + 1] == Apply(states[last], steps[last]);
      StepKeeps(states[last], steps[last]);
    }
  }

  /**
   At any moment of any run the log is a serial order, each transaction having read exactly what the log before it replays
   to, precisely when no committed transaction's node was synchronized with newer records after it operated.
   */
  lemma SerialExactlyWhen(states: seq<State>, steps: seq<Step>, t: nat)
    requires Trace(states, steps) && t < |states|
    ensures Serial(states[t].log) <==> NoneCrossed(states, steps, t)
  {
    TraceKeeps(states, steps, t);
    StillExactlyWhen(states, steps, t);
    var log := states[t].log;
    forall i: nat | i < |log| ensures log[i].basis == i ==> log[i].seen == Replayed(log[..i]) && !log[i].moved
      ensures !log[i].moved ==> log[i].basis == i
    {
      assert EntryAt(i, states[t].format, log);
    }
  }
}
