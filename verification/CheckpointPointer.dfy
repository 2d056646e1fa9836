/** The remote checkpoint pointer: read, checked, swapped conditionally, and read back when the reply is an error. */
module CheckpointPointer {
  import opened Wrappers

  type Name = string
  type Vector = seq<nat>

  datatype Manifest = Manifest(id: nat, vector: Vector)

  datatype Pointer = Pointer(manifest: Manifest, version: nat)

  datatype Phase =
    | Checked(seen: Option<Pointer>, mine: Manifest)
    | Unsure(mine: Manifest)
    | Published(mine: Manifest)
    | Refused(mine: Manifest)

  /** `history` lists every manifest the pointer ever held, in order; nothing reads it. */
  datatype State = State(pointer: Option<Pointer>, history: seq<Manifest>, publishers: map<Name, Phase>)

  datatype Reply = Answered | LostAfterCommit | LostBeforeCommit

  datatype Step =
    | Check(publisher: Name, mine: Manifest)
    | Swap(publisher: Name, reply: Reply)
    | ReadBack(publisher: Name)

  const START := State(None, [], map[])

  /** Every shard the current checkpoint covers is covered at least as far. */
  predicate AtMost(a: Vector, b: Vector) {
    |a| <= |b| && forall s :: 0 <= s < |a| ==> a[s] <= b[s]
  }

  predicate Enabled(s: State, step: Step) {
    match step
    case Check(p, _) => p !in s.publishers || s.publishers[p].Published? || s.publishers[p].Refused?
    case Swap(p, _) => p in s.publishers && s.publishers[p].Checked?
    case ReadBack(p) => p in s.publishers && s.publishers[p].Unsure?
  }

  function Apply(s: State, step: Step): State
    requires Enabled(s, step)
  {
    match step
    case Check(p, mine) =>
      var fits := s.pointer.Some? ==> AtMost(s.pointer.value.manifest.vector, mine.vector);
      s.(publishers := s.publishers[p := if fits then Checked(s.pointer, mine) else Refused(mine)])
    case Swap(p, reply) =>
      var phase := s.publishers[p];
      var wins := s.pointer == phase.seen && reply != LostBeforeCommit;
      var next := if wins && reply == Answered then Published(phase.mine) else Unsure(phase.mine);
      if wins then State(Some(Pointer(phase.mine, |s.history| + 1)), s.history + [phase.mine], s.publishers[p := next])
      else s.(publishers := s.publishers[p := next])
    case ReadBack(p) =>
      var mine := s.publishers[p].mine;
      var found := s.pointer.Some? && s.pointer.value.manifest == mine;
      s.(publishers := s.publishers[p := if found then Published(mine) else Refused(mine)])
  }

  ghost predicate Rises(i: nat, history: seq<Manifest>) {
    i + 1 < |history| ==> AtMost(history[i].vector, history[i + 1].vector)
  }

  ghost predicate PhaseOk(phase: Phase, pointer: Option<Pointer>, history: seq<Manifest>) {
    match phase
    case Checked(seen, mine) =>
      && (seen.Some? ==> AtMost(seen.value.manifest.vector, mine.vector) && 1 <= seen.value.version <= |history| && seen.value.manifest == history[seen.value.version - 1])
    case Published(mine) => mine in history
    case _ => true
  }

  ghost predicate PhaseAt(p: Name, s: State) {
    p in s.publishers ==> PhaseOk(s.publishers[p], s.pointer, s.history)
  }

  ghost predicate Inv(s: State) {
    && (s.history == [] <==> s.pointer.None?)
    && (s.pointer.Some? ==> s.pointer.value == Pointer(s.history[|s.history| - 1], |s.history|))
    && (forall i: nat :: Rises(i, s.history))
    && (forall p :: PhaseAt(p, s))
  }

  lemma StepKeeps(s: State, step: Step)
    requires Inv(s) && Enabled(s, step)
    ensures Inv(Apply(s, step)) && s.history <= Apply(s, step).history
  {
    var t := Apply(s, step);
    assert step.Swap? ==> PhaseAt(step.publisher, s);
    forall i: nat ensures Rises(i, t.history) {
      assert Rises(i, s.history);
    }
    forall p ensures PhaseAt(p, t) {
      assert PhaseAt(p, s);
      if step.Swap? && p == step.publisher && s.pointer == s.publishers[p].seen && step.reply != LostBeforeCommit {
        assert t.history[|s.history|] == s.publishers[p].mine;
      }
    }
  }

  predicate Runs(s: State, steps: seq<Step>)
    decreases |steps|
  {
    steps != [] ==> Enabled(s, steps[0]) && Runs(Apply(s, steps[0]), steps[1..])
  }

  function Run(s: State, steps: seq<Step>): State
    requires Runs(s, steps)
    decreases |steps|
  {
    if steps == [] then s else Run(Apply(s, steps[0]), steps[1..])
  }

  lemma {:induction false} RunKeeps(s: State, steps: seq<Step>)
    requires Inv(s) && Runs(s, steps)
    ensures Inv(Run(s, steps)) && s.history <= Run(s, steps).history
    decreases |steps|
  {
    if steps != [] {
      StepKeeps(s, steps[0]);
      RunKeeps(Apply(s, steps[0]), steps[1..]);
    }
  }

  lemma {:induction false} HistoryRises(history: seq<Manifest>, i: nat, j: nat)
    requires (forall k: nat :: Rises(k, history)) && i <= j < |history|
    ensures AtMost(history[i].vector, history[j].vector)
    decreases j - i
  {
    if i < j {
      var k: nat := j - 1;
      HistoryRises(history, i, k);
      assert Rises(k, history);
    }
  }

  /** Over every interleaving of publishers and lost replies no published component regresses, and whoever is told it published did. */
  lemma NeverRegresses(steps: seq<Step>, i: nat, j: nat, p: Name)
    requires Runs(START, steps) && i <= j < |Run(START, steps).history|
    ensures var s := Run(START, steps);
            && AtMost(s.history[i].vector, s.history[j].vector)
            && (p in s.publishers && s.publishers[p].Published? ==> s.publishers[p].mine in s.history)
            && s.pointer == Some(Pointer(s.history[|s.history| - 1], |s.history|))
  {
    assert forall q :: PhaseAt(q, START);
    RunKeeps(START, steps);
    var s := Run(START, steps);
    HistoryRises(s.history, i, j);
    assert PhaseAt(p, s);
  }

  // ---------------------------------------------------------------------------
  // When a publication goes through

  /**
   A publisher that nobody interferes with succeeds exactly if its vector covers the published one, component by component:
   then its manifest becomes the pointer and it is told so, even if the reply to its update is lost; otherwise it is refused.
   */
  lemma PublishesExactlyWhen(s: State, p: Name, mine: Manifest, reply: Reply)
    requires Inv(s) && Enabled(s, Check(p, mine)) && reply != LostBeforeCommit
    ensures var t := Apply(s, Check(p, mine));
            if s.pointer.None? || (|s.pointer.value.manifest.vector| <= |mine.vector|
                 && forall i :: 0 <= i < |s.pointer.value.manifest.vector| ==> s.pointer.value.manifest.vector[i] <= mine.vector[i]) then
              && Enabled(t, Swap(p, reply))
              && var u := Apply(t, Swap(p, reply));
              && u.history == s.history + [mine] && u.pointer.Some? && u.pointer.value.manifest == mine
              && (reply == Answered ==> u.publishers[p] == Published(mine))
              && (reply == LostAfterCommit ==> Enabled(u, ReadBack(p)) && Apply(u, ReadBack(p)).publishers[p] == Published(mine))
            else t.publishers[p] == Refused(mine) && t.pointer == s.pointer && t.history == s.history
  {
  }

  ghost predicate Others(steps: seq<Step>, p: Name) {
    forall i :: 0 <= i < |steps| ==> steps[i].publisher != p
  }

  lemma {:induction false} OthersLeave(s: State, steps: seq<Step>, p: Name)
    requires Runs(s, steps) && Others(steps, p) && p in s.publishers
    ensures p in Run(s, steps).publishers && Run(s, steps).publishers[p] == s.publishers[p]
    decreases |steps|
  {
    if steps != [] {
      assert steps[0].publisher != p;
      assert forall i :: 0 <= i < |steps[1..]| ==> steps[1..][i] == steps[i + 1];
      OthersLeave(Apply(s, steps[0]), steps[1..], p);
    }
  }

  /** Whatever others do between a publisher's check and its update, the update is applied exactly if none of them published. */
  lemma AppliedExactlyWhen(s: State, p: Name, mine: Manifest, steps: seq<Step>)
    requires Inv(s) && Enabled(s, Check(p, mine)) && Apply(s, Check(p, mine)).publishers[p].Checked?
    requires Runs(Apply(s, Check(p, mine)), steps) && Others(steps, p)
    ensures var t := Run(Apply(s, Check(p, mine)), steps);
            && Enabled(t, Swap(p, Answered)) && s.history <= t.history
            && Apply(t, Swap(p, Answered)).history == if t.history == s.history then s.history + [mine] else t.history
  {
    var checked := Apply(s, Check(p, mine));
    StepKeeps(s, Check(p, mine));
    RunKeeps(checked, steps);
    OthersLeave(checked, steps, p);
    var t := Run(checked, steps);
    assert |t.history| == |s.history| ==> t.history == s.history;
  }
}
