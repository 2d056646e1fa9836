/**
 * The stored graph over runs of the registry: when it stays free of loops, and
 * when no deduplicate comes to read retractions.
 */
module RegistryRuns {

  import opened Wrappers
  import opened Text
  import opened Dataflow
  import opened Wiring
  import opened OperatorRegistry

  // ----- what one operator contributes to the graph -----

  /** The graph of every edge but one. */
  ghost function Without(s: Registry, id: string): set<(string, string)> {
    Feeds(InputsOf(s.operators), s.edges - {id})
  }

  lemma SplitFeeds(inputs: Inputs, edges: Edges, id: string)
    requires id in edges && id in inputs
    ensures Feeds(inputs, edges) == Feeds(inputs, edges - {id}) + Into(inputs[id], edges[id].output)
  {
    var v := edges[id].output;
    var g, h := Feeds(inputs, edges), Feeds(inputs, edges - {id});
    forall a, b ensures (a, b) in g <==> (a, b) in h + Into(inputs[id], v) {
      FeedsThrough(inputs, edges, a, b);
      FeedsThrough(inputs, edges - {id}, a, b);
      if (a, b) in g {
        var k :| FeedsBy(inputs, edges, k, a, b);
        if k != id {
          assert FeedsBy(inputs, edges - {id}, k, a, b);
        }
      }
      if (a, b) in h {
        var k :| FeedsBy(inputs, edges - {id}, k, a, b);
        assert FeedsBy(inputs, edges, k, a, b);
      }
      if a in inputs[id] && b == v {
        assert FeedsBy(inputs, edges, id, a, b);
      }
    }
    forall p ensures p in g <==> p in h + Into(inputs[id], v) {
      var (a, b) := p;
    }
  }

  lemma SameFeeds(before: Inputs, after: Inputs, edges: Edges)
    requires edges.Keys <= before.Keys && edges.Keys <= after.Keys
    requires forall id :: id in edges ==> before[id] == after[id]
    ensures Feeds(before, edges) == Feeds(after, edges)
  {
  }

  // ----- which operator answers for an id -----

  /** The new operator takes over an id that already forwards to an edge. */
  ghost predicate TakesOver(s: Registry, step: Step) {
    && step.Create?
    && Entry(step.kind, step.id) !in s.operators
    && step.id in s.edges
    && Holder(Added(s, step.kind, step.id, step.spec).operators, step.id) == Some(step.kind)
  }

  /** A process whose changes are already forwarded gets its references again. */
  ghost predicate UpdatesReferences(s: Registry, step: Step) {
    && step.Create? && step.kind.Process?
    && Entry(Process, step.id) in s.operators
    && step.id in s.edges
  }

  lemma OthersAnswer(s: Registry, kind: Kind, id: string, spec: Spec, other: string)
    requires other != id && other in Ids(s.operators)
    ensures other in InputsOf(Added(s, kind, id, spec).operators)
    ensures InputsOf(Added(s, kind, id, spec).operators)[other] == InputsOf(s.operators)[other]
  {
    HolderKnows(s.operators, other);
    var after := Added(s, kind, id, spec).operators;
    assert forall k :: Entry(k, other) in after <==> Entry(k, other) in s.operators;
    assert Entry(Holder(s.operators, other).value, other) in after;
  }

  /** What the id reads once the entry is added: the entry's streams, or as before. */
  lemma AnswerAfter(s: Registry, kind: Kind, id: string, spec: Spec)
    requires id in Ids(s.operators)
    ensures id in InputsOf(Added(s, kind, id, spec).operators)
    ensures InputsOf(Added(s, kind, id, spec).operators)[id]
            == if Holder(Added(s, kind, id, spec).operators, id) == Some(kind)
               then Reads(spec) else InputsOf(s.operators)[id]
  {
    var after := Added(s, kind, id, spec).operators;
    assert Ids(s.operators) <= Ids(after);
    HolderKnows(s.operators, id);
    HolderKnows(after, id);
    if Holder(after, id) != Some(kind) {
      assert Holder(after, id) == Holder(s.operators, id);
    }
  }

  /** With another operator's answer for `id`, only that edge's arcs change. */
  lemma Rewired(s: Registry, kind: Kind, id: string, spec: Spec)
    requires Wired(s) && id in s.edges
    requires Holder(Added(s, kind, id, spec).operators, id) == Some(kind)
    ensures Graph(s) == Without(s, id) + Into(InputsOf(s.operators)[id], s.edges[id].output)
    ensures Graph(Added(s, kind, id, spec)) == Without(s, id) + Into(Reads(spec), s.edges[id].output)
  {
    var y := Added(s, kind, id, spec);
    AddedWired(s, kind, id, spec);
    SplitFeeds(InputsOf(s.operators), s.edges, id);
    SplitFeeds(InputsOf(y.operators), y.edges, id);
    AnswerAfter(s, kind, id, spec);
    forall k | k in s.edges - {id} ensures k in InputsOf(y.operators) && InputsOf(y.operators)[k] == InputsOf(s.operators)[k] {
      OthersAnswer(s, kind, id, spec, k);
    }
    SameFeeds(InputsOf(s.operators), InputsOf(y.operators), s.edges - {id});
  }

  /** An entry that answers for no edge leaves the graph as it was. */
  lemma NotRewired(s: Registry, kind: Kind, id: string, spec: Spec)
    requires Wired(s)
    requires id in s.edges ==> Holder(Added(s, kind, id, spec).operators, id) != Some(kind)
    ensures Graph(Added(s, kind, id, spec)) == Graph(s)
  {
    var y := Added(s, kind, id, spec);
    AddedWired(s, kind, id, spec);
    forall k | k in s.edges ensures k in InputsOf(y.operators) && InputsOf(y.operators)[k] == InputsOf(s.operators)[k] {
      if k == id {
        AnswerAfter(s, kind, id, spec);
      } else {
        OthersAnswer(s, kind, id, spec, k);
      }
    }
    SameFeeds(InputsOf(s.operators), InputsOf(y.operators), s.edges);
  }

  lemma ConnectedGraph(s: Registry, id: string, output: string)
    requires Wired(s) && id in Ids(s.operators) && id !in s.edges
    ensures Graph(Connected(s, id, output)) == Graph(s) + Into(InputsOf(s.operators)[id], output)
  {
    var y := Connected(s, id, output);
    SplitFeeds(InputsOf(y.operators), y.edges, id);
    assert y.edges - {id} == s.edges;
  }

  /** Where a vertex leads does not depend on the arcs that only come back to it. */
  lemma FromOutput(h: set<(string, string)>, from: set<string>, v: string, b: string)
    ensures Reaches(h + Into(from, v), v, b) <==> Reaches(h, v, b)
  {
    ReachedWith(h, from, v, v, b);
  }

  lemma FromOutputSome(h: set<(string, string)>, from: set<string>, v: string, targets: set<string>)
    ensures ReachesSome(h + Into(from, v), v, targets) <==> ReachesSome(h, v, targets)
  {
    forall t | t in targets ensures Reaches(h + Into(from, v), v, t) <==> Reaches(h, v, t) {
      FromOutput(h, from, v, t);
    }
    if ReachesSome(h + Into(from, v), v, targets) {
      var t :| t in targets && Reaches(h + Into(from, v), v, t);
      assert Reaches(h, v, t);
    }
    if ReachesSome(h, v, targets) {
      var t :| t in targets && Reaches(h, v, t);
      assert Reaches(h + Into(from, v), v, t);
    }
  }

  // ----- loops -----

  /** The loop check that a takeover skips. */
  ghost predicate ClosesLoop(s: Registry, step: Step) {
    TakesOver(s, step) && ReachesSome(Graph(s), s.edges[step.id].output, Reads(step.spec))
  }

  lemma RewiredAcyclic(s: Registry, kind: Kind, id: string, spec: Spec)
    requires Wired(s) && id in s.edges && Acyclic(Graph(s))
    requires Holder(Added(s, kind, id, spec).operators, id) == Some(kind)
    ensures Acyclic(Graph(Added(s, kind, id, spec)))
            <==> !ReachesSome(Graph(s), s.edges[id].output, Reads(spec))
  {
    var h, v, was := Without(s, id), s.edges[id].output, InputsOf(s.operators)[id];
    Rewired(s, kind, id, spec);
    FewerArcs(h, Graph(s));
    AcyclicWith(h, Reads(spec), v);
    FromOutputSome(h, was, v, Reads(spec));
  }

  lemma CreateAcyclic(s: Registry, step: Step, y: Registry)
    requires Wired(s) && Acyclic(Graph(s)) && step.Create? && Do(s, step) == Ok(y) && y != s
    ensures Acyclic(Graph(y)) <==> !ClosesLoop(s, step)
  {
    CreatedAdds(s, step, y);
    if Entry(step.kind, step.id) in s.operators {
      UpdatedAcyclic(s, step.id, step.spec);
    } else {
      NewEntryAcyclic(s, step.kind, step.id, step.spec);
    }
  }

  /** A creation that changes anything adds its entry; over an old one only a process does, and then closes no loop. */
  lemma CreatedAdds(s: Registry, step: Step, y: Registry)
    requires step.Create? && Do(s, step) == Ok(y) && y != s
    ensures y == Added(s, step.kind, step.id, step.spec)
    ensures Entry(step.kind, step.id) in s.operators ==>
              && step.kind.Process? && Entry(Collection, step.id) !in s.operators
              && (step.id in s.edges ==> !ReachesSome(Graph(s), s.edges[step.id].output, Reads(step.spec)))
  {
  }

  lemma NewEntryAcyclic(s: Registry, kind: Kind, id: string, spec: Spec)
    requires Wired(s) && Acyclic(Graph(s)) && Entry(kind, id) !in s.operators
    ensures Acyclic(Graph(Added(s, kind, id, spec))) <==> !ClosesLoop(s, Create(kind, id, spec))
  {
    if id in s.edges && Holder(Added(s, kind, id, spec).operators, id) == Some(kind) {
      RewiredAcyclic(s, kind, id, spec);
    } else {
      NotRewired(s, kind, id, spec);
    }
  }

  lemma UpdatedAcyclic(s: Registry, id: string, spec: Spec)
    requires Wired(s) && Acyclic(Graph(s)) && Entry(Collection, id) !in s.operators
    requires id in s.edges ==> !ReachesSome(Graph(s), s.edges[id].output, Reads(spec))
    ensures Acyclic(Graph(Added(s, Process, id, spec)))
  {
    ProcessAnswers(s, id, spec);
    if id in s.edges {
      RewiredAcyclic(s, Process, id, spec);
    } else {
      NotRewired(s, Process, id, spec);
    }
  }

  lemma ConnectAcyclic(s: Registry, step: Step, y: Registry)
    requires Wired(s) && Acyclic(Graph(s)) && step.Connect? && Do(s, step) == Ok(y) && y != s
    ensures Acyclic(Graph(y))
  {
    var id, output := step.operator, step.output;
    ConnectedNew(s, id, output, y);
    ConnectedGraph(s, id, output);
    AcyclicWith(Graph(s), InputsOf(s.operators)[id], output);
  }

  lemma ConnectedNew(s: Registry, id: string, output: string, y: Registry)
    requires Do(s, Connect(id, output)) == Ok(y) && y != s
    ensures y == Connected(s, id, output) && id in Ids(s.operators) && id !in s.edges
    ensures !ReachesSome(Graph(s), output, InputsOf(s.operators)[id])
  {
  }

  /** An edge is refused as a loop exactly when the graph with it would have one. */
  lemma ConnectRefusedExactly(s: Registry, id: string, output: string)
    requires Wired(s) && Acyclic(Graph(s)) && id in Ids(s.operators) && id !in s.edges
    requires !Blank(id) && !Blank(output)
    ensures Do(s, Connect(id, output)) == Err(Loop) <==> !Acyclic(Graph(Connected(s, id, output)))
  {
    ConnectedGraph(s, id, output);
    AcyclicWith(Graph(s), InputsOf(s.operators)[id], output);
  }

  /** An edge that is already there closes no loop in a graph without loops. */
  lemma KnownEdgeNoLoop(s: Registry, id: string)
    requires Wired(s) && Acyclic(Graph(s)) && id in s.edges
    ensures !ReachesSome(Graph(s), s.edges[id].output, InputsOf(s.operators)[id])
  {
    SplitFeeds(InputsOf(s.operators), s.edges, id);
    if ReachesSome(Graph(s), s.edges[id].output, InputsOf(s.operators)[id]) {
      var t :| t in InputsOf(s.operators)[id] && Reaches(Graph(s), s.edges[id].output, t);
      assert (t, s.edges[id].output) in Graph(s);
      assert OnCycle(Graph(s), t);
      assert false;
    }
  }

  /**
   An output is connected exactly if the names are there, the operator exists, the stream is declared as source-managed and
   no other operator writes it; and the operator either writes it already, or writes nothing yet and the graph with the new
   edge has no loop and sound collections.
   */
  lemma ConnectsExactlyWhen(s: Registry, id: string, output: string)
    requires Wired(s) && Acyclic(Graph(s))
    ensures Do(s, Connect(id, output)).Ok? <==>
              && !Blank(id) && !Blank(output) && (exists kind :: Entry(kind, id) in s.operators)
              && output in s.streams && s.streams[output] && (forall k :: k in s.edges && k != id ==> s.edges[k].output != output)
              && if id in s.edges then s.edges[id].output == output
                 else Acyclic(Graph(Connected(s, id, output))) && CollectionsSound(Connected(s, id, output))
    ensures Do(s, Connect(id, output)).Ok? ==> Do(s, Connect(id, output)).value == s.(edges := s.edges[id := Edge(output, true)])
  {
    IdKnown(s.operators, id);
    if id in s.edges {
      KnownEdgeNoLoop(s, id);
      if s.edges[id].output == output {
        assert s.edges[id := Edge(output, true)] == s.edges;
      }
    } else if id in Ids(s.operators) && !Blank(id) && !Blank(output) {
      ConnectRefusedExactly(s, id, output);
    }
  }

  lemma IdKnown(operators: Operators, id: string)
    ensures id in Ids(operators) <==> exists kind :: Entry(kind, id) in operators
  {
    if kind :| Entry(kind, id) in operators {
      assert Entry(kind, id) in operators.Keys && Entry(kind, id).id == id;
    }
  }

  /** An id is refused as taken exactly to a collection whose id any other kind has, and to any other kind, once its streams are there, whose id a collection has. */
  lemma IdTakenExactlyWhen(s: Registry, kind: Kind, id: string, spec: Spec)
    ensures Do(s, Create(kind, id, spec)) == Err(IdTaken) <==>
              if kind == Collection then exists other :: other != Collection && Entry(other, id) in s.operators
              else Reads(spec) <= s.streams.Keys && Entry(Collection, id) in s.operators
  {
    assert HeldByOther(s.operators, id) <==> exists other :: other != Collection && Entry(other, id) in s.operators by {
      if other :| other != Collection && Entry(other, id) in s.operators {
        match other
        case Process =>
        case Window =>
        case Filter =>
        case Deduplicate =>
        case TemporalJoin =>
        case IntervalJoin =>
        case Collection =>
      }
    }
  }

  /** New references are refused as a loop exactly when they would close one. */
  lemma ReferencesRefusedExactly(s: Registry, id: string, references: set<string>)
    requires Wired(s) && Acyclic(Graph(s)) && id in s.edges
    requires Entry(Process, id) in s.operators && Entry(Collection, id) !in s.operators
    requires Reads(s.operators[Entry(Process, id)].(others := references)) <= s.streams.Keys
    ensures var spec := s.operators[Entry(Process, id)].(others := references);
            Do(s, Create(Process, id, spec)) == Err(Loop) <==> !Acyclic(Graph(Added(s, Process, id, spec)))
  {
    var spec := s.operators[Entry(Process, id)].(others := references);
    RewiredAcyclic(s, Process, id, spec);
  }

  lemma CreatedEntry(s: Registry, step: Step, y: Registry)
    requires step.Create? && Do(s, step) == Ok(y)
    ensures Entry(step.kind, step.id) in y.operators
  {
  }

  lemma Unchanged(s: Registry, step: Step)
    requires Wired(s) && Acyclic(Graph(s)) && Do(s, step) == Ok(s)
    ensures !ClosesLoop(s, step)
  {
    if step.Create? {
      CreatedEntry(s, step, s);
    }
  }

  /**
   * A step keeps the graph free of loops, except one that takes over the id of
   * an operator whose output reaches what the new operator reads.
   */
  lemma StepAcyclic(s: Registry, step: Step, y: Registry)
    requires Wired(s) && Acyclic(Graph(s)) && Do(s, step) == Ok(y)
    ensures Wired(y)
    ensures Acyclic(Graph(y)) <==> !ClosesLoop(s, step)
  {
    StepWired(s, step, y);
    if y == s {
      Unchanged(s, step);
    } else if step.Create? {
      CreateAcyclic(s, step, y);
    } else if step.Connect? {
      ConnectAcyclic(s, step, y);
    } else {
      assert Graph(y) == Graph(s);
    }
  }

  lemma StepWired(s: Registry, step: Step, y: Registry)
    requires Wired(s) && Do(s, step) == Ok(y)
    ensures Wired(y)
  {
    if y != s {
      if step.Create? {
        AddedWired(s, step.kind, step.id, step.spec);
      } else if step.Connect? {
        ConnectedWired(s, step.operator, step.output);
      }
    }
  }

  // ----- retractions -----

  ghost predicate ReadsRetractions(s: Registry, spec: Spec) {
    exists u {:trigger Retracts(Graph(s), Seeds(s.operators, s.edges), u)} ::
      u in Reads(spec) && Retracts(Graph(s), Seeds(s.operators, s.edges), u)
  }

  ghost predicate FeedsEntry(s: Registry, from: string, e: Entry) {
    e in s.operators && e.kind.Deduplicate? && Reaches(Graph(s), from, s.operators[e].stream)
  }

  ghost predicate FeedsDeduplicate(s: Registry, from: string) {
    exists e :: FeedsEntry(s, from, e)
  }

  /**
   * An operator whose kind is not checked starts to read retractions while its
   * output already leads to a deduplicate.
   */
  ghost predicate Leaks(s: Registry, step: Step) {
    && (TakesOver(s, step) || UpdatesReferences(s, step))
    && !ChecksCollections(step.kind)
    && ReadsRetractions(s, step.spec)
    && FeedsDeduplicate(s, s.edges[step.id].output)
  }

  lemma SeedReachesWith(h: set<(string, string)>, was: set<string>, v: string, t: string, u: string, d: string)
    requires Reaches(h + Into(was, v), t, u) && !Reaches(h, t, u) && Reaches(h, v, d)
    ensures Reaches(h + Into(was, v), t, d)
  {
    ReachedWith(h, was, v, t, u);
    ReachedWith(h, was, v, t, d);
  }

  lemma LeakReaches(s: Registry, kind: Kind, id: string, spec: Spec, e: Entry)
    requires Wired(s) && id in s.edges && !DeduplicateClash(s)
    requires Holder(Added(s, kind, id, spec).operators, id) == Some(kind)
    requires ReadsRetractions(s, spec) && FeedsEntry(s, s.edges[id].output, e)
    ensures Retracts(Graph(Added(s, kind, id, spec)), Seeds(s.operators, s.edges), s.operators[e].stream)
  {
    var h, v, was, seeds := Without(s, id), s.edges[id].output, InputsOf(s.operators)[id], Seeds(s.operators, s.edges);
    var d := s.operators[e].stream;
    Rewired(s, kind, id, spec);
    FromOutput(h, was, v, d);
    var u :| u in Reads(spec) && Retracts(Graph(s), seeds, u);
    var t :| t in seeds && Reaches(Graph(s), t, u);
    if !Reaches(h, t, u) {
      SeedReachesWith(h, was, v, t, u, d);
      assert DeduplicateClashAt(s, e);
      assert false;
    } else {
      assert ReachesSome(h, t, Reads(spec));
      ReachedWith(h, Reads(spec), v, t, d);
    }
  }

  lemma ReachLeaks(s: Registry, kind: Kind, id: string, spec: Spec, e: Entry)
    requires Wired(s) && id in s.edges && !DeduplicateClash(s)
    requires Holder(Added(s, kind, id, spec).operators, id) == Some(kind)
    requires e in s.operators && e.kind.Deduplicate?
    requires Retracts(Graph(Added(s, kind, id, spec)), Seeds(s.operators, s.edges), s.operators[e].stream)
    ensures ReadsRetractions(s, spec) && FeedsEntry(s, s.edges[id].output, e)
  {
    var h, v, was, seeds := Without(s, id), s.edges[id].output, InputsOf(s.operators)[id], Seeds(s.operators, s.edges);
    var d := s.operators[e].stream;
    Rewired(s, kind, id, spec);
    var t :| t in seeds && Reaches(Graph(Added(s, kind, id, spec)), t, d);
    ReachedWith(h, Reads(spec), v, t, d);
    assert !DeduplicateClashAt(s, e);
    if Reaches(h, t, d) {
      More(h, Graph(s), t, d);
      assert false;
    } else {
      var u :| u in Reads(spec) && Reaches(h, t, u);
      More(h, Graph(s), t, u);
      More(h, Graph(s), v, d);
      assert Retracts(Graph(s), seeds, u);
    }
  }

  /** An entry that is neither a collection nor a deduplicate leaves those as they were. */
  lemma SameChecks(s: Registry, kind: Kind, id: string, spec: Spec)
    requires !ChecksCollections(kind)
    ensures Seeds(Added(s, kind, id, spec).operators, s.edges) == Seeds(s.operators, s.edges)
    ensures ModeClash(Added(s, kind, id, spec)) <==> ModeClash(s)
  {
    var y := Added(s, kind, id, spec);
    if ModeClash(s) {
      var e :| ModeClashAt(s, e);
      assert ModeClashAt(y, e);
    }
    if ModeClash(y) {
      var e :| ModeClashAt(y, e);
      assert ModeClashAt(s, e);
    }
  }

  lemma RewiredSound(s: Registry, kind: Kind, id: string, spec: Spec)
    requires Wired(s) && id in s.edges && CollectionsSound(s) && !ChecksCollections(kind)
    requires Holder(Added(s, kind, id, spec).operators, id) == Some(kind)
    ensures CollectionsSound(Added(s, kind, id, spec))
            <==> !(ReadsRetractions(s, spec) && FeedsDeduplicate(s, s.edges[id].output))
  {
    var y, v := Added(s, kind, id, spec), s.edges[id].output;
    SameChecks(s, kind, id, spec);
    if DeduplicateClash(y) {
      var e :| DeduplicateClashAt(y, e);
      ReachLeaks(s, kind, id, spec, e);
    }
    if ReadsRetractions(s, spec) && FeedsDeduplicate(s, v) {
      var e :| FeedsEntry(s, v, e);
      LeakReaches(s, kind, id, spec, e);
      assert DeduplicateClashAt(y, e);
    }
  }

  lemma NotRewiredSound(s: Registry, kind: Kind, id: string, spec: Spec)
    requires Wired(s) && CollectionsSound(s) && !ChecksCollections(kind)
    requires id in s.edges ==> Holder(Added(s, kind, id, spec).operators, id) != Some(kind)
    ensures CollectionsSound(Added(s, kind, id, spec))
  {
    var y := Added(s, kind, id, spec);
    SameChecks(s, kind, id, spec);
    NotRewired(s, kind, id, spec);
    forall e ensures !DeduplicateClashAt(y, e) {
      assert !DeduplicateClashAt(s, e);
    }
  }

  lemma ProcessAnswers(s: Registry, id: string, spec: Spec)
    requires Entry(Collection, id) !in s.operators
    ensures Holder(Added(s, Process, id, spec).operators, id) == Some(Process)
  {
  }

  lemma CreateSound(s: Registry, step: Step, y: Registry)
    requires Wired(s) && CollectionsSound(s) && step.Create? && !ChecksCollections(step.kind)
    requires y == Added(s, step.kind, step.id, step.spec) && Entry(Collection, step.id) !in s.operators
    requires Entry(step.kind, step.id) !in s.operators || step.kind.Process?
    ensures CollectionsSound(y) <==> !Leaks(s, step)
  {
    var kind, id, spec := step.kind, step.id, step.spec;
    ProcessAnswers(s, id, spec);
    if id in s.edges && Holder(y.operators, id) == Some(kind) {
      RewiredSound(s, kind, id, spec);
    } else {
      NotRewiredSound(s, kind, id, spec);
    }
  }

  lemma ExistingSound(s: Registry, step: Step, y: Registry)
    requires step.Create? && !step.kind.Collection? && !step.kind.Process? && Entry(step.kind, step.id) in s.operators
    requires Do(s, step) == Ok(y)
    ensures y == s && !Leaks(s, step)
  {
  }

  lemma AddedEntry(s: Registry, step: Step, y: Registry)
    requires step.Create? && !ChecksCollections(step.kind) && Do(s, step) == Ok(y)
    requires Entry(step.kind, step.id) !in s.operators || step.kind.Process?
    ensures y == Added(s, step.kind, step.id, step.spec) && Entry(Collection, step.id) !in s.operators
  {
    var e := Entry(step.kind, step.id);
    if e in s.operators && s.operators[e] == step.spec {
      assert s.operators[e := step.spec] == s.operators;
    }
  }

  lemma DeclaredSound(s: Registry, step: Step, y: Registry)
    requires CollectionsSound(s) && step.DeclareStream? && Do(s, step) == Ok(y)
    ensures CollectionsSound(y)
  {
    if DeduplicateClash(y) {
      var e :| DeduplicateClashAt(y, e);
      assert DeduplicateClashAt(s, e);
    }
    if ModeClash(y) {
      var e :| ModeClashAt(y, e);
      assert ModeClashAt(s, e);
    }
  }

  /**
   * A step keeps deduplicates off retracting streams, except the unchecked
   * ones: a takeover, or new references for a process, that brings retractions
   * to an output which leads to a deduplicate.
   */
  lemma StepSound(s: Registry, step: Step, y: Registry)
    requires Wired(s) && CollectionsSound(s) && Do(s, step) == Ok(y)
    ensures CollectionsSound(y) <==> !Leaks(s, step)
  {
    if step.Create? && !ChecksCollections(step.kind) {
      if Entry(step.kind, step.id) in s.operators && !step.kind.Process? {
        ExistingSound(s, step, y);
      } else {
        AddedEntry(s, step, y);
        CreateSound(s, step, y);
      }
    } else if step.DeclareStream? {
      DeclaredSound(s, step, y);
    }
  }

  // ----- runs -----

  /** An accepted step happens, a refused one changes nothing. */
  ghost predicate Moves(s: Registry, step: Step, y: Registry) {
    match Do(s, step)
    case Ok(next) => y == next
    case Err(_) => y == s
  }

  ghost predicate Run(states: seq<Registry>, steps: seq<Step>) {
    |states| == |steps| + 1 && forall i :: 0 <= i < |steps| ==> Moves(states[i], steps[i], states[i + 1])
  }

  ghost predicate Looped(s: Registry, step: Step) {
    Do(s, step).Ok? && ClosesLoop(s, step)
  }

  ghost predicate Leaked(s: Registry, step: Step) {
    Do(s, step).Ok? && Leaks(s, step)
  }

  ghost predicate LoopFree(s: Registry) {
    Wired(s) && Acyclic(Graph(s))
  }

  ghost predicate Sound(s: Registry) {
    Wired(s) && CollectionsSound(s)
  }

  lemma MoveAcyclic(s: Registry, step: Step, y: Registry)
    requires LoopFree(s) && Moves(s, step, y)
    ensures LoopFree(y) <==> !Looped(s, step)
  {
    if Do(s, step).Ok? {
      StepAcyclic(s, step, y);
    }
  }

  lemma MoveSound(s: Registry, step: Step, y: Registry)
    requires Sound(s) && Moves(s, step, y)
    ensures Sound(y) <==> !Leaked(s, step)
  {
    if Do(s, step).Ok? {
      StepWired(s, step, y);
      StepSound(s, step, y);
    }
  }

  /** The first `n` steps and the states around them. */
  ghost predicate AllLoopFree(states: seq<Registry>, n: nat)
    requires n < |states|
  {
    (n > 0 ==> AllLoopFree(states, n - 1)) && LoopFree(states[n])
  }

  ghost predicate NoneLooped(states: seq<Registry>, steps: seq<Step>, n: nat)
    requires n <= |steps| < |states|
  {
    n > 0 ==> NoneLooped(states, steps, n - 1) && !Looped(states[n - 1], steps[n - 1])
  }

  ghost predicate AllSound(states: seq<Registry>, n: nat)
    requires n < |states|
  {
    (n > 0 ==> AllSound(states, n - 1)) && Sound(states[n])
  }

  ghost predicate NoneLeaked(states: seq<Registry>, steps: seq<Step>, n: nat)
    requires n <= |steps| < |states|
  {
    n > 0 ==> NoneLeaked(states, steps, n - 1) && !Leaked(states[n - 1], steps[n - 1])
  }

  /** Over any run no loop ever appears, exactly when no step takes an id over and closes one. */
  lemma {:induction false} RunLoopFree(states: seq<Registry>, steps: seq<Step>, n: nat)
    requires Run(states, steps) && LoopFree(states[0]) && n <= |steps|
    ensures AllLoopFree(states, n) <==> NoneLooped(states, steps, n)
    decreases n
  {
    if n > 0 {
      var last := n - 1;
      RunLoopFree(states, steps, last);
      if LoopFree(states[last]) {
        assert Moves(states[last], steps[last], states[last + 1]);
        MoveAcyclic(states[last], steps[last], states[n]);
      }
    }
  }

  /** Over any run no deduplicate reads retractions, exactly when no unchecked step leaks them. */
  lemma {:induction false} RunSound(states: seq<Registry>, steps: seq<Step>, n: nat)
    requires Run(states, steps) && Sound(states[0]) && n <= |steps|
    ensures AllSound(states, n) <==> NoneLeaked(states, steps, n)
    decreases n
  {
    if n > 0 {
      var last := n - 1;
      RunSound(states, steps, last);
      if Sound(states[last]) {
        assert Moves(states[last], steps[last], states[last + 1]);
        MoveSound(states[last], steps[last], states[n]);
      }
    }
  }

  /** An id that no other kind of operator holds is never taken over. */
  lemma FreshIdTakesNothing(s: Registry, step: Step)
    requires Wired(s) && step.Create?
    requires forall k :: k != step.kind ==> Entry(k, step.id) !in s.operators
    ensures !TakesOver(s, step)
  {
    if Entry(step.kind, step.id) !in s.operators {
      forall e | e in s.operators ensures e.id != step.id {
        assert e == Entry(e.kind, e.id);
      }
      assert step.id !in Ids(s.operators);
    }
  }

  ghost predicate FreshIds(states: seq<Registry>, steps: seq<Step>, n: nat)
    requires n <= |steps| < |states|
  {
    forall i :: 0 <= i < n ==> FreshId(states[i], steps[i])
  }

  ghost predicate FreshId(s: Registry, step: Step) {
    step.Create? ==> forall k :: k != step.kind ==> Entry(k, step.id) !in s.operators
  }

  /** With one kind to an id, no run ever stores a loop. */
  lemma {:induction false} DistinctIdsStayLoopFree(states: seq<Registry>, steps: seq<Step>)
    requires Run(states, steps) && LoopFree(states[0]) && FreshIds(states, steps, |steps|)
    ensures AllLoopFree(states, |steps|)
  {
    LoopFreeSoFar(states, steps, |steps|);
  }

  lemma {:induction false} LoopFreeSoFar(states: seq<Registry>, steps: seq<Step>, n: nat)
    requires Run(states, steps) && LoopFree(states[0]) && n <= |steps| && FreshIds(states, steps, n)
    ensures AllLoopFree(states, n)
    decreases n
  {
    if n > 0 {
      var last := n - 1;
      LoopFreeSoFar(states, steps, last);
      assert FreshId(states[last], steps[last]) && Moves(states[last], steps[last], states[last + 1]);
      if steps[last].Create? {
        FreshIdTakesNothing(states[last], steps[last]);
      }
      MoveAcyclic(states[last], steps[last], states[n]);
    }
  }

  // ----- both exceptions occur -----

  lemma NoEdges(s: Registry)
    requires s.edges == map[]
    ensures Graph(s) == {} && LoopFree(s)
  {
    assert Graph(s) == {};
    forall v ensures !OnCycle(Graph(s), v) {
    }
  }

  lemma OnlyHere(v: string, u: string)
    requires v != u
    ensures !Reaches({}, v, u)
  {
    if Reaches({}, v, u) {
      ClosedHolds({}, {v}, v, u);
      assert false;
    }
  }

  /** The graph of a single edge. */
  lemma OneEdge(s: Registry, id: string, a: string, output: string)
    requires s.edges == map[] && id in Ids(s.operators) && InputsOf(s.operators)[id] == {a} && a != output
    ensures LoopFree(Connected(s, id, output))
  {
    NoEdges(s);
    ConnectedGraph(s, id, output);
    OnlyHere(output, a);
    AcyclicWith(Graph(s), {a}, output);
    ConnectedWired(s, id, output);
  }

  lemma OneEntry(id: string, kind: Kind, spec: Spec)
    ensures Ids(map[Entry(kind, id) := spec]) == {id}
    ensures InputsOf(map[Entry(kind, id) := spec])[id] == Reads(spec)
  {
    var operators := map[Entry(kind, id) := spec];
    assert Entry(kind, id) in operators;
    HolderKnows(operators, id);
  }

  const NOTHING := Registry(map[], map[], map[])

  lemma OneStep(states: seq<Registry>, steps: seq<Step>, step: Step, y: Registry)
    requires Run(states, steps) && Do(states[|states| - 1], step) == Ok(y)
    ensures Run(states + [y], steps + [step])
  {
    var more, taken := states + [y], steps + [step];
    forall i | 0 <= i < |taken| ensures Moves(more[i], taken[i], more[i + 1]) {
      if i < |steps| { assert Moves(states[i], steps[i], states[i + 1]); }
    }
  }

  /** A run from the empty registry ends in `y`. */
  ghost predicate Reachable(y: Registry) {
    exists states: seq<Registry>, steps: seq<Step> :: Run(states, steps) && states[0] == NOTHING && states[|states| - 1] == y
  }

  lemma StartReachable()
    ensures Reachable(NOTHING)
  {
    assert Run([NOTHING], []) && [NOTHING][|[NOTHING]| - 1] == NOTHING;
  }

  lemma StepReachable(s: Registry, step: Step, y: Registry)
    requires Reachable(s) && Do(s, step) == Ok(y)
    ensures Reachable(y)
  {
    var states: seq<Registry>, steps: seq<Step> :| Run(states, steps) && states[0] == NOTHING && states[|states| - 1] == s;
    OneStep(states, steps, step, y);
    var more := states + [y];
    assert Run(more, steps + [step]) && more[0] == NOTHING && more[|more| - 1] == y;
  }

  lemma DeclareReachable(s: Registry, name: string)
    requires Reachable(s) && name !in s.streams
    ensures Reachable(s.(streams := s.streams[name := true]))
  {
    StepReachable(s, DeclareStream(name, true), s.(streams := s.streams[name := true]));
  }

  lemma NothingClashes(s: Registry)
    requires s.edges == map[]
    ensures Checked(s) == Ok(s)
  {
    assert Outputs(s.edges) == {} && Seeds(s.operators, s.edges) == {};
  }

  lemma CreateReachable(s: Registry, kind: Kind, id: string, spec: Spec)
    requires Reachable(s) && s.edges == map[] && Reads(spec) <= s.streams.Keys && forall k :: Entry(k, id) !in s.operators
    ensures Reachable(Added(s, kind, id, spec))
  {
    NothingClashes(Added(s, kind, id, spec));
    assert spec.stream in Reads(spec);
    StepReachable(s, Create(kind, id, spec), Added(s, kind, id, spec));
  }

  lemma ConnectReachable(s: Registry, id: string, output: string)
    requires Reachable(s) && !Blank(id) && !Blank(output) && id in Ids(s.operators) && id !in s.edges
    requires !ReachesSome(Graph(s), output, InputsOf(s.operators)[id]) && output in s.streams && s.streams[output]
    requires !WrittenByOther(s.edges, id, output) && Checked(Connected(s, id, output)) == Ok(Connected(s, id, output))
    ensures Reachable(Connected(s, id, output))
  {
    StepReachable(s, Connect(id, output), Connected(s, id, output));
  }

  lemma TwoStreams(a: string, b: string)
    requires a != b
    ensures Reachable(Registry(map[a := true, b := true], map[], map[]))
  {
    StartReachable();
    DeclareReachable(NOTHING, a);
    var s := NOTHING.(streams := NOTHING.streams[a := true]);
    DeclareReachable(s, b);
    assert s.(streams := s.streams[b := true]) == Registry(map[a := true, b := true], map[], map[]);
  }

  /** A filter `x` that reads `a` and forwards to `b`, reached from the empty registry. */
  lemma FilterForwards(a: string, b: string, x: string, bare: Registry)
    requires a != b && !Blank(x) && !Blank(b)
    requires bare == Registry(map[a := true, b := true], map[Entry(Filter, x) := Spec(a, {}, AppendMode, [])], map[])
    ensures Reachable(Connected(bare, x, b)) && LoopFree(Connected(bare, x, b))
  {
    var filter, empty := Spec(a, {}, AppendMode, []), Registry(map[a := true, b := true], map[], map[]);
    TwoStreams(a, b);
    CreateReachable(empty, Filter, x, filter);
    assert Added(empty, Filter, x, filter) == bare;
    OneEntry(x, Filter, filter);
    assert Reads(filter) == {a};
    OneEdge(bare, x, a, b);
    NoEdges(bare);
    OnlyHere(b, a);
    var s := Connected(bare, x, b);
    assert !ModeClash(s) && !DeduplicateClash(s);
    ConnectReachable(bare, x, b);
  }

  /**
   * In a run from the empty registry a filter `x` reads `a` and forwards to
   * `b`. A process may then be created under the id `x` reading `b`, and `b`
   * feeds itself.
   */
  lemma TakeoverClosesALoop(a: string, b: string, x: string) returns (s: Registry, step: Step, y: Registry)
    requires a != b && !Blank(x) && !Blank(b)
    ensures Reachable(s) && LoopFree(s) && Do(s, step) == Ok(y) && Reachable(y) && !LoopFree(y)
  {
    var filter, process := Spec(a, {}, AppendMode, []), Spec(b, {}, AppendMode, []);
    var bare := Registry(map[a := true, b := true], map[Entry(Filter, x) := filter], map[]);
    FilterForwards(a, b, x, bare);
    s := Connected(bare, x, b);
    step := Create(Process, x, process);
    y := Added(s, Process, x, process);
    assert b in Reads(process);
    Here(Graph(s), b);
    assert TakesOver(s, step);
    StepAcyclic(s, step, y);
    StepReachable(s, step, y);
  }

  lemma DeadEnd(g: set<(string, string)>, v: string, u: string)
    requires v != u && forall a, b :: (a, b) in g ==> a != v
    ensures !Reaches(g, v, u)
  {
    if Reaches(g, v, u) {
      ClosedHolds(g, {v}, v, u);
      assert false;
    }
  }

  /** No edge leaves the streams that no operator reads. */
  lemma SoundWhen(s: Registry, d: string, f: string)
    requires Wired(s) && d != f && !ModeClash(s) && Seeds(s.operators, s.edges) == {f}
    requires forall e :: e in s.operators && e.kind.Deduplicate? ==> s.operators[e].stream == d
    requires forall a, b :: (a, b) in Graph(s) ==> a != f
    ensures Sound(s)
  {
    DeadEnd(Graph(s), f, d);
  }

  /** An accepted update whose new reference carries retractions leaks them. */
  lemma UpdateLeaks(s: Registry, p: string, q: string, spec: Spec, d: string, f: string, y: Registry)
    requires Sound(s) && Entry(Process, p) in s.operators && p in s.edges && s.edges[p].output == d
    requires Entry(Deduplicate, q) in s.operators && s.operators[Entry(Deduplicate, q)].stream == d
    requires f in Reads(spec) && f in Seeds(s.operators, s.edges)
    requires Do(s, Create(Process, p, spec)) == Ok(y)
    ensures !Sound(y)
  {
    var step := Create(Process, p, spec);
    Here(Graph(s), f);
    Here(Graph(s), d);
    assert Retracts(Graph(s), Seeds(s.operators, s.edges), f);
    assert FeedsEntry(s, d, Entry(Deduplicate, q));
    assert UpdatesReferences(s, step) && ReadsRetractions(s, spec) && FeedsDeduplicate(s, d);
    assert Leaks(s, step);
    StepSound(s, step, y);
  }

  lemma ThreeEntries(p: string, q: string, n: string, ps: Spec, qs: Spec, ns: Spec) returns (operators: Operators)
    requires p != q && q != n && p != n
    ensures operators == map[Entry(Process, p) := ps, Entry(Deduplicate, q) := qs, Entry(Collection, n) := ns]
    ensures Reads(ps) == {ps.stream} + ps.others && Ids(operators) == {p, q, n}
    ensures InputsOf(operators) == map[p := Reads(ps), q := Reads(qs), n := Reads(ns)]
  {
    operators := map[Entry(Process, p) := ps, Entry(Deduplicate, q) := qs, Entry(Collection, n) := ns];
    assert Entry(Process, p) in operators && Entry(Deduplicate, q) in operators && Entry(Collection, n) in operators;
    assert Ids(operators) == {p, q, n};
  }

  lemma TwoEdges(s: Registry, p: string, n: string, c: string, d: string, e: string, f: string)
    requires p != n && s.edges == map[p := Edge(d, true), n := Edge(f, true)]
    requires p in InputsOf(s.operators) && InputsOf(s.operators)[p] == {c}
    requires n in InputsOf(s.operators) && InputsOf(s.operators)[n] == {e}
    ensures forall a, b :: (a, b) in Graph(s) ==> a == c || a == e
  {
    forall a, b | (a, b) in Graph(s) ensures a == c || a == e {
      FeedsThrough(InputsOf(s.operators), s.edges, a, b);
      var id :| FeedsBy(InputsOf(s.operators), s.edges, id, a, b);
      assert id == p || id == n;
    }
  }

  lemma TwoSources(s: Registry, p: string, q: string, n: string, c: string, d: string, e: string, f: string)
    requires p != q && q != n && p != n && d != f && e != f && d != e
    requires s.edges == map[p := Edge(d, true), n := Edge(f, true)]
    requires s.operators == map[
      Entry(Process, p) := Spec(c, {}, AppendMode, []),
      Entry(Deduplicate, q) := Spec(d, {}, AppendMode, []),
      Entry(Collection, n) := Spec(e, {}, UpsertMode, [])]
    requires Ids(s.operators) == {p, q, n}
    ensures Wired(s) && !ModeClash(s) && Seeds(s.operators, s.edges) == {f}
  {
    var operators := s.operators;
    assert Entry(Collection, n) in operators;
    assert forall k :: k in s.edges ==> k == p || k == n;
    assert e !in Outputs(s.edges);
  }

  /** `p` reads `c` and forwards to `d`, the one stream a deduplicate reads; a collection writes `f`. */
  ghost predicate Prepared(s: Registry, p: string, q: string, c: string, d: string, f: string) {
    && c in s.streams && f in s.streams
    && Entry(Process, p) in s.operators && s.operators[Entry(Process, p)] == Spec(c, {}, AppendMode, [])
    && Entry(Collection, p) !in s.operators
    && Entry(Deduplicate, q) in s.operators && s.operators[Entry(Deduplicate, q)].stream == d
    && p in s.edges && s.edges[p].output == d
    && Seeds(s.operators, s.edges) == {f}
    && Sound(s)
    && (forall a, b :: (a, b) in Graph(s) ==> a != d && a != f)
  }

  ghost function Built(p: string, q: string, n: string, c: string, d: string, e: string, f: string): Registry {
    Registry(
      map[c := true, d := true, e := true, f := true],
      map[Entry(Process, p) := Spec(c, {}, AppendMode, []),
          Entry(Deduplicate, q) := Spec(d, {}, AppendMode, []),
          Entry(Collection, n) := Spec(e, {}, UpsertMode, [])],
      map[p := Edge(d, true), n := Edge(f, true)])
  }

  lemma Prepare(p: string, q: string, n: string, c: string, d: string, e: string, f: string) returns (s: Registry)
    requires p != q && q != n && p != n
    requires c != d && d != f && d != e && c != f && e != f
    ensures Prepared(s, p, q, c, d, f) && s == Built(p, q, n, c, d, e, f)
  {
    var operators := ThreeEntries(p, q, n, Spec(c, {}, AppendMode, []), Spec(d, {}, AppendMode, []), Spec(e, {}, UpsertMode, []));
    s := Registry(map[c := true, d := true, e := true, f := true], operators, map[p := Edge(d, true), n := Edge(f, true)]);
    TwoEdges(s, p, n, c, d, e, f);
    TwoSources(s, p, q, n, c, d, e, f);
    SoundWhen(s, d, f);
  }

  lemma FourStreams(c: string, d: string, e: string, f: string)
    requires c != d && d != f && d != e && c != f && e != f && c != e
    ensures Reachable(Registry(map[c := true, d := true, e := true, f := true], map[], map[]))
  {
    TwoStreams(c, d);
    var s := Registry(map[c := true, d := true], map[], map[]);
    DeclareReachable(s, e);
    var t := s.(streams := s.streams[e := true]);
    DeclareReachable(t, f);
    assert t.(streams := t.streams[f := true]) == Registry(map[c := true, d := true, e := true, f := true], map[], map[]);
  }

  lemma ThreeCreated(streams: map<string, bool>, p: string, q: string, n: string, ps: Spec, qs: Spec, ns: Spec)
    requires p != q && q != n && p != n && Reachable(Registry(streams, map[], map[]))
    requires Reads(ps) <= streams.Keys && Reads(qs) <= streams.Keys && Reads(ns) <= streams.Keys
    ensures Reachable(Registry(streams, map[Entry(Process, p) := ps, Entry(Deduplicate, q) := qs, Entry(Collection, n) := ns], map[]))
  {
    var s0 := Registry(streams, map[], map[]);
    CreateReachable(s0, Process, p, ps);
    var s1 := Added(s0, Process, p, ps);
    CreateReachable(s1, Deduplicate, q, qs);
    var s2 := Added(s1, Deduplicate, q, qs);
    CreateReachable(s2, Collection, n, ns);
    assert Added(s2, Collection, n, ns)
        == Registry(streams, map[Entry(Process, p) := ps, Entry(Deduplicate, q) := qs, Entry(Collection, n) := ns], map[]);
  }

  /** With only `p` connected no collection writes yet, so nothing clashes. */
  lemma FirstConnected(bare: Registry, p: string, d: string)
    requires Reachable(bare) && bare.edges == map[] && p in Ids(bare.operators) && !Blank(p) && !Blank(d)
    requires d in bare.streams && bare.streams[d] && d !in InputsOf(bare.operators)[p] && Entry(Collection, p) !in bare.operators
    requires forall e :: e in bare.operators && e.kind.Collection? ==> bare.operators[e].stream != d
    ensures Reachable(Connected(bare, p, d))
  {
    var s := Connected(bare, p, d);
    NoEdges(bare);
    forall u | u in InputsOf(bare.operators)[p] ensures !Reaches(Graph(bare), d, u) {
      OnlyHere(d, u);
    }
    assert Seeds(s.operators, s.edges) == {};
    assert forall k :: k in s.edges ==> k == p;
    assert !ModeClash(s) && !DeduplicateClash(s);
    ConnectReachable(bare, p, d);
  }

  lemma SecondConnected(s: Registry, bare: Registry, p: string, n: string, d: string, f: string, e: string)
    requires Reachable(Connected(bare, p, d)) && bare.edges == map[] && s == Connected(Connected(bare, p, d), n, f)
    requires p != n && d != f && e != f && !Blank(n) && !Blank(f) && f in bare.streams && bare.streams[f]
    requires p in Ids(bare.operators) && n in Ids(bare.operators) && InputsOf(bare.operators)[n] == {e}
    requires f !in InputsOf(bare.operators)[p] && Sound(s)
    ensures Reachable(s)
  {
    var mid := Connected(bare, p, d);
    NoEdges(bare);
    ConnectedGraph(bare, p, d);
    forall a, b | (a, b) in Graph(mid) ensures a != f {
      IntoArc(InputsOf(bare.operators)[p], d, a, b);
    }
    DeadEnd(Graph(mid), f, e);
    assert !WrittenByOther(mid.edges, n, f);
    ConnectReachable(mid, n, f);
  }

  lemma IntoArc(from: set<string>, to: string, a: string, b: string)
    requires (a, b) in {} + Into(from, to)
    ensures a in from && b == to
  {
  }

  /** What `Prepare` builds, reached by steps. */
  lemma PreparedReachable(s: Registry, p: string, q: string, n: string, c: string, d: string, e: string, f: string)
    requires p != q && q != n && p != n && !Blank(p) && !Blank(n) && !Blank(d) && !Blank(f)
    requires c != d && d != f && d != e && c != f && e != f && c != e
    requires s == Built(p, q, n, c, d, e, f) && Sound(s)
    ensures Reachable(s)
  {
    var ps, qs, ns := Spec(c, {}, AppendMode, []), Spec(d, {}, AppendMode, []), Spec(e, {}, UpsertMode, []);
    var streams := map[c := true, d := true, e := true, f := true];
    var operators := ThreeEntries(p, q, n, ps, qs, ns);
    FourStreams(c, d, e, f);
    assert Reads(ps) == {c} && Reads(qs) == {d} && Reads(ns) == {e};
    ThreeCreated(streams, p, q, n, ps, qs, ns);
    var bare := Registry(streams, operators, map[]);
    FirstConnected(bare, p, d);
    assert s == Connected(Connected(bare, p, d), n, f);
    SecondConnected(s, bare, p, n, d, f, e);
  }

  /**
   * In a run from the empty registry a process `p` forwards to `d`, which a
   * deduplicate `q` reads. Giving `p` the output `f` of a collection `n` as a
   * reference is accepted, and `d` then carries retractions.
   */
  lemma ReferencesLeakRetractions(p: string, q: string, n: string, c: string, d: string, e: string, f: string)
    returns (s: Registry, step: Step, y: Registry)
    requires p != q && q != n && p != n && !Blank(p) && !Blank(n) && !Blank(d) && !Blank(f)
    requires c != d && d != f && d != e && c != f && e != f && c != e
    ensures Reachable(s) && Sound(s) && Do(s, step) == Ok(y) && Reachable(y) && !Sound(y)
  {
    s := Prepare(p, q, n, c, d, e, f);
    PreparedReachable(s, p, q, n, c, d, e, f);
    var spec := Spec(c, {f}, AppendMode, []);
    DeadEnd(Graph(s), d, c);
    DeadEnd(Graph(s), d, f);
    step := Create(Process, p, spec);
    y := Added(s, Process, p, spec);
    UpdateLeaks(s, p, q, spec, d, f, y);
    StepReachable(s, step, y);
  }
}
