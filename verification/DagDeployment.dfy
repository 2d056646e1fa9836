/**
 * Deploying a plan: its operators are created, then their outputs connected,
 * over the registry's steps. The checks made on the plan alone decide exactly
 * whether the registry accepts all of it.
 */
module DagDeployment {

  import opened Wrappers
  import opened Text
  import opened Dataflow
  import opened Wiring
  import opened OperatorRegistry
  import P = DagPlan
  import R = RegistryRuns

  type Outcome = Result<Registry, Refusal>

  function CreateStep(plan: P.Plan, id: string): Step
    requires id in plan.operators
  {
    Create(plan.operators[id].kind, id, plan.operators[id].spec)
  }

  function ConnectStep(plan: P.Plan, id: string): Step
    requires id in plan.outputs
  {
    Connect(id, plan.outputs[id])
  }

  ghost predicate Within(ids: seq<string>, all: set<string>) {
    forall i :: 0 <= i < |ids| ==> ids[i] in all
  }

  ghost predicate Covers(ids: seq<string>, all: set<string>) {
    forall id :: id in all <==> id in ids
  }

  /** The operators are created one after another; the first refusal ends it. */
  ghost function CreateAll(s: Registry, plan: P.Plan, ids: seq<string>): Outcome
    requires Within(ids, plan.operators.Keys)
    decreases |ids|
  {
    if ids == [] then Ok(s)
    else match CreateAll(s, plan, ids[..|ids| - 1])
      case Ok(y) => Do(y, CreateStep(plan, ids[|ids| - 1]))
      case Err(e) => Err(e)
  }

  ghost function ConnectAll(s: Registry, plan: P.Plan, ids: seq<string>): Outcome
    requires Within(ids, plan.outputs.Keys)
    decreases |ids|
  {
    if ids == [] then Ok(s)
    else match ConnectAll(s, plan, ids[..|ids| - 1])
      case Ok(y) => Do(y, ConnectStep(plan, ids[|ids| - 1]))
      case Err(e) => Err(e)
  }

  /** Whole deployment, operators in the order `ids` and edges in the order `outs`. */
  ghost function Deploy(s: Registry, plan: P.Plan, ids: seq<string>, outs: seq<string>): Outcome
    requires Within(ids, plan.operators.Keys) && Within(outs, plan.outputs.Keys)
  {
    match CreateAll(s, plan, ids)
    case Ok(y) => ConnectAll(y, plan, outs)
    case Err(e) => Err(e)
  }

  /** The plan's streams are there, with its settings where it gives them. */
  ghost predicate StreamsReady(s: Registry, plan: P.Plan) {
    && (forall name :: name in plan.streams ==> name in s.streams)
    && forall name :: P.HasOptions(plan, name) ==> s.streams[name] == P.Managed(plan, name)
  }

  /** No operator or edge is stored yet. */
  ghost predicate Ready(s: Registry, plan: P.Plan) {
    s.operators == map[] && s.edges == map[] && StreamsReady(s, plan)
  }

  /** What the collecting object keeps, with names as the specifications require them. */
  ghost predicate Collected(plan: P.Plan) {
    && P.Consistent(plan)
    && !Stripped(plan.name)
    && (forall id :: id in plan.operators ==> !Stripped(id) && P.ReadsOf(plan, id) <= plan.streams.Keys)
    && (forall id :: id in plan.outputs ==> !Stripped(plan.outputs[id]))
  }

  // ----- creating the operators -----

  ghost predicate IsEntry(plan: P.Plan, ids: set<string>, e: Entry) {
    e.id in ids && e.id in plan.operators && plan.operators[e.id].kind == e.kind
  }

  /** Exactly the plan's operators among `ids` are registered. */
  ghost predicate Holds(operators: Operators, plan: P.Plan, ids: set<string>) {
    && (forall e :: e in operators <==> IsEntry(plan, ids, e))
    && forall e :: e in operators ==> operators[e] == plan.operators[e.id].spec
  }

  lemma CreateOne(s: Registry, plan: P.Plan, ids: set<string>, id: string)
    requires Collected(plan) && id in plan.operators && s.edges == map[]
    requires forall name :: name in plan.streams ==> name in s.streams
    requires Holds(s.operators, plan, ids)
    ensures Do(s, CreateStep(plan, id)) == Ok(Added(s, plan.operators[id].kind, id, plan.operators[id].spec))
    ensures Holds(Added(s, plan.operators[id].kind, id, plan.operators[id].spec).operators, plan, ids + {id})
  {
    var kind, spec := plan.operators[id].kind, plan.operators[id].spec;
    var y := Added(s, kind, id, spec);
    R.NothingClashes(y);
    forall k | k != kind ensures Entry(k, id) !in s.operators {
      assert !IsEntry(plan, ids, Entry(k, id));
    }
    assert P.ReadsOf(plan, id) <= plan.streams.Keys && spec.stream in Reads(spec);
    if Entry(kind, id) in s.operators {
      assert s.operators[Entry(kind, id) := spec] == s.operators;
    }
  }

  ghost function Named(ids: seq<string>): set<string> {
    set id | id in ids
  }

  lemma NamedLast(ids: seq<string>)
    requires |ids| > 0
    ensures Named(ids) == Named(ids[..|ids| - 1]) + {ids[|ids| - 1]}
  {
    var last := |ids| - 1;
    assert ids == ids[..last] + [ids[last]];
  }

  lemma {:induction false} Creates(s: Registry, plan: P.Plan, ids: seq<string>) returns (y: Registry)
    requires Collected(plan) && Ready(s, plan) && Within(ids, plan.operators.Keys)
    ensures CreateAll(s, plan, ids) == Ok(y)
    ensures y.streams == s.streams && y.edges == map[]
    ensures Holds(y.operators, plan, Named(ids))
    decreases |ids|
  {
    if ids == [] {
      y := s;
    } else {
      var id, rest := ids[|ids| - 1], ids[..|ids| - 1];
      var prev := Creates(s, plan, rest);
      CreateOne(prev, plan, Named(rest), id);
      NamedLast(ids);
      y := Added(prev, plan.operators[id].kind, id, plan.operators[id].spec);
    }
  }

  // ----- the plan's graph and the registry's -----

  lemma SameInputs(operators: Operators, plan: P.Plan)
    requires Holds(operators, plan, plan.operators.Keys)
    ensures InputsOf(operators) == P.InputsOf(plan)
  {
    forall id ensures id in Ids(operators) <==> id in plan.operators {
      if id in plan.operators {
        assert IsEntry(plan, plan.operators.Keys, Entry(plan.operators[id].kind, id));
      }
    }
    forall id | id in plan.operators ensures InputsOf(operators)[id] == P.InputsOf(plan)[id] {
      HolderKnows(operators, id);
      assert Holder(operators, id) == Some(plan.operators[id].kind);
    }
  }

  ghost function EdgesFor(plan: P.Plan, ids: set<string>): Edges
    requires ids <= plan.outputs.Keys
  {
    map id | id in ids :: Edge(plan.outputs[id], true)
  }

  /** All the operators are registered, and the outputs of `ids` are connected. */
  ghost predicate Wires(s: Registry, plan: P.Plan, ids: set<string>) {
    && ids <= plan.outputs.Keys && P.Consistent(plan)
    && StreamsReady(s, plan)
    && Holds(s.operators, plan, plan.operators.Keys)
    && s.edges == EdgesFor(plan, ids)
  }

  lemma SubGraph(s: Registry, plan: P.Plan, ids: set<string>)
    requires Wires(s, plan, ids)
    ensures Graph(s) <= P.Graph(plan)
    ensures Seeds(s.operators, s.edges) <= P.Seeds(plan)
    ensures ids == plan.outputs.Keys ==> Graph(s) == P.Graph(plan) && Seeds(s.operators, s.edges) == P.Seeds(plan)
  {
    SameInputs(s.operators, plan);
    forall k | k in s.edges ensures k in P.EdgesOf(plan) && P.EdgesOf(plan)[k] == s.edges[k] {
    }
    forall k | k in plan.outputs
      ensures Entry(Collection, k) in s.operators <==> k in plan.operators && plan.operators[k].kind.Collection?
    {
      assert Entry(Collection, k) in s.operators <==> IsEntry(plan, plan.operators.Keys, Entry(Collection, k));
    }
    forall k | k in Seeds(s.operators, s.edges) ensures k in P.Seeds(plan) {
    }
    if ids == plan.outputs.Keys {
      assert s.edges == P.EdgesOf(plan);
    }
  }

  lemma RetractsMore(g: set<(string, string)>, h: set<(string, string)>, seeds: set<string>, more: set<string>, d: string)
    requires g <= h && seeds <= more && Retracts(g, seeds, d)
    ensures Retracts(h, more, d)
  {
    var t :| t in seeds && Reaches(g, t, d);
    More(g, h, t, d);
  }

  /** A clash of the registry is one of the plan, and with every edge in, the reverse. */
  lemma Clashes(s: Registry, plan: P.Plan, ids: set<string>, e: Entry)
    requires Wires(s, plan, ids)
    ensures ModeClashAt(s, e) ==> P.ModeClash(plan, e.id)
    ensures DeduplicateClashAt(s, e) ==> P.DeduplicateClash(plan, e.id)
  {
    SubGraph(s, plan, ids);
    assert e in s.operators <==> IsEntry(plan, plan.operators.Keys, e);
    if DeduplicateClashAt(s, e) {
      RetractsMore(Graph(s), P.Graph(plan), Seeds(s.operators, s.edges), P.Seeds(plan), s.operators[e].stream);
    }
  }

  lemma ClashesAll(s: Registry, plan: P.Plan, id: string)
    requires Wires(s, plan, plan.outputs.Keys) && id in plan.operators
    ensures P.ModeClash(plan, id) ==> ModeClashAt(s, Entry(plan.operators[id].kind, id))
    ensures P.DeduplicateClash(plan, id) ==> DeduplicateClashAt(s, Entry(plan.operators[id].kind, id))
  {
    var e := Entry(plan.operators[id].kind, id);
    SubGraph(s, plan, plan.outputs.Keys);
    assert e in s.operators <==> IsEntry(plan, plan.operators.Keys, e);
    if P.ModeClash(plan, id) {
      var k :| k in plan.outputs && plan.outputs[k] == plan.operators[id].spec.stream;
      assert k in s.edges && s.edges[k].output == s.operators[e].stream;
    }
  }

  lemma NoLoop(s: Registry, plan: P.Plan, ids: set<string>, id: string)
    requires Wires(s, plan, ids) && Acyclic(P.Graph(plan)) && id in plan.outputs
    ensures id in InputsOf(s.operators) && !ReachesSome(Graph(s), plan.outputs[id], InputsOf(s.operators)[id])
  {
    var output, g := plan.outputs[id], P.Graph(plan);
    SubGraph(s, plan, ids);
    SameInputs(s.operators, plan);
    if ReachesSome(Graph(s), output, InputsOf(s.operators)[id]) {
      var t :| t in InputsOf(s.operators)[id] && Reaches(Graph(s), output, t);
      More(Graph(s), g, output, t);
      assert FeedsBy(P.InputsOf(plan), P.EdgesOf(plan), id, t, output);
      FeedsThrough(P.InputsOf(plan), P.EdgesOf(plan), t, output);
      ClosesLoop(g, t, output);
      assert false;
    }
  }

  /** The stream is there and source-managed, and one operator writes it. */
  ghost predicate OutputServed(streams: map<string, bool>, plan: P.Plan, id: string) {
    id in plan.outputs ==> plan.outputs[id] in streams && streams[plan.outputs[id]] && !P.Shared(plan, plan.outputs[id])
  }

  /** What the server demands of a plan whose streams are `streams`. */
  ghost predicate Servable(streams: map<string, bool>, plan: P.Plan) {
    && (forall id :: OutputServed(streams, plan, id))
    && P.CollectionsSound(plan) && Acyclic(P.Graph(plan))
  }

  lemma OnlyWriter(s: Registry, plan: P.Plan, ids: set<string>, id: string)
    requires Wires(s, plan, ids) && OutputServed(s.streams, plan, id) && id in plan.outputs
    ensures !WrittenByOther(s.edges, id, plan.outputs[id])
    ensures id in s.edges ==> s.edges[id].output == plan.outputs[id]
  {
    assert !P.Shared(plan, plan.outputs[id]);
  }

  lemma OneMoreEdge(s: Registry, plan: P.Plan, ids: set<string>, id: string)
    requires Wires(s, plan, ids) && id in plan.outputs
    ensures Wires(Connected(s, id, plan.outputs[id]), plan, ids + {id})
    ensures id in s.edges ==> Connected(s, id, plan.outputs[id]) == s
  {
    if id in s.edges {
      assert s.edges[id := Edge(plan.outputs[id], true)] == s.edges;
    }
  }

  lemma NoClashes(s: Registry, plan: P.Plan, ids: set<string>)
    requires Wires(s, plan, ids) && P.CollectionsSound(plan)
    ensures Checked(s) == Ok(s)
  {
    forall e ensures !ModeClashAt(s, e) && !DeduplicateClashAt(s, e) {
      Clashes(s, plan, ids, e);
    }
  }

  lemma Accepted(s: Registry, id: string, output: string)
    requires !Blank(id) && !Blank(output) && id in InputsOf(s.operators)
    requires !ReachesSome(Graph(s), output, InputsOf(s.operators)[id])
    requires output in s.streams && s.streams[output] && !WrittenByOther(s.edges, id, output)
    requires id in s.edges ==> s.edges[id].output == output && Connected(s, id, output) == s
    requires Checked(Connected(s, id, output)) == Ok(Connected(s, id, output))
    ensures Do(s, Connect(id, output)) == Ok(Connected(s, id, output))
  {
  }

  /** Every edge of a servable plan is accepted, whichever edges are in. */
  lemma ConnectOne(s: Registry, plan: P.Plan, ids: set<string>, id: string)
    requires Wires(s, plan, ids) && Servable(s.streams, plan) && Collected(plan) && id in plan.outputs
    ensures Do(s, ConnectStep(plan, id)) == Ok(Connected(s, id, plan.outputs[id]))
  {
    assert OutputServed(s.streams, plan, id);
    NoLoop(s, plan, ids, id);
    OnlyWriter(s, plan, ids, id);
    OneMoreEdge(s, plan, ids, id);
    NoClashes(Connected(s, id, plan.outputs[id]), plan, ids + {id});
    StrippedCoversBlank(id);
    StrippedCoversBlank(plan.outputs[id]);
    Accepted(s, id, plan.outputs[id]);
  }

  lemma {:induction false} Connects(s: Registry, plan: P.Plan, ids: seq<string>) returns (y: Registry)
    requires Wires(s, plan, {}) && Servable(s.streams, plan) && Collected(plan) && Within(ids, plan.outputs.Keys)
    ensures ConnectAll(s, plan, ids) == Ok(y) && Wires(y, plan, Named(ids)) && y.streams == s.streams
    decreases |ids|
  {
    if ids == [] {
      y := s;
    } else {
      var id, rest := ids[|ids| - 1], ids[..|ids| - 1];
      var prev := Connects(s, plan, rest);
      ConnectOne(prev, plan, Named(rest), id);
      OneMoreEdge(prev, plan, Named(rest), id);
      NamedLast(ids);
      y := Connected(prev, id, plan.outputs[id]);
    }
  }

  // ----- what an accepted deployment shows about the plan -----

  ghost predicate OutputsManaged(s: Registry, plan: P.Plan, ids: set<string>)
    requires ids <= plan.outputs.Keys
  {
    forall id :: id in ids ==> plan.outputs[id] in s.streams && s.streams[plan.outputs[id]]
  }

  ghost predicate Kept(s: Registry, plan: P.Plan, ids: set<string>) {
    Wires(s, plan, ids) && OutputsManaged(s, plan, ids) && R.LoopFree(s) && R.Sound(s)
  }

  lemma ConnectedIs(s: Registry, id: string, output: string, y: Registry)
    requires Do(s, Connect(id, output)) == Ok(y)
    requires id in s.edges ==> Connected(s, id, output) == s
    ensures y == Connected(s, id, output) && output in s.streams && s.streams[output]
  {
  }

  lemma ConnectKeeps(s: Registry, id: string, output: string, y: Registry)
    requires R.LoopFree(s) && R.Sound(s) && Do(s, Connect(id, output)) == Ok(y)
    ensures R.LoopFree(y) && R.Sound(y)
  {
    R.StepAcyclic(s, Connect(id, output), y);
    R.StepSound(s, Connect(id, output), y);
  }

  lemma ManagedMore(s: Registry, y: Registry, plan: P.Plan, ids: set<string>, id: string)
    requires id in plan.outputs && ids <= plan.outputs.Keys && y.streams == s.streams
    requires OutputsManaged(s, plan, ids) && plan.outputs[id] in s.streams && s.streams[plan.outputs[id]]
    ensures OutputsManaged(y, plan, ids + {id})
  {
  }

  lemma AcceptedOne(s: Registry, plan: P.Plan, ids: set<string>, id: string, y: Registry)
    requires Kept(s, plan, ids) && id in plan.outputs && Do(s, ConnectStep(plan, id)) == Ok(y)
    ensures Kept(y, plan, ids + {id}) && y.streams == s.streams
  {
    ConnectKeeps(s, id, plan.outputs[id], y);
    OneMoreEdge(s, plan, ids, id);
    ConnectedIs(s, id, plan.outputs[id], y);
    ManagedMore(s, y, plan, ids, id);
  }

  lemma {:induction false} AcceptedAll(s: Registry, plan: P.Plan, ids: seq<string>, y: Registry)
    requires Kept(s, plan, {}) && Within(ids, plan.outputs.Keys) && ConnectAll(s, plan, ids) == Ok(y)
    ensures Kept(y, plan, Named(ids)) && y.streams == s.streams
    decreases |ids|
  {
    if ids != [] {
      var id, rest := ids[|ids| - 1], ids[..|ids| - 1];
      var prev := ConnectAll(s, plan, rest).value;
      AcceptedAll(s, plan, rest, prev);
      AcceptedOne(prev, plan, Named(rest), id, y);
      NamedLast(ids);
    }
  }

  lemma KeptIsServable(y: Registry, plan: P.Plan)
    requires Collected(plan) && Kept(y, plan, plan.outputs.Keys)
    ensures Servable(y.streams, plan)
  {
    SubGraph(y, plan, plan.outputs.Keys);
    forall id ensures !P.ModeClash(plan, id) && !P.DeduplicateClash(plan, id) {
      if id in plan.operators {
        ClashesAll(y, plan, id);
        assert !ModeClashAt(y, Entry(plan.operators[id].kind, id));
        assert !DeduplicateClashAt(y, Entry(plan.operators[id].kind, id));
      }
    }
    forall id ensures OutputServed(y.streams, plan, id) {
      forall j, k | j in plan.outputs && k in plan.outputs && plan.outputs[j] == plan.outputs[k] ensures j == k {
        assert y.edges[j].output == y.edges[k].output;
      }
    }
  }

  /** Every output stream has explicit options. */
  ghost predicate Declared(plan: P.Plan) {
    forall id :: id in plan.outputs ==> P.HasOptions(plan, plan.outputs[id])
  }

  /** The client asks one thing more than the server: explicit options for every output stream. */
  lemma ClientAsksMore(s: Registry, plan: P.Plan)
    requires Collected(plan) && StreamsReady(s, plan)
    ensures P.WellFormed(plan) <==> Servable(s.streams, plan) && Declared(plan)
  {
    if P.WellFormed(plan) {
      forall id ensures OutputServed(s.streams, plan, id) {
        if id in plan.outputs { assert P.Managed(plan, plan.outputs[id]) && !P.Shared(plan, plan.outputs[id]); }
      }
    }
    if Servable(s.streams, plan) && Declared(plan) {
      forall id | id in plan.outputs ensures P.Managed(plan, plan.outputs[id]) && !P.Shared(plan, plan.outputs[id]) {
        assert OutputServed(s.streams, plan, id) && P.HasOptions(plan, plan.outputs[id]);
      }
    }
  }

  lemma CreatedIsKept(s: Registry, plan: P.Plan)
    requires P.Consistent(plan) && StreamsReady(s, plan) && s.edges == map[]
    requires Holds(s.operators, plan, plan.operators.Keys)
    ensures Kept(s, plan, {})
  {
    R.NoEdges(s);
    R.NothingClashes(s);
    assert s.edges == EdgesFor(plan, {});
  }

  /**
   * In whatever order the operators are created and then the outputs
   * connected, a registry with the plan's streams accepts everything exactly
   * when the plan is servable, and the client accepts it exactly when besides
   * every output stream has explicit options. The registry then holds just the
   * plan's operators and edges, free of loops and with no deduplicate reading
   * retractions.
   */
  lemma DeployedExactlyWhen(s: Registry, plan: P.Plan, ids: seq<string>, outs: seq<string>)
    requires Collected(plan) && Ready(s, plan)
    requires Within(ids, plan.operators.Keys) && Named(ids) == plan.operators.Keys
    requires Within(outs, plan.outputs.Keys) && Named(outs) == plan.outputs.Keys
    ensures Deploy(s, plan, ids, outs).Ok? <==> Servable(s.streams, plan)
    ensures P.WellFormed(plan) <==> Deploy(s, plan, ids, outs).Ok? && Declared(plan)
    ensures Deploy(s, plan, ids, outs).Ok? ==> Kept(Deploy(s, plan, ids, outs).value, plan, plan.outputs.Keys)
  {
    var created := Creates(s, plan, ids);
    CreatedIsKept(created, plan);
    ClientAsksMore(s, plan);
    if Servable(s.streams, plan) {
      var y := Connects(created, plan, outs);
    }
    var end := ConnectAll(created, plan, outs);
    if end.Ok? {
      AcceptedAll(created, plan, outs, end.value);
      KeptIsServable(end.value, plan);
    }
  }
}
