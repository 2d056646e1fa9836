/** The client's description of a dataflow graph and the checks made before it is deployed. */
module DagPlan {

  import opened Wrappers
  import opened Text
  import opened Dataflow
  import opened Wiring
  import opened CycleSearch
  import Registered = OperatorRegistry

  datatype Options = Options(sourceManaged: bool, other: string)

  datatype Declaration = Declaration(options: Option<Options>, inferred: bool)

  datatype Operator = Declared(kind: Registered.Kind, spec: Registered.Spec)

  datatype Plan = Plan(
    name: string,
    streams: map<string, Declaration>,
    operators: map<string, Operator>,
    outputs: map<string, string>)

  datatype Problem =
    | BlankName
    | ConflictingStream(stream: string)
    | ConflictingOperator(id: string)
    | BlankOutput
    | SharedOutput(stream: string)
    | UndeclaredOutput(stream: string)
    | NotSourceManaged(stream: string)
    | NeedsRetractMode(id: string)
    | RetractsIntoDeduplicate(id: string)
    | Cycle

  function ReadsOf(plan: Plan, id: string): set<string>
    requires id in plan.operators
  {
    Registered.Reads(plan.operators[id].spec)
  }

  function InputsOf(plan: Plan): Inputs {
    map id | id in plan.operators.Keys :: ReadsOf(plan, id)
  }

  function EdgesOf(plan: Plan): Edges {
    map id | id in plan.outputs.Keys :: Edge(plan.outputs[id], true)
  }

  ghost function Graph(plan: Plan): set<(string, string)> {
    Feeds(InputsOf(plan), EdgesOf(plan))
  }

  function Seeds(plan: Plan): set<string> {
    set id | id in plan.outputs.Keys && id in plan.operators && plan.operators[id].kind.Collection? :: plan.outputs[id]
  }

  // ----- what makes a plan acceptable -----

  ghost predicate Shared(plan: Plan, stream: string) {
    exists j, k :: j in plan.outputs && k in plan.outputs && j != k
                   && plan.outputs[j] == stream && plan.outputs[k] == stream
  }

  predicate HasOptions(plan: Plan, stream: string) {
    stream in plan.streams && plan.streams[stream].options.Some?
  }

  predicate Managed(plan: Plan, stream: string) {
    HasOptions(plan, stream) && plan.streams[stream].options.value.sourceManaged
  }

  predicate ModeClash(plan: Plan, id: string) {
    && id in plan.operators && plan.operators[id].kind.Collection?
    && !plan.operators[id].spec.mode.RetractMode?
    && plan.operators[id].spec.stream in plan.outputs.Values
  }

  ghost predicate DeduplicateClash(plan: Plan, id: string) {
    && id in plan.operators && plan.operators[id].kind.Deduplicate?
    && Retracts(Graph(plan), Seeds(plan), plan.operators[id].spec.stream)
  }

  ghost predicate OutputsSound(plan: Plan) {
    forall id :: id in plan.outputs ==> Managed(plan, plan.outputs[id]) && !Shared(plan, plan.outputs[id])
  }

  ghost predicate CollectionsSound(plan: Plan) {
    forall id :: !ModeClash(plan, id) && !DeduplicateClash(plan, id)
  }

  /** The plan has a name, sound outputs and collections, and no stream feeds itself. */
  ghost predicate WellFormed(plan: Plan) {
    !Stripped(plan.name) && OutputsSound(plan) && CollectionsSound(plan) && Acyclic(Graph(plan))
  }

  /** The reported problem is there. */
  ghost predicate Present(plan: Plan, problem: Problem) {
    match problem
    case BlankName => Stripped(plan.name)
    case SharedOutput(stream) => stream in plan.outputs.Values && Shared(plan, stream)
    case UndeclaredOutput(stream) => stream in plan.outputs.Values && !HasOptions(plan, stream)
    case NotSourceManaged(stream) => stream in plan.outputs.Values && HasOptions(plan, stream) && !Managed(plan, stream)
    case NeedsRetractMode(id) => ModeClash(plan, id)
    case RetractsIntoDeduplicate(id) => DeduplicateClash(plan, id)
    case Cycle => !Acyclic(Graph(plan))
    case _ => false
  }

  lemma PresentSpoils(plan: Plan, problem: Problem)
    requires Present(plan, problem)
    ensures !WellFormed(plan)
  {
    if problem.SharedOutput? || problem.UndeclaredOutput? || problem.NotSourceManaged? {
      var id :| id in plan.outputs && plan.outputs[id] == problem.stream;
      assert !(Managed(plan, plan.outputs[id]) && !Shared(plan, plan.outputs[id]));
    }
  }

  // ----- the operator and stream nodes -----

  /** The arcs that the operators in `ids` bring: inputs lead to them, they lead to their output. */
  ghost predicate ArcOf(plan: Plan, ids: set<string>, n: Node, m: Node) {
    match n
    case Stream(a) => m.Operator? && m.id in ids && m.id in plan.operators && a in ReadsOf(plan, m.id)
    case Operator(id) => m.Stream? && id in ids && id in plan.outputs && plan.outputs[id] == m.name
  }

  ghost predicate NodeGraph(plan: Plan, g: set<(Node, Node)>) {
    forall n, m :: (n, m) in g <==> ArcOf(plan, plan.operators.Keys, n, m)
  }

  ghost predicate Consistent(plan: Plan) {
    plan.outputs.Keys <= plan.operators.Keys
  }

  lemma StepUp(plan: Plan, g: set<(Node, Node)>, a: string, b: string)
    requires NodeGraph(plan, g) && Consistent(plan) && (a, b) in Graph(plan)
    ensures exists id :: (Stream(a), CycleSearch.Operator(id)) in g && (CycleSearch.Operator(id), Stream(b)) in g
  {
    FeedsThrough(InputsOf(plan), EdgesOf(plan), a, b);
    var id :| FeedsBy(InputsOf(plan), EdgesOf(plan), id, a, b);
    assert ArcOf(plan, plan.operators.Keys, Stream(a), CycleSearch.Operator(id));
    assert ArcOf(plan, plan.operators.Keys, CycleSearch.Operator(id), Stream(b));
  }

  lemma StepDown(plan: Plan, g: set<(Node, Node)>, a: string, n: Node, m: Node)
    requires NodeGraph(plan, g) && (Stream(a), n) in g && (n, m) in g
    ensures m.Stream? && (a, m.name) in Graph(plan)
  {
    assert ArcOf(plan, plan.operators.Keys, Stream(a), n);
    assert ArcOf(plan, plan.operators.Keys, n, m);
    assert FeedsBy(InputsOf(plan), EdgesOf(plan), n.id, a, m.name);
    FeedsThrough(InputsOf(plan), EdgesOf(plan), a, m.name);
  }

  lemma {:induction false} WalkUp(plan: Plan, g: set<(Node, Node)>, a: string, b: string, p: seq<string>)
    requires NodeGraph(plan, g) && Consistent(plan) && Walk(Graph(plan), a, b, p)
    ensures Reaches(g, Stream(a), Stream(b))
    decreases |p|
  {
    if |p| == 1 {
      Here(g, Stream(a));
    } else {
      var m := FirstHop(Graph(plan), a, b, p);
      WalkUp(plan, g, m, b, p[1..]);
      StepUp(plan, g, a, m);
      var id :| (Stream(a), CycleSearch.Operator(id)) in g && (CycleSearch.Operator(id), Stream(m)) in g;
      Ahead(g, CycleSearch.Operator(id), Stream(m), Stream(b));
      Ahead(g, Stream(a), CycleSearch.Operator(id), Stream(b));
    }
  }

  lemma {:induction false} WalkDown(plan: Plan, g: set<(Node, Node)>, a: string, b: string, p: seq<Node>)
    requires NodeGraph(plan, g) && Walk(g, Stream(a), Stream(b), p)
    ensures Reaches(Graph(plan), a, b)
    decreases |p|
  {
    if |p| == 1 {
      Here(Graph(plan), a);
    } else {
      var n := FirstHop(g, Stream(a), Stream(b), p);
      assert ArcOf(plan, plan.operators.Keys, Stream(a), n);
      var m := FirstHop(g, n, Stream(b), p[1..]);
      StepDown(plan, g, a, n, m);
      WalkDown(plan, g, m.name, b, p[1..][1..]);
      Ahead(Graph(plan), a, m.name, b);
    }
  }

  lemma Uncycled(plan: Plan, g: set<(Node, Node)>, a: string)
    requires NodeGraph(plan, g) && OnCycle(g, Stream(a))
    ensures OnCycle(Graph(plan), a)
  {
    var n :| (Stream(a), n) in g && Reaches(g, n, Stream(a));
    var p :| Walk(g, n, Stream(a), p);
    assert ArcOf(plan, plan.operators.Keys, Stream(a), n);
    var m := FirstHop(g, n, Stream(a), p);
    StepDown(plan, g, a, n, m);
    WalkDown(plan, g, m.name, a, p[1..]);
  }

  /** The operator on a cycle leads to a stream on it. */
  lemma StreamOnCycle(plan: Plan, g: set<(Node, Node)>, id: string) returns (a: string)
    requires NodeGraph(plan, g) && OnCycle(g, CycleSearch.Operator(id))
    ensures OnCycle(g, Stream(a))
  {
    var o := CycleSearch.Operator(id);
    var n :| (o, n) in g && Reaches(g, n, o);
    assert ArcOf(plan, plan.operators.Keys, o, n);
    a := n.name;
    var p :| Walk(g, n, o, p);
    var m := FirstHop(g, n, o, p);
    assert Reaches(g, m, o);
    Arc(g, o, n);
    Through(g, m, o, n);
  }

  /** Streams and operators form a cycle exactly when some stream feeds itself. */
  lemma LoopsAgree(plan: Plan, g: set<(Node, Node)>)
    requires NodeGraph(plan, g) && Consistent(plan)
    ensures Acyclic(g) <==> Acyclic(Graph(plan))
  {
    if !Acyclic(g) {
      var n :| OnCycle(g, n);
      var a: string;
      if n.Stream? {
        a := n.name;
      } else {
        a := StreamOnCycle(plan, g, n.id);
      }
      Uncycled(plan, g, a);
    }
    if !Acyclic(Graph(plan)) {
      var a :| OnCycle(Graph(plan), a);
      var b :| (a, b) in Graph(plan) && Reaches(Graph(plan), b, a);
      StepUp(plan, g, a, b);
      var id :| (Stream(a), CycleSearch.Operator(id)) in g && (CycleSearch.Operator(id), Stream(b)) in g;
      var p :| Walk(Graph(plan), b, a, p);
      WalkUp(plan, g, b, a, p);
      Ahead(g, CycleSearch.Operator(id), Stream(b), Stream(a));
      ClosesLoop(g, Stream(a), CycleSearch.Operator(id));
    }
  }
}
