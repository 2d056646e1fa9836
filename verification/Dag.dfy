/** The object that collects a dataflow description step by step and validates it. */
module DagBuilder {

  import opened Wrappers
  import opened Text
  import opened Dataflow
  import opened Wiring
  import opened DagPlan
  import CycleSearch
  import Registered = OperatorRegistry

  // ----- the checks of one validation, each over the collected plan -----

  /** The streams written so far belong to the operators looked at so far. */
  ghost predicate Owned(plan: Plan, ids: set<string>, owned: set<string>) {
    forall s :: s in owned <==> exists id :: id in ids && id in plan.outputs && plan.outputs[id] == s
  }

  ghost predicate OutputFine(plan: Plan, ids: set<string>, id: string) {
    && id in plan.outputs && Managed(plan, plan.outputs[id])
    && forall k :: k in ids && k in plan.outputs && plan.outputs[k] == plan.outputs[id] ==> k == id
  }

  method CheckOutputs(plan: Plan) returns (r: Option<Problem>)
    ensures r.None? ==> OutputsSound(plan)
    ensures r.Some? ==> Present(plan, r.value) && !r.value.Cycle?
  {
    var owned, todo := {}, plan.outputs.Keys;
    while todo != {}
      invariant todo <= plan.outputs.Keys && Owned(plan, plan.outputs.Keys - todo, owned)
      invariant forall id :: id in plan.outputs.Keys - todo ==> OutputFine(plan, plan.outputs.Keys - todo, id)
      decreases todo
    {
      var id :| id in todo;
      var output := plan.outputs[id];
      if output in owned {
        return Some(SharedOutput(output));
      }
      if !HasOptions(plan, output) {
        return Some(UndeclaredOutput(output));
      }
      if !plan.streams[output].options.value.sourceManaged {
        return Some(NotSourceManaged(output));
      }
      OutputAdded(plan, plan.outputs.Keys - todo, owned, id);
      owned := owned + {output};
      todo := todo - {id};
      assert plan.outputs.Keys - todo == plan.outputs.Keys - (todo + {id}) + {id};
    }
    assert plan.outputs.Keys - todo == plan.outputs.Keys;
    AllOutputsFine(plan);
    r := None;
  }

  lemma OutputAdded(plan: Plan, ids: set<string>, owned: set<string>, id: string)
    requires id in plan.outputs && id !in ids && Managed(plan, plan.outputs[id]) && plan.outputs[id] !in owned
    requires Owned(plan, ids, owned) && forall k :: k in ids ==> OutputFine(plan, ids, k)
    ensures Owned(plan, ids + {id}, owned + {plan.outputs[id]})
    ensures forall k :: k in ids + {id} ==> OutputFine(plan, ids + {id}, k)
  {
    forall k | k in ids + {id} ensures OutputFine(plan, ids + {id}, k) {
      if k != id {
        assert OutputFine(plan, ids, k);
      }
    }
  }

  lemma AllOutputsFine(plan: Plan)
    requires forall id :: id in plan.outputs.Keys ==> OutputFine(plan, plan.outputs.Keys, id)
    ensures OutputsSound(plan)
  {
    forall id | id in plan.outputs ensures Managed(plan, plan.outputs[id]) && !Shared(plan, plan.outputs[id]) {
      assert OutputFine(plan, plan.outputs.Keys, id);
      forall j, k | j in plan.outputs && k in plan.outputs
                    && plan.outputs[j] == plan.outputs[id] && plan.outputs[k] == plan.outputs[id] ensures j == k {
        assert j == id && k == id;
      }
    }
  }

  method CheckCollections(plan: Plan) returns (r: Option<Problem>)
    requires Consistent(plan)
    ensures r.None? ==> CollectionsSound(plan)
    ensures r.Some? ==> Present(plan, r.value) && !r.value.Cycle?
  {
    var retracting := RetractingStreams(InputsOf(plan), EdgesOf(plan), Seeds(plan));
    var todo := plan.operators.Keys;
    while todo != {}
      invariant todo <= plan.operators.Keys
      invariant forall id :: id !in todo ==> !ModeClash(plan, id) && !DeduplicateClash(plan, id)
      decreases todo
    {
      var id :| id in todo;
      if ModeClash(plan, id) {
        return Some(NeedsRetractMode(id));
      }
      if plan.operators[id].kind.Deduplicate? && plan.operators[id].spec.stream in retracting {
        assert Retracts(Graph(plan), Seeds(plan), plan.operators[id].spec.stream);
        return Some(RetractsIntoDeduplicate(id));
      }
      todo := todo - {id};
    }
    r := None;
  }

  function WithArc(adjacency: CycleSearch.Adjacency, n: CycleSearch.Node, m: CycleSearch.Node): CycleSearch.Adjacency {
    adjacency[n := CycleSearch.Targets(adjacency, n) + {m}]
  }

  ghost predicate Adjacent(plan: Plan, ids: set<string>, adjacency: CycleSearch.Adjacency) {
    forall n, m :: m in CycleSearch.Targets(adjacency, n) <==> ArcOf(plan, ids, n, m)
  }

  /** The operator's inputs are in, except those still to do. */
  ghost predicate InputsIn(was: CycleSearch.Adjacency, now: CycleSearch.Adjacency, id: string, inputs: set<string>) {
    forall n, m :: m in CycleSearch.Targets(now, n)
                   <==> m in CycleSearch.Targets(was, n)
                        || (n.Stream? && n.name in inputs && m == CycleSearch.Operator(id))
  }

  method AddInputs(was: CycleSearch.Adjacency, id: string, inputs: set<string>) returns (now: CycleSearch.Adjacency)
    ensures InputsIn(was, now, id, inputs)
  {
    now := was;
    var todo := inputs;
    while todo != {}
      invariant todo <= inputs && InputsIn(was, now, id, inputs - todo)
      decreases todo
    {
      var stream :| stream in todo;
      ghost var before := now;
      now := WithArc(now, CycleSearch.Stream(stream), CycleSearch.Operator(id));
      InputAdded(was, before, now, id, inputs - todo, stream);
      todo := todo - {stream};
      assert inputs - todo == inputs - (todo + {stream}) + {stream};
    }
    assert inputs - todo == inputs;
  }

  lemma InputAdded(was: CycleSearch.Adjacency, before: CycleSearch.Adjacency, now: CycleSearch.Adjacency,
                   id: string, inputs: set<string>, stream: string)
    requires InputsIn(was, before, id, inputs)
    requires now == WithArc(before, CycleSearch.Stream(stream), CycleSearch.Operator(id))
    ensures InputsIn(was, now, id, inputs + {stream})
  {
    forall n, m
      ensures m in CycleSearch.Targets(now, n)
              <==> m in CycleSearch.Targets(was, n)
                   || (n.Stream? && n.name in inputs + {stream} && m == CycleSearch.Operator(id))
    {
      assert m in CycleSearch.Targets(before, n)
             <==> m in CycleSearch.Targets(was, n) || (n.Stream? && n.name in inputs && m == CycleSearch.Operator(id));
      assert CycleSearch.Targets(now, n)
             == if n == CycleSearch.Stream(stream) then CycleSearch.Targets(before, n) + {CycleSearch.Operator(id)}
                else CycleSearch.Targets(before, n);
    }
  }

  lemma OperatorAdded(plan: Plan, ids: set<string>, was: CycleSearch.Adjacency, mid: CycleSearch.Adjacency,
                      now: CycleSearch.Adjacency, id: string)
    requires id in plan.operators && id !in ids && Adjacent(plan, ids, was)
    requires InputsIn(was, mid, id, ReadsOf(plan, id))
    requires now == if id in plan.outputs
                    then WithArc(mid, CycleSearch.Operator(id), CycleSearch.Stream(plan.outputs[id])) else mid
    ensures Adjacent(plan, ids + {id}, now)
  {
    forall n, m ensures m in CycleSearch.Targets(now, n) <==> ArcOf(plan, ids + {id}, n, m) {
      assert m in CycleSearch.Targets(was, n) <==> ArcOf(plan, ids, n, m);
    }
  }

  method BuildAdjacency(plan: Plan) returns (adjacency: CycleSearch.Adjacency)
    ensures Adjacent(plan, plan.operators.Keys, adjacency)
  {
    adjacency := map[];
    var todo := plan.operators.Keys;
    while todo != {}
      invariant todo <= plan.operators.Keys && Adjacent(plan, plan.operators.Keys - todo, adjacency)
      decreases todo
    {
      var id :| id in todo;
      ghost var was := adjacency;
      adjacency := AddInputs(adjacency, id, ReadsOf(plan, id));
      ghost var mid := adjacency;
      if id in plan.outputs {
        adjacency := WithArc(adjacency, CycleSearch.Operator(id), CycleSearch.Stream(plan.outputs[id]));
      }
      OperatorAdded(plan, plan.operators.Keys - todo, was, mid, adjacency, id);
      todo := todo - {id};
      assert plan.operators.Keys - todo == plan.operators.Keys - (todo + {id}) + {id};
    }
    assert plan.operators.Keys - todo == plan.operators.Keys;
  }

  lemma AdjacentGraph(plan: Plan, adjacency: CycleSearch.Adjacency)
    requires Adjacent(plan, plan.operators.Keys, adjacency)
    ensures NodeGraph(plan, CycleSearch.Arcs(adjacency))
  {
    forall n, m ensures (n, m) in CycleSearch.Arcs(adjacency) <==> ArcOf(plan, plan.operators.Keys, n, m) {
      assert (n, m) in CycleSearch.Arcs(adjacency) <==> m in CycleSearch.Targets(adjacency, n);
    }
  }

  method CheckCycles(plan: Plan) returns (ok: bool)
    requires Consistent(plan)
    ensures ok <==> Acyclic(Graph(plan))
  {
    var adjacency := BuildAdjacency(plan);
    var search := new CycleSearch.Search(adjacency);
    ok := search.Run();
    AdjacentGraph(plan, adjacency);
    LoopsAgree(plan, CycleSearch.Arcs(adjacency));
  }

  // ----- the object -----

  /** The streams that adding an operator makes known by name, given how it ended. */
  function Named(operator: Operator, output: Option<string>, r: Option<Problem>): set<string> {
    if r.Some? && r.value.ConflictingOperator? then {}
    else Registered.Reads(operator.spec) + if r.None? && output.Some? then {output.value} else {}
  }

  class Dag {
    const name: string
    var streams: map<string, Declaration>
    var operators: map<string, Operator>
    var outputs: map<string, string>

    function Collected(): Plan
      reads this
    {
      Plan(name, streams, operators, outputs)
    }

    /** Outputs belong to operators, and every stream read or written is known by name. */
    ghost predicate Valid()
      reads this
    {
      && outputs.Keys <= operators.Keys && outputs.Values <= streams.Keys
      && forall id :: id in operators ==> Registered.Reads(operators[id].spec) <= streams.Keys
    }

    constructor (name: string)
      ensures Valid() && Collected() == Plan(name, map[], map[], map[])
    {
      this.name := name;
      streams, operators, outputs := map[], map[], map[];
    }

    /** Declares a stream, unless it has another explicit declaration. */
    method DeclareStream(stream: string, options: Option<Options>) returns (r: Option<Problem>)
      requires Valid()
      modifies this`streams
      ensures Valid()
      ensures r == if Stripped(stream) then Some(BlankName)
                   else if stream in old(streams) && old(streams)[stream] != Declaration(options, false)
                           && !old(streams)[stream].inferred then Some(ConflictingStream(stream))
                   else None
      ensures streams == if r.None? then old(streams)[stream := Declaration(options, false)] else old(streams)
    {
      if Stripped(stream) {
        return Some(BlankName);
      }
      var declaration := Declaration(options, false);
      if stream in streams && streams[stream] != declaration && !streams[stream].inferred {
        return Some(ConflictingStream(stream));
      }
      streams := streams[stream := declaration];
      r := None;
    }

    /** Names a stream that has no declaration yet. */
    method Infer(stream: string)
      modifies this`streams
      ensures streams == if stream in old(streams) then old(streams)
                         else old(streams)[stream := Declaration(None, true)]
    {
      if stream !in streams {
        streams := streams[stream := Declaration(None, true)];
      }
    }

    /** Adds an operator; a blank output is found only once the operator is in. */
    method AddOperator(id: string, operator: Operator, output: Option<string>) returns (r: Option<Problem>)
      requires Valid()
      modifies this
      ensures Valid()
      ensures r == if id in old(operators) && old(operators)[id] != operator then Some(ConflictingOperator(id))
                   else if output.Some? && Stripped(output.value) then Some(BlankOutput)
                   else None
      ensures r == Some(ConflictingOperator(id)) ==> Collected() == old(Collected())
      ensures r != Some(ConflictingOperator(id)) ==> operators == old(operators)[id := operator]
      ensures outputs == if r.None? && output.Some? then old(outputs)[id := output.value] else old(outputs)
      ensures forall s :: s in old(streams) ==> s in streams && streams[s] == old(streams)[s]
      ensures forall s :: s in streams && s !in old(streams) ==> streams[s] == Declaration(None, true)
      ensures streams.Keys == old(streams).Keys + Named(operator, output, r)
    {
      if id in operators && operators[id] != operator {
        return Some(ConflictingOperator(id));
      }
      var todo := Registered.Reads(operator.spec);
      while todo != {}
        invariant operators == old(operators) && outputs == old(outputs)
        invariant forall s :: s in old(streams) ==> s in streams && streams[s] == old(streams)[s]
        invariant forall s :: s in streams && s !in old(streams) ==> streams[s] == Declaration(None, true)
        invariant todo <= Registered.Reads(operator.spec)
        invariant streams.Keys == old(streams).Keys + (Registered.Reads(operator.spec) - todo)
        decreases todo
      {
        var stream :| stream in todo;
        Infer(stream);
        todo := todo - {stream};
      }
      operators := operators[id := operator];
      if output.Some? {
        if Stripped(output.value) {
          return Some(BlankOutput);
        }
        Infer(output.value);
        outputs := outputs[id := output.value];
      }
      r := None;
    }

    /** Nothing is reported exactly when the plan is well formed, and what is reported is there. */
    method Validate() returns (r: Option<Problem>)
      requires Valid()
      ensures r.None? <==> WellFormed(Collected())
      ensures r.Some? ==> Present(Collected(), r.value)
      ensures r == Some(Cycle) ==> OutputsSound(Collected()) && CollectionsSound(Collected())
    {
      var plan := Collected();
      if Stripped(plan.name) {
        return Some(BlankName);
      }
      r := Problems(plan);
    }
  }

  method Problems(plan: Plan) returns (r: Option<Problem>)
    requires Consistent(plan) && !Stripped(plan.name)
    ensures r.None? <==> WellFormed(plan)
    ensures r.Some? ==> Present(plan, r.value)
    ensures r == Some(Cycle) ==> OutputsSound(plan) && CollectionsSound(plan)
  {
    r := CheckOutputs(plan);
    if r.Some? {
      PresentSpoils(plan, r.value);
      return;
    }
    r := CheckCollections(plan);
    if r.Some? {
      PresentSpoils(plan, r.value);
      return;
    }
    var ok := CheckCycles(plan);
    r := if ok then None else Some(Cycle);
  }
}
