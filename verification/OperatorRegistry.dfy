/**
 * The server's registered operators and the edges between them: creating an
 * operator, changing a process's references, and connecting an output.
 */
module OperatorRegistry {

  import opened Wrappers
  import opened Text
  import opened Dataflow
  import opened Wiring

  datatype Kind = Collection | Process | Window | Filter | Deduplicate | TemporalJoin | IntervalJoin

  datatype Mode = AppendMode | UpsertMode | RetractMode

  /**
   * What an operator reads and how: a process's `others` are its versioned
   * references, a join's its second stream. `definition` stands for the parts
   * that must not change once the operator exists.
   */
  datatype Spec = Spec(stream: string, others: set<string>, mode: Mode, definition: string)

  datatype Entry = Entry(kind: Kind, id: string)

  type Operators = map<Entry, Spec>

  datatype Registry = Registry(streams: map<string, bool>, operators: Operators, edges: Edges)

  datatype Step =
    | DeclareStream(name: string, sourceManaged: bool)
    | Create(kind: Kind, id: string, spec: Spec)
    | Connect(operator: string, output: string)

  datatype Refusal =
    | BlankName
    | MissingStream
    | UnknownOperator
    | IdTaken
    | DifferentSpec
    | Loop
    | NotSourceManaged
    | OutputTaken
    | HasOutput
    | NeedsRetractMode
    | RetractsIntoDeduplicate

  function Reads(spec: Spec): set<string> {
    {spec.stream} + spec.others
  }

  /** The kinds are looked up in this order, and the first that knows the id answers. */
  function Holder(operators: Operators, id: string): Option<Kind> {
    if Entry(Collection, id) in operators then Some(Collection)
    else if Entry(Process, id) in operators then Some(Process)
    else if Entry(Window, id) in operators then Some(Window)
    else if Entry(Filter, id) in operators then Some(Filter)
    else if Entry(Deduplicate, id) in operators then Some(Deduplicate)
    else if Entry(TemporalJoin, id) in operators then Some(TemporalJoin)
    else if Entry(IntervalJoin, id) in operators then Some(IntervalJoin)
    else None
  }

  lemma HolderKnows(operators: Operators, id: string)
    ensures Holder(operators, id).None? <==> forall k :: Entry(k, id) !in operators
    ensures Holder(operators, id).Some? ==> Entry(Holder(operators, id).value, id) in operators
  {
    forall k | Entry(k, id) in operators ensures Holder(operators, id).Some? {
      match k
      case Collection =>
      case Process =>
      case Window =>
      case Filter =>
      case Deduplicate =>
      case TemporalJoin =>
      case IntervalJoin =>
    }
  }

  function Ids(operators: Operators): set<string> {
    set e | e in operators.Keys :: e.id
  }

  /** The input streams of every operator, by id. */
  function InputsOf(operators: Operators): (w: Inputs)
    ensures w.Keys == Ids(operators)
  {
    map id | id in Ids(operators) ::
      (HolderKnows(operators, id); Reads(operators[Entry(Holder(operators, id).value, id)]))
  }

  ghost function Graph(s: Registry): set<(string, string)> {
    Feeds(InputsOf(s.operators), s.edges)
  }

  // ----- collections and retractions -----

  /** The streams that collections write. */
  function Seeds(operators: Operators, edges: Edges): set<string> {
    set id | id in edges.Keys && Entry(Collection, id) in operators :: edges[id].output
  }

  /** A collection that cannot read retractions reads the output of an operator. */
  ghost predicate ModeClashAt(s: Registry, e: Entry) {
    && e in s.operators && e.kind.Collection? && !s.operators[e].mode.RetractMode?
    && s.operators[e].stream in Outputs(s.edges)
  }

  ghost predicate ModeClash(s: Registry) {
    exists e :: ModeClashAt(s, e)
  }

  /** An append-only deduplicate reads a stream that carries retractions. */
  ghost predicate DeduplicateClashAt(s: Registry, e: Entry) {
    && e in s.operators && e.kind.Deduplicate?
    && Retracts(Graph(s), Seeds(s.operators, s.edges), s.operators[e].stream)
  }

  ghost predicate DeduplicateClash(s: Registry) {
    exists e :: DeduplicateClashAt(s, e)
  }

  ghost predicate CollectionsSound(s: Registry) {
    !ModeClash(s) && !DeduplicateClash(s)
  }

  ghost function Checked(s: Registry): Result<Registry, Refusal> {
    if ModeClash(s) then Err(NeedsRetractMode)
    else if DeduplicateClash(s) then Err(RetractsIntoDeduplicate)
    else Ok(s)
  }

  // ----- the steps -----

  /** The id belongs to an operator that is not a collection. */
  predicate HeldByOther(operators: Operators, id: string) {
    || Entry(Process, id) in operators || Entry(Window, id) in operators
    || Entry(Filter, id) in operators || Entry(Deduplicate, id) in operators
    || Entry(TemporalJoin, id) in operators || Entry(IntervalJoin, id) in operators
  }

  predicate ChecksCollections(kind: Kind) {
    kind.Collection? || kind.Filter? || kind.Deduplicate?
  }

  ghost function Added(s: Registry, kind: Kind, id: string, spec: Spec): Registry {
    s.(operators := s.operators[Entry(kind, id) := spec])
  }

  ghost function DoCollection(s: Registry, id: string, spec: Spec): Result<Registry, Refusal> {
    var e := Entry(Collection, id);
    if HeldByOther(s.operators, id) then Err(IdTaken)
    else if e in s.operators then (if s.operators[e] == spec then Ok(s) else Err(DifferentSpec))
    else if spec.stream !in s.streams then Err(MissingStream)
    else Checked(Added(s, Collection, id, spec))
  }

  ghost function DoExisting(s: Registry, kind: Kind, id: string, spec: Spec): Result<Registry, Refusal>
    requires Entry(kind, id) in s.operators
  {
    var was := s.operators[Entry(kind, id)];
    if kind.Process? && was.(others := spec.others) == spec then
      if id in s.edges && ReachesSome(Graph(s), s.edges[id].output, Reads(spec)) then Err(Loop)
      else Ok(Added(s, kind, id, spec))
    else if was == spec then Ok(s)
    else Err(DifferentSpec)
  }

  ghost function DoCreate(s: Registry, kind: Kind, id: string, spec: Spec): Result<Registry, Refusal> {
    if kind.Collection? then DoCollection(s, id, spec)
    else if !(Reads(spec) <= s.streams.Keys) then Err(MissingStream)
    else if Entry(Collection, id) in s.operators then Err(IdTaken)
    else if Entry(kind, id) in s.operators then DoExisting(s, kind, id, spec)
    else if ChecksCollections(kind) then Checked(Added(s, kind, id, spec))
    else Ok(Added(s, kind, id, spec))
  }

  ghost predicate WrittenByOther(edges: Edges, id: string, output: string) {
    exists k :: k in edges && k != id && edges[k].active && edges[k].output == output
  }

  ghost function Connected(s: Registry, id: string, output: string): Registry {
    s.(edges := s.edges[id := Edge(output, true)])
  }

  ghost function DoConnect(s: Registry, id: string, output: string): Result<Registry, Refusal> {
    if Blank(id) || Blank(output) then Err(BlankName)
    else if id !in InputsOf(s.operators) then Err(UnknownOperator)
    else if ReachesSome(Graph(s), output, InputsOf(s.operators)[id]) then Err(Loop)
    else if output !in s.streams then Err(MissingStream)
    else if !s.streams[output] then Err(NotSourceManaged)
    else if WrittenByOther(s.edges, id, output) then Err(OutputTaken)
    else if id in s.edges then (if s.edges[id].output == output then Ok(s) else Err(HasOutput))
    else Checked(Connected(s, id, output))
  }

  ghost function DoDeclare(s: Registry, name: string, sourceManaged: bool): Result<Registry, Refusal> {
    if name !in s.streams then Ok(s.(streams := s.streams[name := sourceManaged]))
    else if s.streams[name] == sourceManaged then Ok(s)
    else Err(DifferentSpec)
  }

  ghost function Do(s: Registry, step: Step): Result<Registry, Refusal> {
    match step
    case DeclareStream(name, sourceManaged) => DoDeclare(s, name, sourceManaged)
    case Create(kind, id, spec) => DoCreate(s, kind, id, spec)
    case Connect(id, output) => DoConnect(s, id, output)
  }

  // ----- what every step keeps -----

  ghost predicate OneWriter(edges: Edges) {
    forall j, k :: j in edges && k in edges && edges[j].output == edges[k].output ==> j == k
  }

  ghost predicate AllActive(edges: Edges) {
    forall id :: id in edges ==> edges[id].active
  }

  /** Edges belong to operators that exist, are active, and share no output stream. */
  ghost predicate Wired(s: Registry) {
    s.edges.Keys <= Ids(s.operators) && AllActive(s.edges) && OneWriter(s.edges)
  }

  lemma ActiveAll(edges: Edges)
    requires AllActive(edges)
    ensures Active(edges) == edges
  {
  }

  // ----- the operations over the stored registry -----

  method CollectionProblem(operators: Operators, edges: Edges, ghost s: Registry) returns (r: Option<Refusal>)
    requires s.operators == operators && s.edges == edges && Wired(s)
    ensures r == match Checked(s) case Ok(_) => None case Err(e) => Some(e)
  {
    var todo := operators.Keys;
    while todo != {}
      invariant todo <= operators.Keys
      invariant forall e :: e in operators && e !in todo ==> !ModeClashAt(s, e)
      decreases todo
    {
      var e :| e in todo;
      if e.kind.Collection? && !operators[e].mode.RetractMode? && operators[e].stream in Outputs(edges) {
        assert ModeClashAt(s, e);
        return Some(NeedsRetractMode);
      }
      todo := todo - {e};
    }
    assert !ModeClash(s);
    var retracting := RetractingStreams(InputsOf(operators), edges, Seeds(operators, edges));
    todo := operators.Keys;
    while todo != {}
      invariant todo <= operators.Keys
      invariant forall e :: e in operators && e !in todo ==> !DeduplicateClashAt(s, e)
      decreases todo
    {
      var e :| e in todo;
      if e.kind.Deduplicate? && operators[e].stream in retracting {
        assert DeduplicateClashAt(s, e);
        return Some(RetractsIntoDeduplicate);
      }
      todo := todo - {e};
    }
    assert !DeduplicateClash(s);
    r := None;
  }

  method Reaching(operators: Operators, edges: Edges, from: string, targets: set<string>, ghost s: Registry)
    returns (found: bool)
    requires s.operators == operators && s.edges == edges && Wired(s)
    ensures found <==> ReachesSome(Graph(s), from, targets)
  {
    ActiveAll(edges);
    found := StreamReachesAny(InputsOf(operators), edges, from, targets);
  }

  class OperatorStore {
    var registry: Registry

    ghost predicate Valid()
      reads this
    {
      Wired(registry)
    }

    /** The step happens as `Do` says, and a refused one changes nothing. */
    ghost predicate Outcome(before: Registry, step: Step, r: Option<Refusal>)
      reads this
    {
      match Do(before, step)
      case Ok(after) => r == None && registry == after
      case Err(e) => r == Some(e) && registry == before
    }

    constructor ()
      ensures Valid() && registry == Registry(map[], map[], map[])
    {
      registry := Registry(map[], map[], map[]);
    }

    method Declare(name: string, sourceManaged: bool) returns (r: Option<Refusal>)
      requires Valid()
      modifies this
      ensures Valid() && Outcome(old(registry), DeclareStream(name, sourceManaged), r)
    {
      var streams := registry.streams;
      if name in streams && streams[name] != sourceManaged {
        return Some(DifferentSpec);
      }
      if name !in streams {
        registry := registry.(streams := streams[name := sourceManaged]);
      }
      r := None;
    }

    /** Stores the registry unless its collections clash. */
    method Commit(next: Registry) returns (r: Option<Refusal>)
      requires Wired(next) && Valid()
      modifies this
      ensures Valid()
      ensures match Checked(next)
              case Ok(after) => r == None && registry == after
              case Err(e) => r == Some(e) && registry == old(registry)
    {
      r := CollectionProblem(next.operators, next.edges, next);
      if r == None {
        registry := next;
      }
    }

    method CreateOperator(kind: Kind, id: string, spec: Spec) returns (r: Option<Refusal>)
      requires Valid()
      modifies this
      ensures Valid() && Outcome(old(registry), Create(kind, id, spec), r)
    {
      if kind.Collection? {
        r := CreateCollection(id, spec);
        return;
      }
      var operators := registry.operators;
      if !(Reads(spec) <= registry.streams.Keys) {
        return Some(MissingStream);
      }
      if Entry(Collection, id) in operators {
        return Some(IdTaken);
      }
      if Entry(kind, id) in operators {
        r := UpdateOperator(kind, id, spec);
        return;
      }
      var next := registry.(operators := operators[Entry(kind, id) := spec]);
      AddedWired(registry, kind, id, spec);
      if ChecksCollections(kind) {
        r := Commit(next);
      } else {
        registry := next;
        r := None;
      }
    }

    method CreateCollection(id: string, spec: Spec) returns (r: Option<Refusal>)
      requires Valid()
      modifies this
      ensures Valid() && Outcome(old(registry), Create(Collection, id, spec), r)
    {
      var e, operators := Entry(Collection, id), registry.operators;
      if HeldByOther(operators, id) {
        return Some(IdTaken);
      }
      if e in operators {
        return if operators[e] == spec then None else Some(DifferentSpec);
      }
      if spec.stream !in registry.streams {
        return Some(MissingStream);
      }
      AddedWired(registry, Collection, id, spec);
      r := Commit(registry.(operators := operators[e := spec]));
    }

    /** A process that keeps its input and definition may change its references. */
    method UpdateOperator(kind: Kind, id: string, spec: Spec) returns (r: Option<Refusal>)
      requires Valid() && Entry(kind, id) in registry.operators
      modifies this
      ensures Valid()
      ensures match DoExisting(old(registry), kind, id, spec)
              case Ok(after) => r == None && registry == after
              case Err(e) => r == Some(e) && registry == old(registry)
    {
      var e, operators, edges := Entry(kind, id), registry.operators, registry.edges;
      var existing := operators[e];
      if kind.Process? && existing.stream == spec.stream
         && existing.mode == spec.mode && existing.definition == spec.definition {
        if id in edges {
          var loop := Reaching(operators, edges, edges[id].output, Reads(spec), registry);
          if loop {
            return Some(Loop);
          }
        }
        AddedWired(registry, kind, id, spec);
        registry := registry.(operators := operators[e := existing.(others := spec.others)]);
        return None;
      }
      r := if existing == spec then None else Some(DifferentSpec);
    }

    method ConnectOperator(id: string, output: string) returns (r: Option<Refusal>)
      requires Valid()
      modifies this
      ensures Valid() && Outcome(old(registry), Connect(id, output), r)
    {
      if Blank(id) || Blank(output) {
        return Some(BlankName);
      }
      var streams, operators, edges := registry.streams, registry.operators, registry.edges;
      var inputs := InputsOf(operators);
      if id !in inputs {
        return Some(UnknownOperator);
      }
      var loop := Reaching(operators, edges, output, inputs[id], registry);
      if loop {
        return Some(Loop);
      }
      if output !in streams {
        return Some(MissingStream);
      }
      if !streams[output] {
        return Some(NotSourceManaged);
      }
      if exists k :: k in edges && k != id && edges[k].active && edges[k].output == output {
        assert WrittenByOther(edges, id, output);
        return Some(OutputTaken);
      }
      if id in edges {
        return if edges[id].output == output then None else Some(HasOutput);
      }
      ConnectedWired(registry, id, output);
      r := Commit(registry.(edges := edges[id := Edge(output, true)]));
    }
  }

  lemma AddedWired(s: Registry, kind: Kind, id: string, spec: Spec)
    requires Wired(s)
    ensures Wired(Added(s, kind, id, spec))
  {
    assert Ids(s.operators) <= Ids(Added(s, kind, id, spec).operators);
  }

  lemma ConnectedWired(s: Registry, id: string, output: string)
    requires Wired(s) && id in Ids(s.operators) && id !in s.edges && !WrittenByOther(s.edges, id, output)
    ensures Wired(Connected(s, id, output))
  {
    var edges := s.edges;
    assert forall k :: k in edges && k != id ==> edges[k].active && edges[k].output != output;
  }
}
