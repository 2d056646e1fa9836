/** Depth-first search for a cycle, with one set of open and one of finished nodes. */
module CycleSearch {

  import opened Dataflow

  datatype Node = Stream(name: string) | Operator(id: string)

  type Adjacency = map<Node, set<Node>>

  function Targets(adjacency: Adjacency, n: Node): set<Node> {
    if n in adjacency then adjacency[n] else {}
  }

  ghost function Arcs(adjacency: Adjacency): set<(Node, Node)> {
    set n, m | n in adjacency.Keys && m in adjacency[n] :: (n, m)
  }

  ghost function Nodes(adjacency: Adjacency): set<Node> {
    adjacency.Keys + set n, m | n in adjacency.Keys && m in adjacency[n] :: m
  }

  ghost predicate Holds(open: set<Node>, stack: seq<Node>) {
    forall n :: n in open <==> n in stack
  }

  /** The open nodes, outermost first, each a target of the one before it. */
  ghost predicate Trail(g: set<(Node, Node)>, stack: seq<Node>) {
    forall i :: 0 <= i < |stack| - 1 ==> Hop(g, stack, i)
  }

  ghost predicate Leads(g: set<(Node, Node)>, stack: seq<Node>, node: Node) {
    stack == [] || (stack[|stack| - 1], node) in g
  }

  /** Finished nodes lead only to finished nodes, and none lies on a cycle. */
  ghost predicate Finished(g: set<(Node, Node)>, visited: set<Node>) {
    Closed(g, visited) && forall n :: n in visited ==> !OnCycle(g, n)
  }

  lemma OpenTarget(g: set<(Node, Node)>, stack: seq<Node>, node: Node)
    requires Trail(g, stack) && Leads(g, stack, node) && node in stack
    ensures !Acyclic(g)
  {
    var i :| 0 <= i < |stack| && stack[i] == node;
    var p := stack[i..];
    var last := stack[|stack| - 1];
    forall j | 0 <= j < |p| - 1 ensures Hop(g, p, j) {
      assert Hop(g, stack, i + j);
    }
    assert Walk(g, node, last, p);
    ClosesLoop(g, last, node);
  }

  /** What the search keeps between calls. */
  ghost predicate Searching(g: set<(Node, Node)>, stack: seq<Node>, open: set<Node>, done: set<Node>) {
    Holds(open, stack) && open !! done && Trail(g, stack) && Finished(g, done)
  }

  ghost predicate Settled(targets: set<Node>, todo: set<Node>, done: set<Node>) {
    forall m :: m in targets ==> m in todo || m in done
  }

  lemma PushTrail(g: set<(Node, Node)>, stack: seq<Node>, node: Node)
    requires Trail(g, stack) && Leads(g, stack, node)
    ensures Trail(g, stack + [node])
  {
    var next := stack + [node];
    forall i | 0 <= i < |next| - 1 ensures Hop(g, next, i) {
      if i < |stack| - 1 {
        assert Hop(g, stack, i);
      }
    }
  }

  lemma Enter(g: set<(Node, Node)>, nodes: set<Node>, stack: seq<Node>, open: set<Node>, done: set<Node>, node: Node)
    requires Searching(g, stack, open, done) && Leads(g, stack, node)
    requires node in nodes && node !in open && node !in done
    ensures Searching(g, stack + [node], open + {node}, done)
    ensures |nodes - (open + {node})| < |nodes - open|
  {
    PushTrail(g, stack, node);
    assert nodes - open == (nodes - (open + {node})) + {node};
  }

  lemma Leave(adjacency: Adjacency, stack: seq<Node>, open: set<Node>, done: set<Node>, before: set<Node>, node: Node)
    requires Searching(Arcs(adjacency), stack, open, before) && node !in open
    requires Searching(Arcs(adjacency), stack + [node], open + {node}, done)
    requires Settled(Targets(adjacency, node), {}, done)
    ensures Searching(Arcs(adjacency), stack, open, done + {node})
    ensures open + {node} - {node} == open
  {
    var g := Arcs(adjacency);
    if OnCycle(g, node) {
      var m :| (node, m) in g && Reaches(g, m, node);
      ClosedHolds(g, done, m, node);
      assert false;
    }
  }

  lemma Target(adjacency: Adjacency, stack: seq<Node>, node: Node, target: Node)
    requires target in Targets(adjacency, node)
    ensures Leads(Arcs(adjacency), stack + [node], target) && target in Nodes(adjacency)
  {
  }

  lemma Source(adjacency: Adjacency, node: Node)
    requires node in adjacency
    ensures node in Nodes(adjacency) && Leads(Arcs(adjacency), [], node)
  {
  }

  lemma AllVisited(adjacency: Adjacency, done: set<Node>)
    requires Finished(Arcs(adjacency), done) && Settled(adjacency.Keys, {}, done)
    ensures Acyclic(Arcs(adjacency))
  {
    var g := Arcs(adjacency);
    forall n ensures !OnCycle(g, n) {
      if n !in done {
        assert n !in adjacency;
      }
    }
  }

  class Search {
    const adjacency: Adjacency
    var visiting: set<Node>
    var visited: set<Node>
    ghost var stack: seq<Node>
    ghost const arcs: set<(Node, Node)>
    ghost const nodes: set<Node>

    constructor (adjacency: Adjacency)
      ensures this.adjacency == adjacency && Valid() && visiting == {} && visited == {} && stack == []
    {
      this.adjacency := adjacency;
      visiting, visited, stack := {}, {}, [];
      arcs, nodes := Arcs(adjacency), Nodes(adjacency);
    }

    ghost predicate Graph() {
      arcs == Arcs(adjacency) && nodes == Nodes(adjacency)
    }

    ghost predicate Valid()
      reads this
    {
      Graph() && Searching(arcs, stack, visiting, visited)
    }

    method Visit(node: Node) returns (ok: bool)
      requires Valid() && node in nodes && Leads(arcs, stack, node)
      modifies this
      ensures ok ==> Valid() && node in visited && old(visited) <= visited
      ensures ok ==> stack == old(stack) && visiting == old(visiting)
      ensures !ok ==> !Acyclic(arcs)
      decreases |nodes - visiting|, 0
    {
      if node in visiting {
        OpenTarget(arcs, stack, node);
        return false;
      }
      if node in visited {
        return true;
      }
      ghost var outer, open, before := stack, visiting, visited;
      Enter(arcs, nodes, stack, visiting, visited, node);
      visiting := visiting + {node};
      stack := stack + [node];
      ok := VisitTargets(node, outer);
      if !ok {
        return;
      }
      Leave(adjacency, outer, open, visited, before, node);
      visiting := visiting - {node};
      stack := outer;
      visited := visited + {node};
    }

    method VisitTargets(node: Node, ghost outer: seq<Node>) returns (ok: bool)
      requires Valid() && stack == outer + [node]
      modifies this
      ensures ok ==> Valid() && Settled(Targets(adjacency, node), {}, visited) && old(visited) <= visited
      ensures ok ==> stack == old(stack) && visiting == old(visiting)
      ensures !ok ==> !Acyclic(arcs)
      decreases |nodes - visiting|, 1
    {
      var targets := Targets(adjacency, node);
      var todo := targets;
      while todo != {}
        invariant Valid() && stack == old(stack) && visiting == old(visiting) && old(visited) <= visited
        invariant todo <= targets && Settled(targets, todo, visited)
        decreases todo
      {
        var target :| target in todo;
        Target(adjacency, outer, node, target);
        ok := Visit(target);
        if !ok {
          return;
        }
        todo := todo - {target};
      }
      ok := true;
    }

    /** True exactly when the graph has no cycle. */
    method Run() returns (ok: bool)
      requires Valid() && stack == []
      modifies this
      ensures ok <==> Acyclic(Arcs(adjacency))
    {
      var todo := adjacency.Keys;
      while todo != {}
        invariant Valid() && stack == [] && todo <= adjacency.Keys
        invariant Settled(adjacency.Keys, todo, visited)
        decreases todo
      {
        var node :| node in todo;
        Source(adjacency, node);
        ok := Visit(node);
        if !ok {
          return;
        }
        todo := todo - {node};
      }
      AllVisited(adjacency, visited);
      ok := true;
    }
  }
}
