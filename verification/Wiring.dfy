/**
 * Operators wired to one another by streams: an operator reads its input
 * streams and an edge forwards its changes to one output stream.
 */
module Wiring {

  import opened Dataflow

  datatype Edge = Edge(output: string, active: bool)

  type Inputs = map<string, set<string>>
  type Edges = map<string, Edge>

  /** `a` feeds `b`: some operator reads `a` and forwards to `b`. */
  ghost function Feeds(inputs: Inputs, edges: Edges): set<(string, string)> {
    set id, a | id in edges.Keys && id in inputs.Keys && a in inputs[id] :: (a, edges[id].output)
  }

  ghost predicate FeedsBy(inputs: Inputs, edges: Edges, id: string, a: string, b: string) {
    id in edges && id in inputs && a in inputs[id] && edges[id].output == b
  }

  lemma FeedsThrough(inputs: Inputs, edges: Edges, a: string, b: string)
    ensures (a, b) in Feeds(inputs, edges) <==> exists id :: FeedsBy(inputs, edges, id, a, b)
  {
    if (a, b) in Feeds(inputs, edges) {
      var id :| id in edges && id in inputs && a in inputs[id] && (a, b) == (a, edges[id].output);
      assert FeedsBy(inputs, edges, id, a, b);
    }
    if exists id :: FeedsBy(inputs, edges, id, a, b) {
      var id :| FeedsBy(inputs, edges, id, a, b);
      assert (a, edges[id].output) in Feeds(inputs, edges);
    }
  }

  function Active(edges: Edges): Edges {
    map id | id in edges.Keys && edges[id].active :: edges[id]
  }

  function Outputs(edges: Edges): set<string> {
    set id | id in edges.Keys :: edges[id].output
  }

  // ----- which streams carry retractions -----

  /** A stream carries retractions when a seed stream reaches it. */
  ghost predicate Retracts(g: set<(string, string)>, seeds: set<string>, s: string) {
    exists t {:trigger Reaches(g, t, s)} :: t in seeds && Reaches(g, t, s)
  }

  ghost predicate Spread(g: set<(string, string)>, seeds: set<string>, r: set<string>) {
    forall s :: s in r ==> Retracts(g, seeds, s)
  }

  /** `r` is exactly what the seeds reach. */
  ghost predicate Reached(g: set<(string, string)>, seeds: set<string>, r: set<string>) {
    forall s :: s in r <==> Retracts(g, seeds, s)
  }

  lemma SpreadOnce(g: set<(string, string)>, seeds: set<string>, r: set<string>, a: string, b: string)
    requires Spread(g, seeds, r) && a in r && (a, b) in g
    ensures Spread(g, seeds, r + {b})
  {
    var t :| t in seeds && Reaches(g, t, a);
    Arc(g, a, b);
    Through(g, t, a, b);
    assert Retracts(g, seeds, b);
  }

  lemma SpreadBy(inputs: Inputs, edges: Edges, seeds: set<string>, r: set<string>, id: string)
    requires id in edges && id in inputs && inputs[id] * r != {}
    requires Spread(Feeds(inputs, edges), seeds, r)
    ensures Spread(Feeds(inputs, edges), seeds, r + {edges[id].output})
  {
    var a :| a in inputs[id] * r;
    SpreadOnce(Feeds(inputs, edges), seeds, r, a, edges[id].output);
  }

  lemma SeedsSpread(g: set<(string, string)>, seeds: set<string>)
    ensures Spread(g, seeds, seeds)
  {
    forall s | s in seeds ensures Retracts(g, seeds, s) {
      Here(g, s);
    }
  }

  /** The least set that holds the seeds and is closed is what the seeds reach. */
  lemma LeastFixpoint(g: set<(string, string)>, seeds: set<string>, r: set<string>)
    requires seeds <= r && Closed(g, r) && Spread(g, seeds, r)
    ensures Reached(g, seeds, r)
  {
    forall s | Retracts(g, seeds, s) ensures s in r {
      var t :| t in seeds && Reaches(g, t, s);
      ClosedHolds(g, r, t, s);
    }
  }

  /** Every edge in `ids` has forwarded what `r` held before the pass. */
  ghost predicate Forwarded(inputs: Inputs, edges: Edges, ids: set<string>, before: set<string>, r: set<string>) {
    forall id :: id in ids ==> Forwards(inputs, edges, id, before, r)
  }

  ghost predicate Forwards(inputs: Inputs, edges: Edges, id: string, before: set<string>, r: set<string>) {
    id in edges && id in inputs && inputs[id] * before != {} ==> edges[id].output in r
  }

  lemma NothingMore(inputs: Inputs, edges: Edges, r: set<string>)
    requires Forwarded(inputs, edges, edges.Keys, r, r)
    ensures Closed(Feeds(inputs, edges), r)
  {
    forall a, b | (a, b) in Feeds(inputs, edges) && a in r ensures b in r {
      FeedsThrough(inputs, edges, a, b);
      var id :| FeedsBy(inputs, edges, id, a, b);
      assert Forwards(inputs, edges, id, r, r) && a in inputs[id] * r;
    }
  }

  ghost predicate Between(low: set<string>, r: set<string>, high: set<string>) {
    low <= r <= high
  }

  method Pass(inputs: Inputs, edges: Edges, ghost seeds: set<string>, ghost all: set<string>, before: set<string>)
    returns (r: set<string>)
    requires edges.Keys <= inputs.Keys && Universe(edges, all)
    requires Between(seeds, before, all) && Spread(Feeds(inputs, edges), seeds, before)
    ensures Between(seeds, r, all) && Spread(Feeds(inputs, edges), seeds, r)
    ensures Forwarded(inputs, edges, edges.Keys, before, r)
    ensures r == before || |all - r| < |all - before|
  {
    r := before;
    var todo := edges.Keys;
    while todo != {}
      invariant todo <= edges.Keys && before <= r
      invariant Between(seeds, r, all) && Spread(Feeds(inputs, edges), seeds, r)
      invariant Forwarded(inputs, edges, edges.Keys - todo, before, r)
      decreases todo
    {
      var id :| id in todo;
      assert Forwarded(inputs, edges, edges.Keys - todo, before, r);
      var from := r;
      if inputs[id] * r != {} {
        SpreadBy(inputs, edges, seeds, r, id);
        r := r + {edges[id].output};
      }
      OneMore(inputs, edges, todo, id, before, from, r);
      todo := todo - {id};
    }
    if r != before {
      Fewer(all, before, r);
    }
  }

  lemma OneMore(inputs: Inputs, edges: Edges, todo: set<string>, id: string,
                before: set<string>, from: set<string>, r: set<string>)
    requires id in todo && id in edges && id in inputs && before <= from <= r
    requires Forwarded(inputs, edges, edges.Keys - todo, before, from)
    requires Forwards(inputs, edges, id, from, r)
    ensures Forwarded(inputs, edges, edges.Keys - (todo - {id}), before, r)
  {
    forall k | k in edges.Keys - (todo - {id}) ensures Forwards(inputs, edges, k, before, r) {
      if k != id {
        assert Forwards(inputs, edges, k, before, from);
      } else {
        assert inputs[id] * before <= inputs[id] * from;
      }
    }
  }

  lemma Fewer(all: set<string>, before: set<string>, r: set<string>)
    requires before < r <= all
    ensures |all - r| < |all - before|
  {
    var x :| x in r && x !in before;
    assert all - before == (all - r) + (r - before);
    assert x in r - before;
  }

  lemma Settled(inputs: Inputs, edges: Edges, seeds: set<string>, all: set<string>, r: set<string>)
    requires Between(seeds, r, all) && Spread(Feeds(inputs, edges), seeds, r)
    requires Forwarded(inputs, edges, edges.Keys, r, r)
    ensures Reached(Feeds(inputs, edges), seeds, r)
  {
    NothingMore(inputs, edges, r);
    LeastFixpoint(Feeds(inputs, edges), seeds, r);
  }

  /**
   * Passes over the edges until one adds nothing. It ends, and with exactly
   * the streams that a seed reaches.
   */
  method RetractingStreams(inputs: Inputs, edges: Edges, seeds: set<string>) returns (r: set<string>)
    requires edges.Keys <= inputs.Keys
    ensures Reached(Feeds(inputs, edges), seeds, r)
  {
    ghost var all := seeds + Outputs(edges);
    SeedsSpread(Feeds(inputs, edges), seeds);
    r := seeds;
    while true
      invariant Universe(edges, all)
      invariant Between(seeds, r, all) && Spread(Feeds(inputs, edges), seeds, r)
      decreases |all - r|
    {
      var previous := r;
      r := Pass(inputs, edges, seeds, all, previous);
      if previous == r {
        Settled(inputs, edges, seeds, all, r);
        return;
      }
    }
  }

  // ----- whether a stream reaches one of several -----

  /** What a search that found nothing has established about the streams it entered. */
  ghost predicate Explored(g: set<(string, string)>, targets: set<string>, before: set<string>, after: set<string>) {
    && before <= after
    && (forall a :: a in after && a !in before ==> a !in targets)
    && forall a, b :: (a, b) in g && a in after && a !in before ==> b in after
  }

  /** The edges in `ids` that read `stream` lead to streams in `after`. */
  ghost predicate Taken(inputs: Inputs, edges: Edges, stream: string, ids: set<string>, after: set<string>) {
    forall id :: id in ids && id in edges && id in inputs && edges[id].active && stream in inputs[id]
                 ==> edges[id].output in after
  }

  ghost predicate Universe(edges: Edges, all: set<string>) {
    forall id :: id in edges ==> edges[id].output in all
  }

  lemma ExploreAll(inputs: Inputs, edges: Edges, targets: set<string>, stream: string,
                   before: set<string>, after: set<string>)
    requires stream !in before && stream !in targets && stream in after
    requires Explored(Feeds(inputs, Active(edges)), targets, before + {stream}, after)
    requires Taken(inputs, edges, stream, edges.Keys, after)
    ensures Explored(Feeds(inputs, Active(edges)), targets, before, after)
  {
    var g := Feeds(inputs, Active(edges));
    forall a, b | (a, b) in g && a in after && a !in before ensures b in after {
      if a == stream {
        FeedsThrough(inputs, Active(edges), a, b);
      }
    }
  }

  lemma ExploreMore(g: set<(string, string)>, targets: set<string>, a: set<string>, b: set<string>, c: set<string>)
    requires Explored(g, targets, a, b) && Explored(g, targets, b, c)
    ensures Explored(g, targets, a, c)
  {
  }

  lemma FollowEdge(inputs: Inputs, edges: Edges, targets: set<string>, stream: string, id: string)
    requires id in edges && id in inputs && edges[id].active && stream in inputs[id]
    requires ReachesSome(Feeds(inputs, Active(edges)), edges[id].output, targets)
    ensures ReachesSome(Feeds(inputs, Active(edges)), stream, targets)
  {
    var g, next := Feeds(inputs, Active(edges)), edges[id].output;
    assert FeedsBy(inputs, Active(edges), id, stream, next);
    FeedsThrough(inputs, Active(edges), stream, next);
    var t :| t in targets && Reaches(g, next, t);
    Ahead(g, stream, next, t);
  }

  lemma NoneReached(g: set<(string, string)>, targets: set<string>, stream: string, after: set<string>)
    requires Explored(g, targets, {}, after) && stream in after
    ensures !ReachesSome(g, stream, targets)
  {
    if ReachesSome(g, stream, targets) {
      var t :| t in targets && Reaches(g, stream, t);
      ClosedHolds(g, after, stream, t);
      assert false;
    }
  }

  class ReachSearch {
    const inputs: Inputs
    const edges: Edges
    const targets: set<string>
    var visited: set<string>
    ghost const all: set<string>
    ghost const feeds: set<(string, string)>

    constructor (inputs: Inputs, edges: Edges, targets: set<string>, stream: string)
      requires edges.Keys <= inputs.Keys
      ensures this.inputs == inputs && this.edges == edges && this.targets == targets
      ensures visited == {} && stream in all && Valid()
    {
      this.inputs, this.edges, this.targets := inputs, edges, targets;
      visited := {};
      all := Outputs(edges) + {stream};
      feeds := Feeds(inputs, Active(edges));
    }

    ghost predicate Valid() {
      edges.Keys <= inputs.Keys && Universe(edges, all) && feeds == Feeds(inputs, Active(edges))
    }

    method Reach(stream: string) returns (found: bool)
      requires Valid() && stream in all
      modifies this
      ensures found ==> ReachesSome(feeds, stream, targets)
      ensures !found ==> stream in visited && Explored(feeds, targets, old(visited), visited)
      decreases |all - visited|, 0
    {
      if stream in targets {
        Here(feeds, stream);
        return true;
      }
      if stream in visited {
        return false;
      }
      ghost var before := visited;
      Fewer(all + visited, visited, visited + {stream});
      assert all + visited - visited == all - visited;
      assert all + visited - (visited + {stream}) == all - (visited + {stream});
      visited := visited + {stream};
      found := FollowEdges(stream);
      if !found {
        ExploreAll(inputs, edges, targets, stream, before, visited);
      }
    }

    method FollowEdges(stream: string) returns (found: bool)
      requires Valid()
      modifies this
      ensures found ==> ReachesSome(feeds, stream, targets)
      ensures !found ==> Explored(feeds, targets, old(visited), visited)
                         && Taken(inputs, edges, stream, edges.Keys, visited)
      decreases |all - visited|, 1
    {
      var todo := edges.Keys;
      while todo != {}
        invariant todo <= edges.Keys && Explored(feeds, targets, old(visited), visited)
        invariant Taken(inputs, edges, stream, edges.Keys - todo, visited)
        invariant |all - visited| <= old(|all - visited|)
        decreases todo
      {
        var id :| id in todo;
        if edges[id].active && stream in inputs[id] {
          ghost var before := visited;
          found := Reach(edges[id].output);
          if found {
            FollowEdge(inputs, edges, targets, stream, id);
            return;
          }
          ExploreMore(feeds, targets, old(visited), before, visited);
          NoMore(all, before, visited);
        }
        todo := todo - {id};
      }
      found := false;
    }
  }

  lemma NoMore(all: set<string>, before: set<string>, after: set<string>)
    requires before <= after
    ensures |all - after| <= |all - before|
  {
    assert all - before == (all - after) + (all * after - before);
  }

  /** True exactly when `stream` is a target or reaches one over active edges. */
  method StreamReachesAny(inputs: Inputs, edges: Edges, stream: string, targets: set<string>) returns (found: bool)
    requires edges.Keys <= inputs.Keys
    ensures found <==> ReachesSome(Feeds(inputs, Active(edges)), stream, targets)
  {
    var search := new ReachSearch(inputs, edges, targets, stream);
    found := search.Reach(stream);
    if !found {
      NoneReached(search.feeds, targets, stream, search.visited);
    }
  }
}
