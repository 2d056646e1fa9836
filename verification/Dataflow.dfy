/**
 * Finite directed graphs as sets of arcs: reachability, cycles, and what one
 * more bundle of arcs into a single vertex changes.
 */
module Dataflow {

  ghost predicate Hop<V(!new)>(g: set<(V, V)>, p: seq<V>, i: nat)
    requires i + 1 < |p|
  {
    (p[i], p[i + 1]) in g
  }

  ghost predicate Walk<V(!new)>(g: set<(V, V)>, a: V, b: V, p: seq<V>) {
    |p| > 0 && p[0] == a && p[|p| - 1] == b
    && forall i :: 0 <= i < |p| - 1 ==> Hop(g, p, i)
  }

  /** `b` is `a` itself or comes after it. */
  ghost predicate Reaches<V(!new)>(g: set<(V, V)>, a: V, b: V) {
    exists p :: Walk(g, a, b, p)
  }

  ghost predicate OnCycle<V(!new)>(g: set<(V, V)>, a: V) {
    exists b :: (a, b) in g && Reaches(g, b, a)
  }

  ghost predicate Acyclic<V(!new)>(g: set<(V, V)>) {
    forall a :: !OnCycle(g, a)
  }

  ghost predicate ReachesSome<V(!new)>(g: set<(V, V)>, a: V, targets: set<V>) {
    exists t {:trigger Reaches(g, a, t)} :: t in targets && Reaches(g, a, t)
  }

  ghost predicate Closed<V(!new)>(g: set<(V, V)>, s: set<V>) {
    forall a, b :: (a, b) in g && a in s ==> b in s
  }

  lemma Here<V(!new)>(g: set<(V, V)>, a: V)
    ensures Reaches(g, a, a)
  {
    assert Walk(g, a, a, [a]);
  }

  lemma Ahead<V(!new)>(g: set<(V, V)>, a: V, b: V, c: V)
    requires (a, b) in g && Reaches(g, b, c)
    ensures Reaches(g, a, c)
  {
    var p :| Walk(g, b, c, p);
    var q := [a] + p;
    forall i | 0 <= i < |q| - 1 ensures Hop(g, q, i) {
      if i > 0 {
        assert Hop(g, p, i - 1);
      }
    }
    assert Walk(g, a, c, q);
  }

  lemma Arc<V(!new)>(g: set<(V, V)>, a: V, b: V)
    requires (a, b) in g
    ensures Reaches(g, a, b)
  {
    Here(g, b);
    Ahead(g, a, b, b);
  }

  lemma FirstHop<V(!new)>(g: set<(V, V)>, a: V, c: V, p: seq<V>) returns (b: V)
    requires Walk(g, a, c, p) && |p| > 1
    ensures (a, b) in g && b == p[1] && Walk(g, b, c, p[1..])
  {
    b := p[1];
    assert Hop(g, p, 0);
    forall i | 0 <= i < |p[1..]| - 1 ensures Hop(g, p[1..], i) {
      assert Hop(g, p, i + 1);
    }
  }

  lemma {:induction false} JoinWalks<V(!new)>(g: set<(V, V)>, a: V, b: V, c: V, p: seq<V>)
    requires Walk(g, a, b, p) && Reaches(g, b, c)
    ensures Reaches(g, a, c)
    decreases |p|
  {
    if |p| > 1 {
      var m := FirstHop(g, a, b, p);
      JoinWalks(g, m, b, c, p[1..]);
      Ahead(g, a, m, c);
    }
  }

  lemma Through<V(!new)>(g: set<(V, V)>, a: V, b: V, c: V)
    requires Reaches(g, a, b) && Reaches(g, b, c)
    ensures Reaches(g, a, c)
  {
    var p :| Walk(g, a, b, p);
    JoinWalks(g, a, b, c, p);
  }

  lemma {:induction false} ClosedWalk<V(!new)>(g: set<(V, V)>, s: set<V>, a: V, b: V, p: seq<V>)
    requires Closed(g, s) && a in s && Walk(g, a, b, p)
    ensures b in s
    decreases |p|
  {
    if |p| > 1 {
      var m := FirstHop(g, a, b, p);
      ClosedWalk(g, s, m, b, p[1..]);
    }
  }

  /** A closed set holds everything its members reach. */
  lemma ClosedHolds<V(!new)>(g: set<(V, V)>, s: set<V>, a: V, b: V)
    requires Closed(g, s) && a in s && Reaches(g, a, b)
    ensures b in s
  {
    var p :| Walk(g, a, b, p);
    ClosedWalk(g, s, a, b, p);
  }

  lemma More<V(!new)>(g: set<(V, V)>, h: set<(V, V)>, a: V, b: V)
    requires g <= h && Reaches(g, a, b)
    ensures Reaches(h, a, b)
  {
    var p :| Walk(g, a, b, p);
    forall i | 0 <= i < |p| - 1 ensures Hop(h, p, i) {
      assert Hop(g, p, i);
    }
    assert Walk(h, a, b, p);
  }

  lemma FewerArcs<V(!new)>(g: set<(V, V)>, h: set<(V, V)>)
    requires g <= h && Acyclic(h)
    ensures Acyclic(g)
  {
    forall a ensures !OnCycle(g, a) {
      if OnCycle(g, a) {
        var b :| (a, b) in g && Reaches(g, b, a);
        More(g, h, b, a);
        assert OnCycle(h, a);
      }
    }
  }

  lemma ClosesLoop<V(!new)>(g: set<(V, V)>, a: V, b: V)
    requires (a, b) in g && Reaches(g, b, a)
    ensures !Acyclic(g)
  {
    assert OnCycle(g, a);
  }

  /** Arcs from every vertex of `from` to the one vertex `to`. */
  ghost function Into<V(!new)>(from: set<V>, to: V): set<(V, V)> {
    set a | a in from :: (a, to)
  }

  lemma {:induction false} LastUse<V(!new)>(g: set<(V, V)>, from: set<V>, to: V, a: V, b: V, p: seq<V>)
    requires Walk(g + Into(from, to), a, b, p)
    ensures Reaches(g, a, b) || (ReachesSome(g, a, from) && Reaches(g, to, b))
    decreases |p|
  {
    if |p| == 1 {
      Here(g, a);
    } else {
      var m := FirstHop(g + Into(from, to), a, b, p);
      LastUse(g, from, to, m, b, p[1..]);
      if (a, m) in g {
        if Reaches(g, m, b) {
          Ahead(g, a, m, b);
        } else {
          var t :| t in from && Reaches(g, m, t);
          Ahead(g, a, m, t);
        }
      } else {
        Here(g, a);
        assert a in from && m == to;
      }
    }
  }

  /**
   * With arcs from `from` into `to` added, a walk either does without them or
   * enters them once: it reaches `from` first and leaves from `to` last.
   */
  lemma ReachedWith<V(!new)>(g: set<(V, V)>, from: set<V>, to: V, a: V, b: V)
    ensures Reaches(g + Into(from, to), a, b)
            <==> Reaches(g, a, b) || (ReachesSome(g, a, from) && Reaches(g, to, b))
  {
    var h := g + Into(from, to);
    if Reaches(h, a, b) {
      var p :| Walk(h, a, b, p);
      LastUse(g, from, to, a, b, p);
    }
    if Reaches(g, a, b) {
      More(g, h, a, b);
    }
    if ReachesSome(g, a, from) && Reaches(g, to, b) {
      var t :| t in from && Reaches(g, a, t);
      More(g, h, a, t);
      More(g, h, to, b);
      Ahead(h, t, to, b);
      Through(h, a, t, b);
    }
  }

  lemma LoopWith<V(!new)>(g: set<(V, V)>, from: set<V>, to: V, a: V)
    requires OnCycle(g + Into(from, to), a) && !OnCycle(g, a)
    ensures ReachesSome(g, to, from)
  {
    var b :| (a, b) in g + Into(from, to) && Reaches(g + Into(from, to), b, a);
    ReachedWith(g, from, to, b, a);
    if (a, b) in g {
      assert !Reaches(g, b, a);
      var t :| t in from && Reaches(g, b, t);
      Ahead(g, a, b, t);
      Through(g, to, a, t);
    } else {
      assert a in from && b == to;
      assert Reaches(g, to, a);
    }
  }

  /** Adding the arcs keeps a graph acyclic exactly when `to` does not reach `from`. */
  lemma AcyclicWith<V(!new)>(g: set<(V, V)>, from: set<V>, to: V)
    ensures Acyclic(g + Into(from, to)) <==> Acyclic(g) && !ReachesSome(g, to, from)
  {
    var h := g + Into(from, to);
    if Acyclic(h) {
      FewerArcs(g, h);
      if ReachesSome(g, to, from) {
        var t :| t in from && Reaches(g, to, t);
        More(g, h, to, t);
        ClosesLoop(h, t, to);
      }
    }
    if Acyclic(g) && !ReachesSome(g, to, from) {
      forall a ensures !OnCycle(h, a) {
        if OnCycle(h, a) {
          LoopWith(g, from, to, a);
        }
      }
    }
  }
}
