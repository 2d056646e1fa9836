/** Finite sets of sequence numbers and their ascending listing. */
module Sequences {

  predicate IsMin(s: set<nat>, n: nat) {
    n in s && forall x :: x in s ==> n <= x
  }

  lemma {:induction false} MinExists(s: set<nat>)
    requires s != {}
    ensures exists n :: IsMin(s, n)
    decreases |s|
  {
    var x :| x in s;
    var rest := s - {x};
    if rest == {} {
      assert s == {x};
      assert IsMin(s, x);
    } else {
      MinExists(rest);
      var m :| IsMin(rest, m);
      assert forall y :: y in s ==> y == x || y in rest;
      assert IsMin(s, if x < m then x else m);
    }
  }

  function Min(s: set<nat>): (n: nat)
    requires s != {}
    ensures IsMin(s, n)
  {
    MinExists(s);
    var n :| n in s && IsMin(s, n);
    n
  }

  function Ascend(s: set<nat>): (r: seq<nat>)
    ensures |r| == |s|
    ensures forall n :: n in r <==> n in s
    decreases |s|
  {
    if s == {} then [] else [Min(s)] + Ascend(s - {Min(s)})
  }

  ghost predicate Increasing(r: seq<nat>) {
    forall i, j :: 0 <= i < j < |r| ==> r[i] < r[j]
  }

  lemma {:induction false} AscendIncreases(s: set<nat>)
    ensures Increasing(Ascend(s))
    decreases |s|
  {
    if s != {} {
      var rest := s - {Min(s)};
      AscendIncreases(rest);
      var r := Ascend(rest);
      assert Ascend(s) == [Min(s)] + r;
      forall j | 0 <= j < |r| ensures Min(s) < r[j] {
        assert r[j] in rest;
      }
    }
  }

  function Min2(a: nat, b: nat): nat {
    if a <= b then a else b
  }

  /** The members below `n`. */
  function Lower(keys: set<nat>, n: nat): set<nat> {
    set m | m in keys && m < n
  }

  lemma LowerInRest(keys: set<nat>, first: nat, n: nat)
    requires IsMin(keys, first) && n in keys && n != first
    ensures |Lower(keys, n)| == |Lower(keys - {first}, n)| + 1
  {
    assert Lower(keys, n) == Lower(keys - {first}, n) + {first};
  }

  /** The entry at place `i` of the ascending listing has `i` entries below it. */
  lemma {:induction false} AscendRank(keys: set<nat>, i: nat)
    requires i < |keys|
    ensures |Lower(keys, Ascend(keys)[i])| == i
    decreases |keys|
  {
    var first := Min(keys);
    var rest := keys - {first};
    if i == 0 {
      assert Lower(keys, first) == {};
    } else {
      AscendRank(rest, i - 1);
      var n := Ascend(rest)[i - 1];
      assert n in Ascend(rest);
      LowerInRest(keys, first, n);
      assert Ascend(keys)[i] == n;
    }
  }

  /** The first `k` of the listing are the members with fewer than `k` below them. */
  lemma InScan(keys: set<nat>, k: nat, n: nat)
    requires k <= |keys|
    ensures n in Ascend(keys)[..k] <==> n in keys && |Lower(keys, n)| < k
  {
    var all := Ascend(keys);
    if n in keys {
      var i :| 0 <= i < |all| && all[i] == n;
      AscendRank(keys, i);
      if i < k { assert all[..k][i] == n; }
      if n in all[..k] {
        var j :| 0 <= j < k && all[..k][j] == n;
        AscendRank(keys, j);
      }
    }
  }

  lemma SmallRank(keys: set<nat>, n: nat)
    requires n in keys
    ensures |Lower(keys, n)| < |keys|
  {
    assert keys == Lower(keys, n) + {n} + (keys - Lower(keys, n) - {n});
  }

  lemma LowerGrows(keys: set<nat>, m: nat, n: nat)
    requires m < n
    ensures |Lower(keys, m)| <= |Lower(keys, n)|
  {
    assert Lower(keys, n) == Lower(keys, m) + (Lower(keys, n) - Lower(keys, m));
  }

  function Ceiling(n: nat, d: nat): nat
    requires d > 0
  {
    (n + d - 1) / d
  }

  lemma CeilingCovers(n: nat, d: nat)
    requires d > 0
    ensures Ceiling(n, d) * d >= n
    ensures n > 0 ==> (Ceiling(n, d) - 1) * d < n
  {
  }
}
