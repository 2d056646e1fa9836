/**
 Storage keys in the byte order of the database: a strict total order on strings,
 the sorted listing of a finite key set, and prefixes as contiguous ranges.
 */
module Keys {

  type Key = string

  predicate Less(a: Key, b: Key) {
    if b == "" then false
    else if a == "" then true
    else if a[0] != b[0] then a[0] < b[0]
    else Less(a[1..], b[1..])
  }

  predicate AtMost(a: Key, b: Key) {
    a == b || Less(a, b)
  }

  predicate HasPrefix(key: Key, prefix: Key) {
    prefix <= key
  }

  lemma {:induction false} LessIrreflexive(a: Key)
    ensures !Less(a, a)
  {
    if a != "" {
      LessIrreflexive(a[1..]);
    }
  }

  lemma {:induction false} LessTransitive(a: Key, b: Key, c: Key)
    requires Less(a, b) && Less(b, c)
    ensures Less(a, c)
  {
    if a != "" && a[0] == b[0] && b[0] == c[0] {
      LessTransitive(a[1..], b[1..], c[1..]);
    }
  }

  lemma {:induction false} LessAsymmetric(a: Key, b: Key)
    requires Less(a, b)
    ensures !Less(b, a) && a != b
  {
    if Less(b, a) {
      LessTransitive(a, b, a);
    }
    LessIrreflexive(a);
  }

  lemma {:induction false} LessTotal(a: Key, b: Key)
    ensures a == b || Less(a, b) || Less(b, a)
  {
    if a != "" && b != "" && a[0] == b[0] {
      LessTotal(a[1..], b[1..]);
      assert a == [a[0]] + a[1..] && b == [b[0]] + b[1..];
    }
  }

  /** A common prefix does not affect the order. */
  lemma {:induction false} LessAfterPrefix(prefix: Key, a: Key, b: Key)
    ensures Less(prefix + a, prefix + b) <==> Less(a, b)
  {
    if prefix == "" {
      assert prefix + a == a && prefix + b == b;
    } else {
      LessAfterPrefix(prefix[1..], a, b);
      assert (prefix + a)[1..] == prefix[1..] + a && (prefix + b)[1..] == prefix[1..] + b;
    }
  }

  /** Keys that share a prefix are contiguous: nothing else sorts between the prefix and one of them. */
  lemma {:induction false} PrefixContiguous(prefix: Key, a: Key, b: Key)
    requires AtMost(prefix, a) && AtMost(a, b) && HasPrefix(b, prefix)
    ensures HasPrefix(a, prefix)
  {
    if prefix != "" && a != b {
      if prefix == a {
        return;
      }
      assert a != "" && b != "";
      assert a[0] == prefix[0];
      assert AtMost(prefix[1..], a[1..]);
      PrefixContiguous(prefix[1..], a[1..], b[1..]);
      assert a == [a[0]] + a[1..] && prefix == [prefix[0]] + prefix[1..];
    }
  }

  lemma PrefixAtMost(prefix: Key, key: Key)
    requires HasPrefix(key, prefix)
    ensures AtMost(prefix, key)
  {
    var rest := key[|prefix|..];
    assert key == prefix + rest;
    LessAfterPrefix(prefix, "", rest);
    assert prefix + "" == prefix;
  }

  // ---------------------------------------------------------------------------
  // Sorted listings

  predicate IsLeast(s: set<Key>, k: Key) {
    k in s && forall x :: x in s && x != k ==> Less(k, x)
  }

  lemma {:induction false} LeastExists(s: set<Key>)
    requires s != {}
    ensures exists k :: IsLeast(s, k)
    decreases |s|
  {
    var x :| x in s;
    var rest := s - {x};
    if rest == {} {
      assert s == {x};
      assert IsLeast(s, x);
    } else {
      LeastExists(rest);
      var k :| IsLeast(rest, k);
      LessTotal(x, k);
      if Less(k, x) {
        forall y | y in s && y != k ensures Less(k, y) {
          assert y == x || y in rest;
        }
        assert IsLeast(s, k);
      } else {
        forall y | y in s && y != x ensures Less(x, y) {
          assert y in rest;
          if y != k {
            LessTransitive(x, k, y);
          }
        }
        assert IsLeast(s, x);
      }
    }
  }

  lemma LeastUnique(s: set<Key>, a: Key, b: Key)
    requires IsLeast(s, a) && IsLeast(s, b)
    ensures a == b
  {
    if a != b {
      LessAsymmetric(a, b);
    }
  }

  function Least(s: set<Key>): (k: Key)
    requires s != {}
    ensures IsLeast(s, k)
  {
    LeastExists(s);
    assert forall a, b :: IsLeast(s, a) && IsLeast(s, b) ==> a == b by {
      forall a, b | IsLeast(s, a) && IsLeast(s, b) ensures a == b {
        LeastUnique(s, a, b);
      }
    }
    var k :| k in s && IsLeast(s, k);
    k
  }

  /** All elements, in ascending order. */
  function Sorted(s: set<Key>): (r: seq<Key>)
    ensures |r| == |s|
    ensures forall k :: k in r <==> k in s
    decreases |s|
  {
    if s == {} then [] else [Least(s)] + Sorted(s - {Least(s)})
  }

  ghost predicate Ascending(r: seq<Key>) {
    forall i, j :: 0 <= i < j < |r| ==> Less(r[i], r[j])
  }

  lemma {:induction false} SortedAscends(s: set<Key>)
    ensures Ascending(Sorted(s))
    decreases |s|
  {
    if s != {} {
      var rest := s - {Least(s)};
      SortedAscends(rest);
      var r := Sorted(rest);
      assert Sorted(s) == [Least(s)] + r;
      forall j | 0 <= j < |r| ensures Less(Least(s), r[j]) {
        assert r[j] in rest;
      }
    }
  }

  /** An ascending listing of a set is its sorted listing. */
  lemma {:induction false} SortedUnique(r: seq<Key>, s: set<Key>)
    requires Ascending(r)
    requires forall k :: k in r <==> k in s
    ensures r == Sorted(s)
    decreases |r|
  {
    if r == [] {
      assert s == {};
    } else {
      assert r[0] in s;
      assert IsLeast(s, r[0]) by {
        forall x | x in s && x != r[0] ensures Less(r[0], x) {
          assert x in r;
        }
      }
      LeastUnique(s, r[0], Least(s));
      var rest := s - {r[0]};
      forall k ensures k in r[1..] <==> k in rest {
        if k in r[1..] {
          var i :| 0 <= i < |r[1..]| && r[1..][i] == k;
          assert r[i + 1] == k;
          assert Less(r[0], r[i + 1]);
          LessAsymmetric(r[0], k);
          assert k in r;
        }
      }
      SortedUnique(r[1..], rest);
    }
  }

  function Take<T>(r: seq<T>, n: nat): seq<T> {
    if n <= |r| then r[..n] else r
  }

  ghost function Below(s: set<Key>, k: Key): set<Key> {
    set x | x in s && Less(x, k)
  }

  lemma NothingBelowLeast(part: set<Key>, all: set<Key>)
    requires all != {} && part <= all
    ensures Below(part, Least(all)) == {}
  {
    forall x | x in part ensures !Less(x, Least(all)) {
      if x != Least(all) {
        LessAsymmetric(Least(all), x);
      } else {
        LessIrreflexive(x);
      }
    }
  }

  lemma BelowShrinks(s: set<Key>, m: Key, k: Key)
    ensures |Below(s - {m}, k)| >= |Below(s, k)| - 1
  {
    assert Below(s - {m}, k) == Below(s, k) - {m};
  }

  lemma TakeSorted(s: set<Key>, n: nat)
    requires s != {} && n > 0
    ensures Take(Sorted(s), n) == [Least(s)] + Take(Sorted(s - {Least(s)}), n - 1)
  {
    var rest := Sorted(s - {Least(s)});
    TakeOne(Least(s), rest, n);
  }

  lemma TakeOne<T>(first: T, rest: seq<T>, n: nat)
    requires n > 0
    ensures Take([first] + rest, n) == [first] + Take(rest, n - 1)
  {
    if n - 1 <= |rest| {
      assert ([first] + rest)[..n] == [first] + rest[..n - 1];
    }
  }

  /** Leaving out keys that have at least `n` remaining keys below them does not change the first `n`. */
  lemma {:induction false} TakeAgrees(part: set<Key>, all: set<Key>, n: nat)
    requires part <= all
    requires forall k :: k in all && k !in part ==> |Below(part, k)| >= n
    ensures Take(Sorted(part), n) == Take(Sorted(all), n)
    decreases n
  {
    if n == 0 {
      return;
    }
    if all == {} {
      assert part == {};
      return;
    }
    var m := Least(all);
    NothingBelowLeast(part, all);
    assert m in part;
    LeastUnique(part, m, Least(part));
    forall k | k in all - {m} && k !in part - {m} ensures |Below(part - {m}, k)| >= n - 1 {
      BelowShrinks(part, m, k);
    }
    TakeAgrees(part - {m}, all - {m}, n - 1);
    TakeSorted(part, n);
    TakeSorted(all, n);
  }
}
