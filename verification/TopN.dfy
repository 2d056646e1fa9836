/** The first n of a bag in key order, with multiplicity: what a bounded scan returns and what it means. */
module TopN {
  import opened Wrappers
  import opened Keys
  import Sequences

  /** How often each key occurs; a key that occurs never is not there. */
  type Bag = map<Key, nat>

  ghost predicate Positive(b: Bag) {
    forall k :: k in b ==> b[k] > 0
  }

  function CountIn(b: Bag, k: Key): nat {
    if k in b then b[k] else 0
  }

  function SumOf(b: Bag, keys: seq<Key>): nat {
    if keys == [] then 0 else SumOf(b, keys[..|keys| - 1]) + CountIn(b, keys[|keys| - 1])
  }

  /** How many occurrences come before a key. */
  ghost function Ahead(b: Bag, k: Key): nat {
    SumOf(b, Sorted(Below(b.Keys, k)))
  }

  function Room(n: nat, ahead: nat, count: nat): nat {
    if ahead >= n then 0 else Sequences.Min2(n - ahead, count)
  }

  /** Walks the keys in order and takes of each what still fits. */
  function Walk(b: Bag, keys: seq<Key>, remaining: nat): Bag
    decreases |keys|
  {
    if keys == [] || remaining == 0 then map[]
    else
      var taken := Sequences.Min2(CountIn(b, keys[0]), remaining);
      Walk(b, keys[1..], remaining - taken)[keys[0] := taken]
  }

  /** The winners: of the first `n` keys only, since each occurs at least once. */
  function Top(b: Bag, n: nat): Bag {
    Walk(b, Take(Sorted(b.Keys), n), n)
  }

  /** What the winners mean: each key gets the room that the occurrences before it leave. */
  ghost predicate IsTop(t: Bag, b: Bag, n: nat) {
    forall k :: CountIn(t, k) == Room(n, Ahead(b, k), CountIn(b, k))
  }

  /** A scan limited to `n` keys, then as many of each as still fit. */
  method Winners(b: Bag, n: nat) returns (t: Bag)
    requires Positive(b)
    ensures t == Top(b, n) && Positive(t)
  {
    var keys := Take(Sorted(b.Keys), n);
    TakeIn(b.Keys, n);
    SortedDistinct(b.Keys, n);
    t := TakeWhileRoom(b, keys, n);
  }

  method TakeWhileRoom(b: Bag, keys: seq<Key>, n: nat) returns (t: Bag)
    requires Positive(b) && Ascending(keys) && forall i :: 0 <= i < |keys| ==> keys[i] in b
    ensures t == Walk(b, keys, n) && Positive(t)
  {
    var remaining := n;
    t := map[];
    assert keys[0..] == keys;
    assert Joined(map[], Walk(b, keys, n)) == Walk(b, keys, n);
    for j := 0 to |keys|
      invariant Positive(t) && Among(t, keys, j)
      invariant Joined(t, Walk(b, keys[j..], remaining)) == Walk(b, keys, n)
    {
      if remaining == 0 { break; }
      var taken := Sequences.Min2(b[keys[j]], remaining);
      WalkStep(t, b, keys, j, remaining, taken, remaining - taken);
      remaining := remaining - taken;
      t := t[keys[j] := taken];
    }
    assert Joined(t, map[]) == t;
  }

  ghost predicate Among(t: Bag, keys: seq<Key>, j: nat) {
    forall k :: k in t ==> exists a :: 0 <= a < j && a < |keys| && keys[a] == k
  }

  lemma WalkStep(t: Bag, b: Bag, keys: seq<Key>, j: nat, remaining: nat, taken: nat, left: nat)
    requires Ascending(keys) && j < |keys| && remaining > 0 && keys[j] in b && Among(t, keys, j)
    requires taken == Sequences.Min2(b[keys[j]], remaining) && left == remaining - taken
    ensures Joined(t[keys[j] := taken], Walk(b, keys[j + 1..], left)) == Joined(t, Walk(b, keys[j..], remaining))
    ensures Among(t[keys[j] := taken], keys, j + 1)
  {
    var rest := Walk(b, keys[j + 1..], left);
    assert keys[j..][0] == keys[j] && keys[j..][1..] == keys[j + 1..];
    WalkKeys(b, keys[j + 1..], left);
    AscendingDistinct(keys);
    assert Walk(b, keys[j..], remaining) == rest[keys[j] := taken];
    forall k | k in t ensures k != keys[j] {
      var a :| 0 <= a < j && keys[a] == k;
    }
    assert keys[j] !in rest;
    assert Joined(t, rest[keys[j] := taken]) == Joined(t[keys[j] := taken], rest);
    var more := t[keys[j] := taken];
    forall k | k in more ensures exists a :: 0 <= a < j + 1 && a < |keys| && keys[a] == k {
      if k != keys[j] {
        var a :| 0 <= a < j && keys[a] == k;
      }
    }
  }

  function Joined(a: Bag, b: Bag): Bag {
    a + b
  }

  lemma TakeIn(s: set<Key>, n: nat)
    ensures forall i :: 0 <= i < |Take(Sorted(s), n)| ==> Take(Sorted(s), n)[i] in s
  {
    forall i | 0 <= i < |Take(Sorted(s), n)| ensures Take(Sorted(s), n)[i] in s {
      assert Sorted(s)[i] in Sorted(s);
    }
  }

  lemma AscendingDistinct(keys: seq<Key>)
    requires Ascending(keys)
    ensures forall i, j :: 0 <= i < j < |keys| ==> keys[i] != keys[j]
  {
    forall i, j | 0 <= i < j < |keys| ensures keys[i] != keys[j] {
      LessIrreflexive(keys[i]);
    }
  }

  lemma SortedDistinct(s: set<Key>, n: nat)
    ensures Ascending(Take(Sorted(s), n))
    ensures forall i, j :: 0 <= i < j < |Take(Sorted(s), n)| ==> Take(Sorted(s), n)[i] != Take(Sorted(s), n)[j]
  {
    SortedAscends(s);
    AscendingDistinct(Sorted(s));
  }

  lemma {:induction false} WalkKeys(b: Bag, keys: seq<Key>, remaining: nat)
    ensures forall k :: k in Walk(b, keys, remaining) ==> exists a :: 0 <= a < |keys| && keys[a] == k
    decreases |keys|
  {
    if keys != [] && remaining > 0 {
      var taken := Sequences.Min2(CountIn(b, keys[0]), remaining);
      WalkKeys(b, keys[1..], remaining - taken);
      var rest := Walk(b, keys[1..], remaining - taken);
      forall k | k in Walk(b, keys, remaining) ensures exists a :: 0 <= a < |keys| && keys[a] == k {
        if k != keys[0] {
          var a :| 0 <= a < |keys[1..]| && keys[1..][a] == k;
          assert keys[a + 1] == k;
        }
      }
    }
  }

  lemma {:induction false} SumHead(b: Bag, keys: seq<Key>)
    requires keys != []
    ensures SumOf(b, keys) == CountIn(b, keys[0]) + SumOf(b, keys[1..])
    decreases |keys|
  {
    if |keys| > 1 {
      SumHead(b, keys[..|keys| - 1]);
      assert keys[..|keys| - 1][1..] == keys[1..][..|keys| - 2];
    }
  }

  /** Along an ascending walk every key gets the room the earlier ones leave. */
  lemma {:induction false} WalkAt(b: Bag, keys: seq<Key>, remaining: nat, i: nat)
    requires Ascending(keys) && i < |keys|
    ensures CountIn(Walk(b, keys, remaining), keys[i]) == Room(remaining, SumOf(b, keys[..i]), CountIn(b, keys[i]))
    decreases |keys|
  {
    AscendingDistinct(keys);
    if remaining > 0 {
      var taken := Sequences.Min2(CountIn(b, keys[0]), remaining);
      if i > 0 {
        var rest := keys[1..];
        assert forall a, c :: 0 <= a < c < |rest| ==> rest[a] == keys[a + 1] && rest[c] == keys[c + 1];
        var j: nat := i - 1;
        WalkAt(b, rest, remaining - taken, j);
        assert rest[j] == keys[i];
        SumHead(b, keys[..i]);
        assert keys[..i][1..] == rest[..j];
      }
    }
  }

  /** The keys before the i-th are exactly those below it. */
  lemma BelowIsPrefix(s: set<Key>, i: nat)
    requires i < |Sorted(s)|
    ensures Sorted(Below(s, Sorted(s)[i])) == Sorted(s)[..i]
  {
    var all := Sorted(s);
    var k := all[i];
    SortedAscends(s);
    forall x ensures x in all[..i] <==> x in Below(s, k) {
      if x in all[..i] {
        var a :| 0 <= a < i && all[a] == x;
        assert x in all;
      }
      if x in Below(s, k) {
        assert x in all;
        var a :| 0 <= a < |all| && all[a] == x;
        if a >= i {
          if a > i { LessAsymmetric(x, k); } else { LessIrreflexive(k); }
        }
        assert all[..i][a] == x;
      }
    }
    assert forall a, c :: 0 <= a < c < |all[..i]| ==> Less(all[..i][a], all[..i][c]);
    SortedUnique(all[..i], Below(s, k));
  }

  lemma {:induction false} SumAtLeast(b: Bag, keys: seq<Key>)
    requires Positive(b) && forall i :: 0 <= i < |keys| ==> keys[i] in b
    ensures SumOf(b, keys) >= |keys|
    decreases |keys|
  {
    if keys != [] {
      assert keys[|keys| - 1] in b;
      SumAtLeast(b, keys[..|keys| - 1]);
    }
  }

  lemma TopAt(b: Bag, n: nat, i: nat)
    requires Positive(b) && i < |Sorted(b.Keys)|
    ensures var k := Sorted(b.Keys)[i];
            CountIn(Top(b, n), k) == Room(n, SumOf(b, Sorted(b.Keys)[..i]), CountIn(b, k))
  {
    var all := Sorted(b.Keys);
    var keys := Take(all, n);
    SortedDistinct(b.Keys, n);
    if i < |keys| {
      WalkAt(b, keys, n, i);
      assert keys[..i] == all[..i];
    } else {
      TopBeyond(b, n, i);
    }
  }

  /** Past the walk's bound the room is used up and nothing is taken. */
  lemma TopBeyond(b: Bag, n: nat, i: nat)
    requires Positive(b) && i < |Sorted(b.Keys)| && i >= |Take(Sorted(b.Keys), n)|
    ensures CountIn(Top(b, n), Sorted(b.Keys)[i]) == 0 && SumOf(b, Sorted(b.Keys)[..i]) >= n
  {
    var all := Sorted(b.Keys);
    var keys := Take(all, n);
    TakeIn(b.Keys, |all|);
    SumAtLeast(b, all[..i]);
    SortedAscends(b.Keys);
    AscendingDistinct(all);
    WalkKeys(b, keys, n);
  }

  /** The bounded walk finds exactly the first n with multiplicity. */
  lemma TopIsTop(b: Bag, n: nat)
    requires Positive(b)
    ensures IsTop(Top(b, n), b, n)
  {
    var all := Sorted(b.Keys);
    forall k ensures CountIn(Top(b, n), k) == Room(n, Ahead(b, k), CountIn(b, k)) {
      if k in b {
        assert k in all;
        var i :| 0 <= i < |all| && all[i] == k;
        BelowIsPrefix(b.Keys, i);
        TopAt(b, n, i);
      } else {
        TopOnly(b, n, k);
      }
    }
  }

  lemma TopOnly(b: Bag, n: nat, k: Key)
    requires k !in b
    ensures k !in Top(b, n)
  {
    WalkKeys(b, Take(Sorted(b.Keys), n), n);
    TakeIn(b.Keys, n);
  }
}
