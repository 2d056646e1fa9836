/** The operator as it runs: it keeps a keyed arrangement, ordered candidates, the maintained rows and the change log together. */
module RelationalOperator {
  import opened Wrappers
  import opened ChangeLog
  import opened Keys
  import opened TopN
  import opened CandidateKeys
  import opened Relational

  /** A row's full identity as text; distinct rows have distinct texts. */
  type Naming = Row -> string

  ghost predicate Tells(name: Naming) {
    forall a, b :: name(a) == name(b) ==> a == b
  }

  ghost predicate FitsRow(order: Order, row: Row, kinds: Kinds) {
    Fits(order, row.value, kinds)
  }

  ghost predicate AllFit(order: Order, t: Table, kinds: Kinds) {
    forall row :: row in t ==> FitsRow(order, row, kinds)
  }

  /** A candidate's key in its group: the sort columns, then the row's identity. */
  function CandidateKey(order: Order, name: Naming, row: Row): Key {
    if forall i :: 0 <= i < |order| ==> order[i].0 in row.value && Sortable(row.value[order[i].0])
    then ColumnKey("", Values(order, row.value), Directions(order), name(row)) else ""
  }

  predicate NoSlash(s: string) {
    forall i :: 0 <= i < |s| ==> s[i] != '/'
  }

  lemma {:induction false} SplitAtSlash(x: string, y: string, i: string, j: string)
    requires NoSlash(x) && NoSlash(y) && x + ("/" + i) == y + ("/" + j)
    ensures x == y && i == j
    decreases |x|
  {
    var p, q := x + ("/" + i), y + ("/" + j);
    if x == "" {
      assert p[0] == '/' && q[0] == p[0];
      assert y == "";
      assert p[1..] == i && q[1..] == j;
    } else {
      assert p[0] == x[0] && q[0] == p[0];
      assert y != "";
      assert p[1..] == x[1..] + ("/" + i) && q[1..] == y[1..] + ("/" + j);
      SplitAtSlash(x[1..], y[1..], i, j);
    }
  }

  lemma CodedNoSlash(s: string)
    requires Coded(s)
    ensures NoSlash(s) && NoSlash(Reversed(s))
  {
    forall i | 0 <= i < |s| ensures s[i] != '/' && Mirrored(s[i]) != '/' {
      if s[i] != '!' {
        var d :| 0 <= d < 16 && s[i] == Digit(d);
        DigitOrder(d, d);
        DigitOrder(15 - d, 15 - d);
        NotSlash(d);
        NotSlash(15 - d);
      }
    }
  }

  lemma NotSlash(d: nat)
    requires d < 16
    ensures Digit(d) != '/'
  {
  }

  lemma {:induction false} SortNoSlash(v: seq<Scalar>, d: seq<Direction>)
    requires |v| == |d| && AllSortable(v)
    ensures NoSlash(SortText(v, d))
    decreases |v|
  {
    if v != [] {
      SortNoSlash(v[1..], d[1..]);
      if !v[0].Null? {
        PlainCoded(v[0]);
        CodedNoSlash(Plain(v[0]));
      }
    }
  }

  /** Two rows with the same candidate key are the same row. */
  lemma KeysTell(order: Order, name: Naming, a: Row, b: Row, kinds: Kinds)
    requires Tells(name) && FitsRow(order, a, kinds) && FitsRow(order, b, kinds)
    requires CandidateKey(order, name, a) == CandidateKey(order, name, b)
    ensures a == b
  {
    var x, y := SortText(Values(order, a.value), Directions(order)), SortText(Values(order, b.value), Directions(order));
    SortNoSlash(Values(order, a.value), Directions(order));
    SortNoSlash(Values(order, b.value), Directions(order));
    assert "" + (x + ("/" + name(a))) == x + ("/" + name(a)) && "" + (y + ("/" + name(b))) == y + ("/" + name(b));
    SplitAtSlash(x, y, name(a), name(b));
  }

  ghost predicate Distinct(order: Order, name: Naming, t: Table) {
    forall a, b :: a in t && b in t && CandidateKey(order, name, a) == CandidateKey(order, name, b) ==> a == b
  }

  lemma FitDistinct(order: Order, name: Naming, t: Table, kinds: Kinds)
    requires Tells(name) && AllFit(order, t, kinds)
    ensures Distinct(order, name, t)
  {
    forall a, b | a in t && b in t && CandidateKey(order, name, a) == CandidateKey(order, name, b) ensures a == b {
      KeysTell(order, name, a, b, kinds);
    }
  }

  /** One group's candidates by key, with their multiplicities. */
  function GroupBag(order: Order, name: Naming, t: Table, g: RowKey): Bag
    requires Distinct(order, name, t)
  {
    map row | row in t && row.key == g :: CandidateKey(order, name, row) := t[row]
  }

  /** How often a row is among the first `n` of its group. */
  function WinnerCount(spec: Spec, name: Naming, t: Table, row: Row): nat
    requires Distinct(spec.order, name, t)
  {
    if row in t then CountIn(Top(GroupBag(spec.order, name, t, row.key), spec.n), CandidateKey(spec.order, name, row)) else 0
  }

  lemma GroupBagPositive(order: Order, name: Naming, t: Table, g: RowKey)
    requires Distinct(order, name, t)
    ensures Positive(GroupBag(order, name, t, g))
    ensures forall row :: row in t && row.key == g ==> CountIn(GroupBag(order, name, t, g), CandidateKey(order, name, row)) == t[row]
  {
  }

  /** The winners of a row's group leave it exactly the room the rows before it leave. */
  lemma WinnerIsTop(spec: Spec, name: Naming, t: Table, row: Row)
    requires Distinct(spec.order, name, t) && row in t
    ensures WinnerCount(spec, name, t, row) ==
            Room(spec.n, Ahead(GroupBag(spec.order, name, t, row.key), CandidateKey(spec.order, name, row)), t[row])
  {
    GroupBagPositive(spec.order, name, t, row.key);
    TopIsTop(GroupBag(spec.order, name, t, row.key), spec.n);
  }

  lemma WinnerAtMost(spec: Spec, name: Naming, t: Table, row: Row)
    requires Distinct(spec.order, name, t)
    ensures WinnerCount(spec, name, t, row) <= t[row]
  {
    if row in t { WinnerIsTop(spec, name, t, row); }
  }

  /** A group that did not change keeps its winners. */
  lemma SameGroup(spec: Spec, name: Naming, t: Table, t': Table, row: Row)
    requires Distinct(spec.order, name, t) && Distinct(spec.order, name, t')
    requires forall r: Row :: r.key == row.key ==> t[r] == t'[r]
    ensures WinnerCount(spec, name, t, row) == WinnerCount(spec, name, t', row)
  {
    assert GroupBag(spec.order, name, t, row.key) == GroupBag(spec.order, name, t', row.key);
  }

  // ---------------------------------------------------------------------------
  // The change log

  class Operator {
    const spec: Spec
    const name: Naming
    var primary: map<Identity, Row>
    var kinds: Kinds
    var candidates: Table
    var output: Table
    var changes: seq<Change>
    ghost var contents: Contents

    ghost predicate Balanced()
      reads this
    {
      InBalance(changes, output)
    }

    method EmitDelta(row: Row, diff: int) returns (ok: bool)
      requires Balanced()
      modifies this`output, this`changes
      ensures ok <==> old(output)[row] + diff >= 0
      ensures ok ==> Balanced() && output == old(output)[row := old(output)[row] + diff]
      ensures ok ==> old(changes) <= changes && |changes| == |old(changes)| + (if diff < 0 then -diff else diff)
    {
      var count := output[row] + diff;
      if count < 0 { return false; }
      output := output[row := count];
      var units := if diff < 0 then -diff else diff;
      for i := 0 to units
        invariant old(changes) <= changes && |changes| == |old(changes)| + i && output == old(output)[row := count]
        invariant forall r: Row :: Net(changes, r) == old(output)[r] + if r == row then (if diff < 0 then -i else i) else 0
      {
        forall r: Row ensures Net(changes + [(row, if diff > 0 then 1 else -1)], r) == Net(changes, r) + if r == row then (if diff > 0 then 1 else -1) else 0 {
          NetSnoc(changes, (row, if diff > 0 then 1 else -1), r);
        }
        changes := changes + [(row, if diff > 0 then 1 else -1)];
      }
      forall r: Row ensures Net(changes, r) == output[r] {
        assert Net(changes, r) == old(output)[r] + if r == row then (if diff < 0 then -units else units) else 0;
      }
      return true;
    }

    /** Checked bag update: a retraction must find its row. */
    method UpdateCandidate(row: Row, diff: int) returns (ok: bool)
      requires diff == 1 || diff == -1
      modifies this`candidates
      ensures ok <==> diff > 0 || row in old(candidates)
      ensures ok ==> candidates == if diff > 0 then old(candidates) + multiset{row} else old(candidates) - multiset{row}
    {
      var count := candidates[row] + diff;
      if count < 0 { return false; }
      candidates := candidates[row := count];
      return true;
    }

    /** The winners of some groups, as the operator finds them: a bounded scan of each group in key order. */
    method FindWinners(groups: set<RowKey>) returns (found: map<Row, nat>)
      requires Distinct(spec.order, name, candidates)
      ensures forall row :: row in found <==> row in candidates && row.key in groups && WinnerCount(spec, name, candidates, row) > 0
      ensures forall row :: row in found ==> found[row] == WinnerCount(spec, name, candidates, row)
    {
      found := map[];
      var todo := groups;
      while todo != {}
        invariant todo <= groups
        invariant forall row :: row in found <==> row in candidates && row.key in groups - todo && WinnerCount(spec, name, candidates, row) > 0
        invariant forall row :: row in found ==> found[row] == WinnerCount(spec, name, candidates, row)
        decreases |todo|
      {
        var g :| g in todo;
        todo := todo - {g};
        var more := GroupWinners(g);
        found := found + more;
      }
    }

    /** One group's bounded scan. */
    method GroupWinners(g: RowKey) returns (found: map<Row, nat>)
      requires Distinct(spec.order, name, candidates)
      ensures forall row :: row in found <==> row in candidates && row.key == g && WinnerCount(spec, name, candidates, row) > 0
      ensures forall row :: row in found ==> found[row] == WinnerCount(spec, name, candidates, row)
    {
      var bag := GroupBag(spec.order, name, candidates, g);
      GroupBagPositive(spec.order, name, candidates, g);
      var top := Winners(bag, spec.n);
      found := map row | row in candidates && row.key == g && CandidateKey(spec.order, name, row) in top :: top[CandidateKey(spec.order, name, row)];
      assert forall row :: row in candidates && row.key == g ==> WinnerCount(spec, name, candidates, row) == CountIn(top, CandidateKey(spec.order, name, row));
    }

    /** Emits what the winners lost, then what they gained. */
    method EmitDifference(before: map<Row, nat>, after: map<Row, nat>) returns (ok: bool)
      requires Balanced() && forall row :: row in before ==> output[row] == before[row]
      requires forall row :: row in after && row !in before ==> output[row] == 0
      modifies this`output, this`changes
      ensures ok && Balanced() && old(changes) <= changes
      ensures forall row :: output[row] == if row in after then after[row] else if row in before then 0 else old(output)[row]
    {
      ok := EmitLosses(before, after);
      ok := EmitGains(before, after);
    }

    method EmitLosses(before: map<Row, nat>, after: map<Row, nat>) returns (ok: bool)
      requires Balanced() && forall row :: row in before ==> output[row] == before[row]
      modifies this`output, this`changes
      ensures ok && Balanced() && old(changes) <= changes
      ensures forall row :: output[row] == if row in before then Lower(before[row], if row in after then after[row] else 0) else old(output)[row]
    {
      ok := true;
      var todo := before.Keys;
      while todo != {}
        invariant ok && Balanced() && old(changes) <= changes && todo <= before.Keys
        invariant forall row :: output[row] == if row in before && row !in todo then Lower(before[row], if row in after then after[row] else 0) else old(output)[row]
        decreases |todo|
      {
        var row :| row in todo;
        todo := todo - {row};
        var diff: int := (if row in after then after[row] else 0) as int - before[row] as int;
        if diff < 0 {
          ok := EmitDelta(row, diff);
        }
      }
    }

    method EmitGains(before: map<Row, nat>, after: map<Row, nat>) returns (ok: bool)
      requires Balanced() && forall row :: row in after && row !in before ==> output[row] == 0
      requires forall row :: row in before ==> output[row] == Lower(before[row], if row in after then after[row] else 0)
      modifies this`output, this`changes
      ensures ok && Balanced() && old(changes) <= changes
      ensures forall row :: output[row] == if row in after then after[row] else old(output)[row]
    {
      ok := true;
      var todo := after.Keys;
      while todo != {}
        invariant ok && Balanced() && old(changes) <= changes && todo <= after.Keys
        invariant forall row :: output[row] == if row in after && row !in todo then after[row] else old(output)[row]
        decreases |todo|
      {
        var row :| row in todo;
        todo := todo - {row};
        var diff: int := after[row] as int - (if row in before then before[row] else 0) as int;
        if diff > 0 {
          ok := EmitDelta(row, diff);
        }
      }
    }

    // -------------------------------------------------------------------------
    // One record

    ghost predicate Valid()
      reads this
    {
      Consistent(spec, name, primary, kinds, candidates, output, changes, contents)
    }

    constructor (spec: Spec, name: Naming)
      requires GoodSpec(spec) && Tells(name)
      ensures Valid() && this.spec == spec && this.name == name && contents == Nothing(spec) && changes == []
    {
      this.spec, this.name := spec, name;
      primary, kinds, candidates, output, changes := map[], map[], multiset{}, multiset{}, [];
      contents := Nothing(spec);
    }

    /** Turns a record into row changes against the keyed arrangement. */
    method Normalize(r: Record) returns (res: Result<seq<Change>, Reason>)
      requires Valid()
      modifies this`primary
      ensures res.Ok? <==> Normalizes(spec, contents, r)
      ensures res.Ok? ==> res.value == ChangesOf(spec, contents, r)
      ensures res.Ok? && contents.Keyed? ==> Ok(primary) == KeyedAfter(spec, contents.rows, r, PrimaryOf(spec, r.value).value)
    {
      var current := RowOf(r);
      if spec.mode == Append && r.kind != Insert { return Err(NotInsert); }
      if spec.mode == Retract && r.kind == Upsert { return Err(AmbiguousUpsert); }
      if spec.primary == [] { return Ok([(current, Weight(r.kind))]); }
      var identity := PrimaryOf(spec, r.value);
      if identity.None? { return Err(BadPrimary); }
      var id := identity.value;
      if spec.mode == Upserts {
        if r.kind == UpdateBefore { return Err(UnexpectedBefore); }
        if r.kind == Delete {
          if id !in primary { return Err(UnknownKey); }
          var prior := primary[id];
          primary := primary - {id};
          return Ok([(prior, -1)]);
        }
        if id in primary && primary[id].key == current.key && primary[id].value == current.value { return Ok([]); }
        var removed := if id in primary then [(primary[id], -1)] else [];
        primary := primary[id := current];
        return Ok(removed + [(current, 1)]);
      }
      if Weight(r.kind) > 0 {
        if id in primary { return Err(DuplicateKey); }
        primary := primary[id := current];
        return Ok([(current, 1)]);
      }
      if id !in primary || primary[id].key != current.key || primary[id].value != current.value { return Err(NoMatch); }
      var prior := primary[id];
      primary := primary - {id};
      return Ok([(prior, -1)]);
    }

    /** A normalized table emits its changes as they are. */
    method EmitChanges(changed: seq<Change>)
      requires Balanced() && Matched(output, changed) && Units(changed)
      modifies this`output, this`changes
      ensures Balanced() && output == Changed(old(output), changed) && old(changes) <= changes
    {
      for i := 0 to |changed|
        invariant Balanced() && output == Changed(old(output), changed[..i]) && old(changes) <= changes
      {
        ChangedNext(old(output), changed, i);
        var ok := EmitDelta(changed[i].0, changed[i].1);
      }
      assert changed[..|changed|] == changed;
    }

    /** One candidate; a row that cannot be sorted or a retraction that finds nothing is refused. */
    method ArrangeOne(row: Row, diff: int) returns (res: Result<(), Reason>)
      requires DistinctFields(spec.order) && AllFit(spec.order, candidates, kinds) && GoodValue(row.value) && (diff == 1 || diff == -1)
      modifies this`candidates, this`kinds
      ensures res.Ok? <==> if diff > 0 then Admits(spec.order, row.value, old(kinds)) else row in old(candidates)
      ensures res.Ok? ==> AllFit(spec.order, candidates, kinds) && (diff < 0 ==> kinds == old(kinds))
      ensures res.Ok? ==> candidates == if diff > 0 then old(candidates) + multiset{row} else old(candidates) - multiset{row}
    {
      KnownRow(spec.order, candidates, kinds, row);
      var sorted := SortPart(spec.order, row.value, kinds);
      if sorted.Err? { return Err(BadSort(sorted.error)); }
      AllFitMore(spec.order, candidates, kinds, sorted.value.1);
      kinds := sorted.value.1;
      var ok := UpdateCandidate(row, diff);
      if !ok { return Err(Unmatched); }
      return Ok(());
    }

    /** Brings the ordered candidates up to date. */
    method Arrange(changed: seq<Change>) returns (res: Result<(), Reason>)
      requires DistinctFields(spec.order) && Units(changed) && AllFit(spec.order, candidates, kinds) && AddsLast(changed)
      requires forall i :: 0 <= i < |changed| ==> GoodValue(changed[i].0.value)
      modifies this`candidates, this`kinds
      ensures res.Ok? ==> candidates == Changed(old(candidates), changed) && AllFit(spec.order, candidates, kinds)
      ensures res.Ok? <==> AllAccepted(spec.order, old(candidates), old(kinds), changed, |changed|)
    {
      ghost var t, k := candidates, kinds;
      for i := 0 to |changed|
        invariant ArrangedTo(spec.order, t, k, changed, i, candidates, kinds)
      {
        var row, diff := changed[i].0, changed[i].1;
        ghost var before, known := candidates, kinds;
        res := ArrangeOne(row, diff);
        ArrangedNext(spec.order, t, k, changed, i, before, known, candidates, kinds, res.Ok?);
        if res.Err? { return; }
      }
      assert changed[..|changed|] == changed;
      return Ok(());
    }

    /** Replaces each row's key by its group; a row whose partition columns cannot be read is refused. */
    method GroupChanges(changed: seq<Change>) returns (res: Result<(seq<Change>, set<RowKey>), Reason>)
      requires spec.topN
      ensures res.Ok? <==> forall i :: 0 <= i < |changed| ==> Groupable(spec, changed[i].0.value)
      ensures res.Ok? ==> res.value.0 == AllGrouped(spec, changed)
      ensures res.Ok? ==> forall i :: 0 <= i < |changed| ==> res.value.0[i].0.key in res.value.1
    {
      var grouped: seq<Change> := [];
      var groups: set<RowKey> := {};
      for i := 0 to |changed|
        invariant |grouped| == i && forall j :: 0 <= j < i ==> Groupable(spec, changed[j].0.value)
        invariant forall j :: 0 <= j < i ==> grouped[j] == (Grouped(spec, changed[j].0), changed[j].1) && grouped[j].0.key in groups
      {
        var group := GroupOf(spec, changed[i].0.value);
        if group.None? { return Err(BadGroup); }
        var row := changed[i].0.(key := Group(group.value));
        groups := groups + {row.key};
        grouped := grouped + [(row, changed[i].1)];
      }
      assert grouped == AllGrouped(spec, changed);
      return Ok((grouped, groups));
    }

    /** Re-ranks the groups that changed and emits the difference of their winners. */
    method Rerank(changed: seq<Change>, groups: set<RowKey>) returns (res: Result<(), Reason>)
      requires GoodSpec(spec) && Tells(name) && Balanced() && Ranked(spec, name, candidates, candidates, kinds, output)
      requires Units(changed) && AddsLast(changed) && forall i :: 0 <= i < |changed| ==> GoodValue(changed[i].0.value) && changed[i].0.key in groups
      modifies this`candidates, this`kinds, this`output, this`changes
      ensures res.Ok? <==> AllAccepted(spec.order, old(candidates), old(kinds), changed, |changed|)
      ensures res.Ok? ==> Balanced() && old(changes) <= changes && candidates == Changed(old(candidates), changed)
      ensures res.Ok? ==> Ranked(spec, name, candidates, candidates, kinds, output)
    {
      var before := FindWinners(groups);
      ghost var prior := candidates;
      res := Arrange(changed);
      if res.Err? { return; }
      FitDistinct(spec.order, name, candidates, kinds);
      var after := FindWinners(groups);
      WinnersBounded(spec, name, prior, before);
      OthersUnchanged(prior, changed, groups);
      var ok := EmitDifference(before, after);
      forall row ensures output[row] == WinnerCount(spec, name, candidates, row) {
        if row.key !in groups { SameGroup(spec, name, prior, candidates, row); }
      }
      return Ok(());
    }

    /** One input record: the table, the maintained rows and the change log move together. */
    method Apply(r: Record) returns (res: Result<(), Reason>)
      requires Valid() && GoodValue(r.value)
      modifies this
      ensures res.Ok? <==> Accepts(spec, old(contents), old(kinds), r)
      ensures res.Ok? ==> Valid() && Ok(contents) == TableAfter(spec, old(contents), r) && old(changes) <= changes
    {
      var normalized := Normalize(r);
      if normalized.Err? { return Err(normalized.error); }
      res := Maintain(r, normalized.value);
      if res.Err? { return; }
      contents := TableAfter(spec, contents, r).value;
    }

    /** A refused record leaves everything as it was: its transaction is dropped. */
    method Refresh(r: Record) returns (accepted: bool)
      requires Valid() && GoodValue(r.value)
      modifies this
      ensures Valid() && old(changes) <= changes
      ensures accepted <==> Accepts(spec, old(contents), old(kinds), r)
      ensures accepted ==> Ok(contents) == TableAfter(spec, old(contents), r)
      ensures !accepted ==> contents == old(contents) && output == old(output) && changes == old(changes) && kinds == old(kinds)
    {
      var saved := (primary, kinds, candidates, output, changes);
      ghost var table := contents;
      var res := Apply(r);
      if res.Ok? {
        return true;
      }
      Restore(saved.0, saved.1, saved.2, saved.3, saved.4, table);
      accepted := false;
    }

    /** Puts back what a transaction started from. */
    method Restore(primary: map<Identity, Row>, kinds: Kinds, candidates: Table, output: Table, changes: seq<Change>, ghost contents: Contents)
      modifies this
      ensures this.primary == primary && this.kinds == kinds && this.candidates == candidates
      ensures this.output == output && this.changes == changes && this.contents == contents
    {
      this.primary, this.kinds, this.candidates, this.output, this.changes := primary, kinds, candidates, output, changes;
      this.contents := contents;
    }

    /** Without a ranking the changes go straight out. */
    method MaintainTable(r: Record, changed: seq<Change>)
      requires GoodSpec(spec) && !spec.topN && ContentsOk(spec, contents) && Balanced() && output == RowsOf(spec, contents)
      requires Normalizes(spec, contents, r) && changed == ChangesOf(spec, contents, r) && GoodValue(r.value)
      modifies this`output, this`changes
      ensures Accepts(spec, contents, kinds, r)
      ensures ContentsOk(spec, TableAfter(spec, contents, r).value) && Balanced() && old(changes) <= changes
      ensures output == RowsOf(spec, TableAfter(spec, contents, r).value)
    {
      ChangesShape(spec, contents, r);
      TableAccepts(spec, contents, kinds, r);
      ChangesMeanTable(spec, contents, r, TableAfter(spec, contents, r).value);
      assert AllGrouped(spec, changed) == changed;
      EmitChanges(changed);
    }

    /** The maintained rows after normalization. */
    method Maintain(r: Record, changed: seq<Change>) returns (res: Result<(), Reason>)
      requires GoodSpec(spec) && Tells(name) && ContentsOk(spec, contents) && Balanced() && GoodValue(r.value)
      requires spec.topN ==> Ranked(spec, name, RowsOf(spec, contents), candidates, kinds, output)
      requires !spec.topN ==> output == RowsOf(spec, contents)
      requires Normalizes(spec, contents, r) && changed == ChangesOf(spec, contents, r)
      modifies this`candidates, this`kinds, this`output, this`changes
      ensures res.Ok? <==> Accepts(spec, contents, old(kinds), r)
      ensures res.Ok? ==>
                && ContentsOk(spec, TableAfter(spec, contents, r).value) && Balanced() && old(changes) <= changes
                && (spec.topN ==> Ranked(spec, name, RowsOf(spec, TableAfter(spec, contents, r).value), candidates, kinds, output))
                && (!spec.topN ==> output == RowsOf(spec, TableAfter(spec, contents, r).value))
    {
      if !spec.topN {
        MaintainTable(r, changed);
        return Ok(());
      }
      ChangesShape(spec, contents, r);
      var grouped := GroupChanges(changed);
      if grouped.Err? { NotGroupable(spec, contents, kinds, r); return Err(grouped.error); }
      GroupedShape(spec, changed);
      RankAccepts(spec, contents, kinds, r);
      res := Rerank(grouped.value.0, grouped.value.1);
      if res.Err? { return; }
      ChangesMeanTable(spec, contents, r, TableAfter(spec, contents, r).value);
    }
  }

  /**
   What the operator maintains, row by row: in a ranking the first `n` of each group of the denoted table, with multiplicity
   and in candidate-key order; otherwise the whole table; and always exactly what its unit changes add up to.
   */
  lemma Maintained(op: Operator, row: Row)
    requires op.Valid()
    ensures Net(op.changes, row) == op.output[row]
    ensures var t := RowsOf(op.spec, op.contents);
            && Distinct(op.spec.order, op.name, if op.spec.topN then t else multiset{})
            && (!op.spec.topN ==> op.output[row] == t[row])
            && (op.spec.topN && row !in t ==> op.output[row] == 0)
            && (op.spec.topN && row in t ==>
                  op.output[row] == Room(op.spec.n, Ahead(GroupBag(op.spec.order, op.name, t, row.key), CandidateKey(op.spec.order, op.name, row)), t[row]))
  {
    var t := RowsOf(op.spec, op.contents);
    if op.spec.topN && row in t { WinnerIsTop(op.spec, op.name, t, row); }
  }

  /** Within a group candidate keys order rows by the sort columns, nulls last, and then by identity. */
  lemma CandidateOrder(order: Order, name: Naming, a: Row, b: Row, kinds: Kinds)
    requires FitsRow(order, a, kinds) && FitsRow(order, b, kinds)
    ensures AllSortable(Values(order, a.value)) && AllSortable(Values(order, b.value)) && AllComparable(Values(order, a.value), Values(order, b.value))
    ensures Less(CandidateKey(order, name, a), CandidateKey(order, name, b)) <==>
            RowBelow(Values(order, a.value), Values(order, b.value), Directions(order)) ||
            (RowSame(Values(order, a.value), Values(order, b.value)) && Less(name(a), name(b)))
  {
    KeyOrderIsColumnOrder("", Values(order, a.value), Values(order, b.value), Directions(order), name(a), name(b));
  }

  /** The record changes the table, and the row it adds, if any, can be sorted among those before it. */
  ghost predicate Accepts(spec: Spec, c: Contents, kinds: Kinds, r: Record) {
    && TableAfter(spec, c, r).Ok?
    && (spec.topN && Adds(ChangesOf(spec, c, r)) ==> Admits(spec.order, r.value, kinds))
  }

  ghost predicate Adds(changed: seq<Change>) {
    changed != [] && changed[|changed| - 1].1 > 0
  }

  lemma ChangesShape(spec: Spec, c: Contents, r: Record)
    requires ContentsOk(spec, c) && GoodValue(r.value) && Normalizes(spec, c, r)
    ensures var changed := ChangesOf(spec, c, r);
            && Units(changed) && AddsLast(changed)
            && (forall i :: 0 <= i < |changed| ==> GoodValue(changed[i].0.value))
            && (forall i :: 0 <= i < |changed| && changed[i].1 > 0 ==> changed[i].0 == RowOf(r))
  {
  }

  lemma GroupedShape(spec: Spec, changed: seq<Change>)
    requires Units(changed) && AddsLast(changed) && forall i :: 0 <= i < |changed| ==> GoodValue(changed[i].0.value)
    ensures Units(AllGrouped(spec, changed)) && AddsLast(AllGrouped(spec, changed))
    ensures forall i :: 0 <= i < |changed| ==> GoodValue(AllGrouped(spec, changed)[i].0.value)
  {
  }

  lemma TableAccepts(spec: Spec, c: Contents, kinds: Kinds, r: Record)
    requires GoodSpec(spec) && ContentsOk(spec, c) && !spec.topN
    ensures Normalizes(spec, c, r) <==> Accepts(spec, c, kinds, r)
  {
  }

  lemma NotGroupable(spec: Spec, c: Contents, kinds: Kinds, r: Record)
    requires GoodSpec(spec) && ContentsOk(spec, c) && Normalizes(spec, c, r) && spec.topN
    requires !forall i :: 0 <= i < |ChangesOf(spec, c, r)| ==> Groupable(spec, ChangesOf(spec, c, r)[i].0.value)
    ensures !Accepts(spec, c, kinds, r)
  {
  }

  /** Whatever the groups say, the table takes a record whose changes can be grouped and matched. */
  lemma TableTakes(spec: Spec, c: Contents, kinds: Kinds, r: Record)
    requires GoodSpec(spec) && ContentsOk(spec, c) && Normalizes(spec, c, r) && spec.topN && GoodValue(r.value)
    requires forall i :: 0 <= i < |ChangesOf(spec, c, r)| ==> Groupable(spec, ChangesOf(spec, c, r)[i].0.value)
    requires var changed := AllGrouped(spec, ChangesOf(spec, c, r)); AllAccepted(spec.order, RowsOf(spec, c), kinds, changed, |changed|)
    ensures TableAfter(spec, c, r).Ok?
  {
    var raw := ChangesOf(spec, c, r);
    var changed := AllGrouped(spec, raw);
    if c.Unkeyed? {
      assert Accepted(spec.order, RowsOf(spec, c), kinds, changed, 0);
      assert changed[..0] == [];
    } else {
      var id := PrimaryOf(spec, r.value).value;
      KeyedCases(spec, c.rows, r, id, KeyedAfter(spec, c.rows, r, id).value, raw);
      if raw != [] { assert Groupable(spec, raw[|raw| - 1].0.value); }
    }
  }

  lemma RankAccepts(spec: Spec, c: Contents, kinds: Kinds, r: Record)
    requires GoodSpec(spec) && ContentsOk(spec, c) && Normalizes(spec, c, r) && spec.topN && GoodValue(r.value)
    requires forall i :: 0 <= i < |ChangesOf(spec, c, r)| ==> Groupable(spec, ChangesOf(spec, c, r)[i].0.value)
    ensures var changed := AllGrouped(spec, ChangesOf(spec, c, r));
            AllAccepted(spec.order, RowsOf(spec, c), kinds, changed, |changed|) <==> Accepts(spec, c, kinds, r)
  {
    var raw := ChangesOf(spec, c, r);
    var changed := AllGrouped(spec, raw);
    ChangesShape(spec, c, r);
    if AllAccepted(spec.order, RowsOf(spec, c), kinds, changed, |changed|) {
      TableTakes(spec, c, kinds, r);
      if Adds(raw) {
        var last := |raw| - 1;
        assert Accepted(spec.order, RowsOf(spec, c), kinds, changed, last);
        GroupedValue(spec, RowOf(r));
      }
    }
    if Accepts(spec, c, kinds, r) {
      ChangesMeanTable(spec, c, r, TableAfter(spec, c, r).value);
      forall i | 0 <= i < |changed| ensures Accepted(spec.order, RowsOf(spec, c), kinds, changed, i) {
        if changed[i].1 > 0 {
          assert i == |raw| - 1;
          GroupedValue(spec, RowOf(r));
        }
      }
    }
  }

  /** Winners never exceed the candidates they are taken from. */
  lemma WinnersBounded(spec: Spec, name: Naming, t: Table, found: map<Row, nat>)
    requires Distinct(spec.order, name, t)
    ensures forall row :: WinnerCount(spec, name, t, row) <= t[row]
  {
    forall row ensures WinnerCount(spec, name, t, row) <= t[row] {
      WinnerAtMost(spec, name, t, row);
    }
  }

  /** Changes to some groups leave the rows of the others alone. */
  lemma {:induction false} OthersUnchanged(t: Table, changed: seq<Change>, groups: set<RowKey>)
    requires forall i :: 0 <= i < |changed| ==> changed[i].0.key in groups
    ensures forall row: Row :: row.key !in groups ==> Changed(t, changed)[row] == t[row]
    decreases |changed|
  {
    if changed != [] {
      OthersUnchanged(t, changed[..|changed| - 1], groups);
    }
  }

  ghost predicate ArrangedTo(order: Order, t: Table, k: Kinds, changed: seq<Change>, i: nat, now: Table, known: Kinds)
    requires i <= |changed|
  {
    && now == Changed(t, changed[..i]) && AllFit(order, now, known) && (i < |changed| ==> known == k)
    && AllAccepted(order, t, k, changed, i)
  }

  lemma ArrangedNext(order: Order, t: Table, k: Kinds, changed: seq<Change>, i: nat, now: Table, known: Kinds, now': Table, known': Kinds, ok: bool)
    requires i < |changed| && AddsLast(changed) && ArrangedTo(order, t, k, changed, i, now, known)
    requires ok <==> if changed[i].1 > 0 then Admits(order, changed[i].0.value, known) else changed[i].0 in now
    requires ok ==> AllFit(order, now', known') && (changed[i].1 < 0 ==> known' == known)
    requires ok ==> now' == if changed[i].1 > 0 then now + multiset{changed[i].0} else now - multiset{changed[i].0}
    ensures ok <==> Accepted(order, t, k, changed, i)
    ensures ok ==> ArrangedTo(order, t, k, changed, i + 1, now', known')
  {
    ChangedNext(t, changed, i);
  }

  lemma KnownRow(order: Order, t: Table, kinds: Kinds, row: Row)
    requires AllFit(order, t, kinds)
    ensures row in t ==> Admits(order, row.value, kinds) && KindsAfter(order, row.value, kinds) == kinds
  {
    if row in t {
      assert FitsRow(order, row, kinds);
      FitsKinds(order, row.value, kinds);
    }
  }

  /** Only the last change may add a row. */
  ghost predicate AddsLast(changed: seq<Change>) {
    forall i :: 0 <= i < |changed| - 1 ==> changed[i].1 < 0
  }

  ghost predicate AllAccepted(order: Order, t: Table, kinds: Kinds, changed: seq<Change>, n: nat)
    requires n <= |changed|
  {
    forall i :: 0 <= i < n ==> Accepted(order, t, kinds, changed, i)
  }

  ghost predicate Accepted(order: Order, t: Table, kinds: Kinds, changed: seq<Change>, i: nat)
    requires i < |changed|
  {
    if changed[i].1 > 0 then Admits(order, changed[i].0.value, kinds) else changed[i].0 in Changed(t, changed[..i])
  }

  ghost predicate InBalance(changes: seq<Change>, output: Table) {
    forall row :: Net(changes, row) == output[row]
  }

  /** The arrangement holds the keyed table, the maintained rows are what it calls for, and the change log adds up to them. */
  ghost predicate Consistent(spec: Spec, name: Naming, primary: map<Identity, Row>, kinds: Kinds, candidates: Table, output: Table, changes: seq<Change>, contents: Contents) {
    && GoodSpec(spec) && Tells(name) && ContentsOk(spec, contents) && InBalance(changes, output)
    && (contents.Keyed? ==> primary == contents.rows)
    && (spec.topN ==> Ranked(spec, name, RowsOf(spec, contents), candidates, kinds, output))
    && (!spec.topN ==> output == RowsOf(spec, contents))
  }

  /** The keyed arrangement accepts the record. */
  ghost predicate Normalizes(spec: Spec, c: Contents, r: Record) {
    && !(spec.mode == Append && r.kind != Insert) && !(spec.mode == Retract && r.kind == Upsert)
    && (c.Keyed? ==> PrimaryOf(spec, r.value).Some? && KeyedAfter(spec, c.rows, r, PrimaryOf(spec, r.value).value).Ok?)
  }

  /** The maintained rows are the winners of the candidates, which are the rows of the table. */
  ghost predicate Ranked(spec: Spec, name: Naming, rows: Table, candidates: Table, kinds: Kinds, output: Table) {
    && candidates == rows && AllFit(spec.order, candidates, kinds)
    && Distinct(spec.order, name, candidates)
    && forall row :: output[row] == WinnerCount(spec, name, candidates, row)
  }

  lemma ChangedNext(t: Table, changed: seq<Change>, i: nat)
    requires i < |changed|
    ensures Changed(t, changed[..i + 1]) == if changed[i].1 > 0 then Changed(t, changed[..i]) + multiset{changed[i].0} else Changed(t, changed[..i]) - multiset{changed[i].0}
  {
    assert changed[..i + 1][..i] == changed[..i];
  }

  lemma AllFitMore(order: Order, t: Table, kinds: Kinds, more: Kinds)
    requires AllFit(order, t, kinds) && Extends(kinds, more)
    ensures AllFit(order, t, more)
  {
  }

  function Lower(a: nat, b: nat): nat {
    if a <= b then a else b
  }
}
