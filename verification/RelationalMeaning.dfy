/** What a record means for the table, column by column and row by row: when it is accepted, and what changes. */
module RelationalMeaning {
  import opened Wrappers
  import opened CandidateKeys
  import opened Relational

  predicate Removes(kind: ChangeKind) {
    kind == UpdateBefore || kind == Delete
  }

  /** The mode has a meaning for this kind of change. */
  ghost predicate KindFits(mode: Mode, kind: ChangeKind) {
    match mode
    case Append => kind == Insert
    case Retract => kind != Upsert
    case Upserts => kind != UpdateBefore
  }

  ghost predicate HasColumns(v: Fields, columns: seq<string>) {
    forall i :: 0 <= i < |columns| ==> columns[i] in v
  }

  /** Two rows agree in these columns. */
  ghost predicate SameIn(a: Fields, b: Fields, columns: seq<string>) {
    HasColumns(a, columns) && HasColumns(b, columns) && forall i :: 0 <= i < |columns| ==> a[columns[i]] == b[columns[i]]
  }

  /** A row has a primary key exactly if each key column is there and holds a scalar other than null; two keys are equal exactly if the columns are. */
  lemma PrimaryTells(spec: Spec, a: Fields, b: Fields)
    ensures PrimaryOf(spec, a).Some? <==>
              HasColumns(a, spec.primary) && forall i :: 0 <= i < |spec.primary| ==> !a[spec.primary[i]].Null? && !a[spec.primary[i]].Other?
    ensures PrimaryOf(spec, a).Some? && PrimaryOf(spec, b).Some? ==> (PrimaryOf(spec, a) == PrimaryOf(spec, b) <==> SameIn(a, b, spec.primary))
  {
    ProjectedTells(a, b, spec.primary);
  }

  lemma ProjectedTells(a: Fields, b: Fields, columns: seq<string>)
    ensures Projected(a, columns).Some? <==> HasColumns(a, columns)
    ensures Projected(a, columns).Some? ==> |Projected(a, columns).value| == |columns|
                                            && forall i :: 0 <= i < |columns| ==> Projected(a, columns).value[i] == a[columns[i]]
    ensures Projected(a, columns).Some? && Projected(b, columns).Some? ==> (Projected(a, columns) == Projected(b, columns) <==> SameIn(a, b, columns))
  {
    if Projected(a, columns).Some? && Projected(b, columns).Some? {
      var x, y := Projected(a, columns).value, Projected(b, columns).value;
      assert x == y <==> forall i :: 0 <= i < |columns| ==> x[i] == y[i];
    }
  }

  /** Rows of a ranking are in one group exactly if they agree in the partition columns. */
  lemma GroupsTell(spec: Spec, a: Row, b: Row)
    requires spec.topN && Groupable(spec, a.value) && Groupable(spec, b.value)
    ensures Grouped(spec, a).key == Grouped(spec, b).key <==> SameIn(a.value, b.value, spec.partition)
    ensures Grouped(spec, a).value == a.value && Grouped(spec, a).time == a.time
  {
    ProjectedTells(a.value, b.value, spec.partition);
  }

  lemma GroupableExactly(spec: Spec, v: Fields)
    ensures Groupable(spec, v) <==>
              !spec.topN || (HasColumns(v, spec.partition) && forall i :: 0 <= i < |spec.partition| ==> !v[spec.partition[i]].Other?)
  {
    ProjectedTells(v, v, spec.partition);
  }

  /** The keyed table has a row of this record's key and values. */
  ghost predicate HasSame(rows: map<Identity, Row>, id: Identity, r: Record) {
    id in rows && rows[id].value == r.value && rows[id].key == if r.key.Some? then Source(r.key.value) else NoKey
  }

  /**
   A keyed table accepts a record exactly if its kind has a meaning in the mode and it has a primary key; a removal must find
   its key, and in retract mode its very row; an addition must find its key free, unless the mode is upsert; and whatever row
   it adds must have a group.
   */
  lemma KeyedAcceptsExactlyWhen(spec: Spec, c: Contents, r: Record)
    requires GoodSpec(spec) && ContentsOk(spec, c) && c.Keyed?
    ensures TableAfter(spec, c, r).Ok? <==>
              && KindFits(spec.mode, r.kind) && PrimaryOf(spec, r.value).Some?
              && var id := PrimaryOf(spec, r.value).value;
              if Removes(r.kind) then id in c.rows && (spec.mode != Upserts ==> HasSame(c.rows, id, r))
              else (spec.mode != Upserts ==> id !in c.rows) && (HasSame(c.rows, id, r) || Groupable(spec, r.value))
  {
    if PrimaryOf(spec, r.value).Some? {
      var id, row := PrimaryOf(spec, r.value).value, RowOf(r);
      assert id in c.rows ==> c.rows - {id} != c.rows;
      if id !in c.rows || c.rows[id] != row {
        assert c.rows[id := row] != c.rows by {
          assert id in c.rows[id := row] && c.rows[id := row][id] == row;
        }
      }
      if id in c.rows && c.rows[id] == row {
        assert c.rows[id := row] == c.rows;
      }
    }
  }

  /** What an accepted record does to a keyed table: only its own key changes, to the record's row or to nothing; a row that is there already keeps its time. */
  lemma KeyedChangesOneKey(spec: Spec, c: Contents, r: Record, after: Contents, other: Identity)
    requires GoodSpec(spec) && ContentsOk(spec, c) && c.Keyed? && TableAfter(spec, c, r) == Ok(after)
    ensures after.Keyed? && PrimaryOf(spec, r.value).Some?
    ensures var id := PrimaryOf(spec, r.value).value;
            && (other != id ==> (other in after.rows <==> other in c.rows) && (other in c.rows ==> after.rows[other] == c.rows[other]))
            && (if Removes(r.kind) then id !in after.rows
                else HasSame(after.rows, id, r) && after.rows[id].time == if HasSame(c.rows, id, r) then c.rows[id].time else r.time)
  {
  }

  /** An unkeyed table is a bag: an addition adds one of its row, a removal takes one away and must find it. */
  lemma UnkeyedIsABag(spec: Spec, c: Contents, r: Record, other: Row)
    requires GoodSpec(spec) && ContentsOk(spec, c) && c.Unkeyed?
    ensures var row := Grouped(spec, RowOf(r));
            && (TableAfter(spec, c, r).Ok? <==>
                  KindFits(spec.mode, r.kind) && Groupable(spec, r.value) && (Removes(r.kind) ==> c.rows'[row] > 0))
            && (TableAfter(spec, c, r).Ok? ==>
                  && TableAfter(spec, c, r).value.Unkeyed?
                  && TableAfter(spec, c, r).value.rows'[other] == c.rows'[other] + if other != row then 0 else if Removes(r.kind) then -1 else 1)
  {
  }

  /** Removing what was just added gives back the table, in every mode that can remove and for every new row. */
  lemma RemovalUndoes(spec: Spec, c: Contents, r: Record, added: Contents, kind: ChangeKind)
    requires GoodSpec(spec) && ContentsOk(spec, c) && GoodValue(r.value) && !Removes(r.kind) && TableAfter(spec, c, r) == Ok(added)
    requires Removes(kind) && KindFits(spec.mode, kind)
    requires c.Keyed? ==> PrimaryOf(spec, r.value).value !in c.rows
    ensures TableAfter(spec, added, r.(kind := kind)) == Ok(c)
  {
    if c.Keyed? {
      var id := PrimaryOf(spec, r.value).value;
      assert added.rows == c.rows[id := RowOf(r)];
      assert added.rows - {id} == c.rows;
    } else {
      var row := Grouped(spec, RowOf(r));
      assert added.rows' == c.rows' + multiset{row};
      assert added.rows' - multiset{row} == c.rows';
    }
  }
}
