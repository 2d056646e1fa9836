/** Changelog normalization and retractable top-N: what a record makes of the table, the maintained rows and the change log. */
module Relational {
  import opened Wrappers
  import opened Keys
  import opened TopN
  import opened CandidateKeys

  datatype ChangeKind = Insert | Upsert | UpdateBefore | UpdateAfter | Delete

  datatype Mode = Append | Retract | Upserts

  datatype RowKey = NoKey | Source(name: string) | Group(values: seq<Scalar>)

  /** A row keeps the time of the record that inserted it. */
  datatype Row = Row(key: RowKey, value: Fields, time: real)

  datatype Record = Record(key: Option<string>, value: Fields, kind: ChangeKind, time: real)

  datatype Spec = Spec(topN: bool, mode: Mode, primary: seq<string>, partition: seq<string>, order: Order, n: nat)

  type Identity = seq<Scalar>
  type Table = multiset<Row>

  datatype Reason =
    | NotInsert | AmbiguousUpsert | UnexpectedBefore | UnknownKey | DuplicateKey | NoMatch
    | BadPrimary | BadGroup | BadSort(fault: CandidateKeys.Fault) | Unmatched

  /** What the source demands of an operator before it accepts it. */
  predicate GoodSpec(spec: Spec) {
    && (spec.mode == Upserts ==> spec.primary != [])
    && DistinctFields(spec.order)
    && (if spec.topN then 1 <= spec.n <= 10000 && spec.order != []
        else spec.primary != [] && spec.mode != Append && spec.order == [] && spec.partition == [])
  }

  predicate GoodValue(v: Fields) {
    forall f :: f in v ==> GoodScalar(v[f])
  }

  function Weight(kind: ChangeKind): int {
    match kind
    case Insert => 1
    case Upsert => 1
    case UpdateAfter => 1
    case UpdateBefore => -1
    case Delete => -1
  }

  function Projected(v: Fields, fields: seq<string>): Option<seq<Scalar>> {
    if forall i :: 0 <= i < |fields| ==> fields[i] in v then Some(seq(|fields|, i requires 0 <= i < |fields| => v[fields[i]])) else None
  }

  /** Primary key columns must be there, and be scalars other than null. */
  function PrimaryOf(spec: Spec, v: Fields): Option<Identity> {
    var p := Projected(v, spec.primary);
    if p.Some? && forall i :: 0 <= i < |p.value| ==> !p.value[i].Null? && !p.value[i].Other? then p else None
  }

  /** Partition columns must be there and be scalars. */
  function GroupOf(spec: Spec, v: Fields): Option<seq<Scalar>> {
    var p := Projected(v, spec.partition);
    if p.Some? && forall i :: 0 <= i < |p.value| ==> !p.value[i].Other? then p else None
  }

  function SourceKey(key: Option<string>): RowKey {
    if key.Some? then Source(key.value) else NoKey
  }

  function RowOf(r: Record): Row {
    Row(SourceKey(r.key), r.value, r.time)
  }

  // ---------------------------------------------------------------------------
  // The table a history denotes

  /** A keyed table holds one row per primary key; any other is a bag of grouped rows. */
  datatype Contents = Keyed(rows: map<Identity, Row>) | Unkeyed(rows': Table)

  predicate SameRow(a: Row, b: Row) {
    a.key == b.key && a.value == b.value
  }

  function KeyedAfter(spec: Spec, rows: map<Identity, Row>, r: Record, id: Identity): Result<map<Identity, Row>, Reason> {
    var row := RowOf(r);
    if spec.mode == Upserts then
      if r.kind == UpdateBefore then Err(UnexpectedBefore)
      else if r.kind == Delete then if id in rows then Ok(rows - {id}) else Err(UnknownKey)
      else if id in rows && SameRow(rows[id], row) then Ok(rows)
      else Ok(rows[id := row])
    else if Weight(r.kind) > 0 then if id in rows then Err(DuplicateKey) else Ok(rows[id := row])
    else if id in rows && SameRow(rows[id], row) then Ok(rows - {id}) else Err(NoMatch)
  }

  function Grouped(spec: Spec, row: Row): Row {
    var g := GroupOf(spec, row.value);
    if spec.topN && g.Some? then row.(key := Group(g.value)) else row
  }

  predicate Groupable(spec: Spec, v: Fields) {
    spec.topN ==> GroupOf(spec, v).Some?
  }

  /** The table after one more record, from the meaning of the change kinds alone. */
  function TableAfter(spec: Spec, c: Contents, r: Record): Result<Contents, Reason> {
    if spec.mode == Append && r.kind != Insert then Err(NotInsert)
    else if spec.mode == Retract && r.kind == Upsert then Err(AmbiguousUpsert)
    else
      match c
      case Unkeyed(rows) =>
        var row := Grouped(spec, RowOf(r));
        if !Groupable(spec, r.value) then Err(BadGroup)
        else if Weight(r.kind) > 0 then Ok(Unkeyed(rows + multiset{row}))
        else if row in rows then Ok(Unkeyed(rows - multiset{row})) else Err(Unmatched)
      case Keyed(rows) =>
        (match PrimaryOf(spec, r.value)
         case None => Err(BadPrimary)
         case Some(id) =>
           match KeyedAfter(spec, rows, r, id)
           case Err(e) => Err(e)
           case Ok(after) => if after == rows || id !in after || Groupable(spec, r.value) then Ok(Keyed(after)) else Err(BadGroup))
  }

  /** The rows of a table as the operator arranges them. */
  function RowsOf(spec: Spec, c: Contents): Table {
    match c
    case Unkeyed(rows) => rows
    case Keyed(rows) => multiset(Image(spec, rows))
  }

  function Image(spec: Spec, rows: map<Identity, Row>): set<Row> {
    set id | id in rows :: Grouped(spec, rows[id])
  }

  function Nothing(spec: Spec): Contents {
    if spec.primary == [] then Unkeyed(multiset{}) else Keyed(map[])
  }

  // ---------------------------------------------------------------------------
  // What normalization emits

  type Change = (Row, int)

  function Changed(t: Table, changes: seq<Change>): Table {
    if changes == [] then t
    else
      var before := Changed(t, changes[..|changes| - 1]);
      var c := changes[|changes| - 1];
      if c.1 > 0 then before + multiset{c.0} else before - multiset{c.0}
  }

  /** The row changes a record makes to a keyed table. */
  function KeyedChanges(spec: Spec, rows: map<Identity, Row>, r: Record, id: Identity): seq<Change> {
    var row := RowOf(r);
    if spec.mode == Upserts then
      if r.kind == Delete then if id in rows then [(rows[id], -1)] else []
      else if id in rows && SameRow(rows[id], row) then []
      else if id in rows then [(rows[id], -1), (row, 1)] else [(row, 1)]
    else if Weight(r.kind) > 0 then [(row, 1)]
    else if id in rows then [(rows[id], -1)] else []
  }

  function ChangesOf(spec: Spec, c: Contents, r: Record): seq<Change> {
    match c
    case Unkeyed(_) => [(RowOf(r), Weight(r.kind))]
    case Keyed(rows) =>
      match PrimaryOf(spec, r.value)
      case None => []
      case Some(id) => KeyedChanges(spec, rows, r, id)
  }

  function AllGrouped(spec: Spec, changes: seq<Change>): seq<Change> {
    seq(|changes|, i requires 0 <= i < |changes| => (Grouped(spec, changes[i].0), changes[i].1))
  }

  /** Each row of a keyed table is stored under its own primary key. */
  ghost predicate KeyedOk(spec: Spec, rows: map<Identity, Row>) {
    forall id :: id in rows ==> PrimaryOf(spec, rows[id].value) == Some(id) && GoodValue(rows[id].value) && Groupable(spec, rows[id].value)
  }

  ghost predicate ContentsOk(spec: Spec, c: Contents) {
    && (c.Keyed? <==> spec.primary != [])
    && (c.Keyed? ==> KeyedOk(spec, c.rows))
  }

  lemma GroupedValue(spec: Spec, row: Row)
    ensures Grouped(spec, row).value == row.value
  {
  }

  lemma NewInImage(spec: Spec, rows: map<Identity, Row>, id: Identity, row: Row)
    requires KeyedOk(spec, rows) && id !in rows && PrimaryOf(spec, row.value) == Some(id)
    ensures Grouped(spec, row) !in Image(spec, rows)
  {
    forall i | i in rows ensures Grouped(spec, rows[i]) != Grouped(spec, row) {
      GroupedValue(spec, rows[i]);
      GroupedValue(spec, row);
    }
  }

  lemma ImageGrows(spec: Spec, rows: map<Identity, Row>, id: Identity, row: Row)
    requires id !in rows
    ensures Image(spec, rows[id := row]) == Image(spec, rows) + {Grouped(spec, row)}
  {
    var more := rows[id := row];
    forall i | i in rows ensures Grouped(spec, rows[i]) in Image(spec, more) {
      assert i in more && more[i] == rows[i];
    }
    assert id in more && more[id] == row;
  }

  lemma KeyedAdds(spec: Spec, rows: map<Identity, Row>, id: Identity, row: Row)
    requires KeyedOk(spec, rows) && id !in rows && PrimaryOf(spec, row.value) == Some(id)
    ensures RowsOf(spec, Keyed(rows[id := row])) == RowsOf(spec, Keyed(rows)) + multiset{Grouped(spec, row)}
  {
    NewInImage(spec, rows, id, row);
    ImageGrows(spec, rows, id, row);
  }

  lemma KeyedDrops(spec: Spec, rows: map<Identity, Row>, id: Identity)
    requires KeyedOk(spec, rows) && id in rows
    ensures RowsOf(spec, Keyed(rows - {id})) == RowsOf(spec, Keyed(rows)) - multiset{Grouped(spec, rows[id])}
    ensures Grouped(spec, rows[id]) in RowsOf(spec, Keyed(rows))
  {
    var rest := rows - {id};
    assert KeyedOk(spec, rest);
    KeyedAdds(spec, rest, id, rows[id]);
    assert rest[id := rows[id]] == rows;
  }

  lemma ChangedOne(t: Table, c: Change)
    ensures Changed(t, [c]) == if c.1 > 0 then t + multiset{c.0} else t - multiset{c.0}
  {
    assert [c][..0] == [];
  }

  lemma ChangedTwo(t: Table, c: Change, d: Change)
    ensures Changed(t, [c, d]) == Changed(Changed(t, [c]), [d])
  {
    assert [c, d][..1] == [c];
    ChangedOne(Changed(t, [c]), d);
  }

  /** A removal names a row that is there when it is applied. */
  ghost predicate Matched(t: Table, changes: seq<Change>) {
    forall i :: 0 <= i < |changes| && changes[i].1 < 0 ==> changes[i].0 in Changed(t, changes[..i])
  }

  ghost predicate Units(changes: seq<Change>) {
    forall i :: 0 <= i < |changes| ==> changes[i].1 == 1 || changes[i].1 == -1
  }

  /** The changes lead from one table to the other, never removing what is not there. */
  ghost predicate Leads(before: Table, after: Table, changes: seq<Change>) {
    after == Changed(before, changes) && Matched(before, changes) && Units(changes)
  }

  lemma LeadsAdd(t: Table, row: Row)
    ensures Leads(t, t + multiset{row}, [(row, 1)])
  {
    ChangedOne(t, (row, 1));
  }

  lemma LeadsDrop(t: Table, row: Row)
    requires row in t
    ensures Leads(t, t - multiset{row}, [(row, -1)])
  {
    ChangedOne(t, (row, -1));
    assert [(row, -1)][..0] == [];
  }

  lemma LeadsReplace(t: Table, prior: Row, row: Row)
    requires prior in t
    ensures Leads(t, t - multiset{prior} + multiset{row}, [(prior, -1), (row, 1)])
  {
    ChangedTwo(t, (prior, -1), (row, 1));
    ChangedOne(t, (prior, -1));
    ChangedOne(t - multiset{prior}, (row, 1));
    assert [(prior, -1), (row, 1)][..0] == [];
  }

  /** The four ways a record can change a keyed table. */
  lemma KeyedCases(spec: Spec, rows: map<Identity, Row>, r: Record, id: Identity, after: map<Identity, Row>, raw: seq<Change>)
    requires KeyedAfter(spec, rows, r, id) == Ok(after) && raw == KeyedChanges(spec, rows, r, id)
    ensures
      || (after == rows && raw == [])
      || (id !in rows && after == rows[id := RowOf(r)] && raw == [(RowOf(r), 1)])
      || (id in rows && after == rows - {id} && raw == [(rows[id], -1)])
      || (id in rows && after == rows[id := RowOf(r)] && raw == [(rows[id], -1), (RowOf(r), 1)])
  {
  }

  lemma KeyedReplaces(spec: Spec, rows: map<Identity, Row>, id: Identity, row: Row)
    requires KeyedOk(spec, rows) && id in rows && PrimaryOf(spec, row.value) == Some(id)
    ensures RowsOf(spec, Keyed(rows[id := row])) == RowsOf(spec, Keyed(rows)) - multiset{Grouped(spec, rows[id])} + multiset{Grouped(spec, row)}
    ensures Grouped(spec, rows[id]) in RowsOf(spec, Keyed(rows))
  {
    var rest, after := rows - {id}, rows[id := row];
    KeyedDrops(spec, rows, id);
    KeyedOkWithout(spec, rows, id);
    KeyedAdds(spec, rest, id, row);
    assert rest[id := row] == after;
  }

  lemma KeyedOkWithout(spec: Spec, rows: map<Identity, Row>, id: Identity)
    requires KeyedOk(spec, rows)
    ensures KeyedOk(spec, rows - {id}) && id !in rows - {id}
  {
  }

  lemma KeyedOkAfter(spec: Spec, rows: map<Identity, Row>, id: Identity, row: Row)
    requires KeyedOk(spec, rows) && PrimaryOf(spec, row.value) == Some(id) && GoodValue(row.value) && Groupable(spec, row.value)
    ensures KeyedOk(spec, rows[id := row])
  {
  }

  lemma InsertLeads(spec: Spec, rows: map<Identity, Row>, id: Identity, row: Row)
    requires KeyedOk(spec, rows) && PrimaryOf(spec, row.value) == Some(id) && id !in rows
    ensures Leads(RowsOf(spec, Keyed(rows)), RowsOf(spec, Keyed(rows[id := row])), AllGrouped(spec, [(row, 1)]))
  {
    assert AllGrouped(spec, [(row, 1)]) == [(Grouped(spec, row), 1)];
    KeyedAdds(spec, rows, id, row);
    LeadsAdd(RowsOf(spec, Keyed(rows)), Grouped(spec, row));
  }

  lemma DeleteLeads(spec: Spec, rows: map<Identity, Row>, id: Identity)
    requires KeyedOk(spec, rows) && id in rows
    ensures Leads(RowsOf(spec, Keyed(rows)), RowsOf(spec, Keyed(rows - {id})), AllGrouped(spec, [(rows[id], -1)]))
  {
    assert AllGrouped(spec, [(rows[id], -1)]) == [(Grouped(spec, rows[id]), -1)];
    KeyedDrops(spec, rows, id);
    LeadsDrop(RowsOf(spec, Keyed(rows)), Grouped(spec, rows[id]));
  }

  lemma UpdateLeads(spec: Spec, rows: map<Identity, Row>, id: Identity, row: Row)
    requires KeyedOk(spec, rows) && PrimaryOf(spec, row.value) == Some(id) && id in rows
    ensures Leads(RowsOf(spec, Keyed(rows)), RowsOf(spec, Keyed(rows[id := row])), AllGrouped(spec, [(rows[id], -1), (row, 1)]))
  {
    assert AllGrouped(spec, [(rows[id], -1), (row, 1)]) == [(Grouped(spec, rows[id]), -1), (Grouped(spec, row), 1)];
    KeyedReplaces(spec, rows, id, row);
    LeadsReplace(RowsOf(spec, Keyed(rows)), Grouped(spec, rows[id]), Grouped(spec, row));
  }

  lemma KeyedLeads(spec: Spec, rows: map<Identity, Row>, id: Identity, row: Row, after: map<Identity, Row>, raw: seq<Change>)
    requires KeyedOk(spec, rows) && PrimaryOf(spec, row.value) == Some(id) && GoodValue(row.value)
    requires id in after && after != rows ==> Groupable(spec, row.value)
    requires
      || (after == rows && raw == [])
      || (id !in rows && after == rows[id := row] && raw == [(row, 1)])
      || (id in rows && after == rows - {id} && raw == [(rows[id], -1)])
      || (id in rows && after == rows[id := row] && raw == [(rows[id], -1), (row, 1)])
    ensures KeyedOk(spec, after) && Leads(RowsOf(spec, Keyed(rows)), RowsOf(spec, Keyed(after)), AllGrouped(spec, raw))
  {
    if raw == [] {
      assert AllGrouped(spec, raw) == [];
    } else if id !in rows {
      InsertLeads(spec, rows, id, row);
      KeyedOkAfter(spec, rows, id, row);
    } else if |raw| == 1 {
      DeleteLeads(spec, rows, id);
    } else {
      UpdateLeads(spec, rows, id, row);
      KeyedOkAfter(spec, rows, id, row);
    }
  }

  /** The changes a record makes are those between the table before and after it. */
  lemma ChangesMeanTable(spec: Spec, c: Contents, r: Record, after: Contents)
    requires GoodSpec(spec) && ContentsOk(spec, c) && GoodValue(r.value) && TableAfter(spec, c, r) == Ok(after)
    ensures ContentsOk(spec, after) && Leads(RowsOf(spec, c), RowsOf(spec, after), AllGrouped(spec, ChangesOf(spec, c, r)))
  {
    if c.Unkeyed? {
      var row := Grouped(spec, RowOf(r));
      assert AllGrouped(spec, ChangesOf(spec, c, r)) == [(row, Weight(r.kind))];
      if Weight(r.kind) > 0 {
        LeadsAdd(c.rows', row);
      } else {
        LeadsDrop(c.rows', row);
      }
    } else {
      var id := PrimaryOf(spec, r.value).value;
      KeyedCases(spec, c.rows, r, id, after.rows, KeyedChanges(spec, c.rows, r, id));
      KeyedLeads(spec, c.rows, id, RowOf(r), after.rows, KeyedChanges(spec, c.rows, r, id));
    }
  }
}
