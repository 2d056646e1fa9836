/** Sort columns as strings whose byte order is the order of the columns, each ascending or descending, nulls last. */
module CandidateKeys {
  import opened Wrappers
  import opened Keys
  import opened FloatOrder

  datatype Scalar =
    | Null
    | Bool(flag: bool)
    | Text(bytes: seq<nat>)
    | Number(bits: nat, wide: bool)
    | Other

  datatype Direction = Asc | Desc

  datatype Kind = Strings | Bools | Numbers

  datatype Fault = NotScalar | NotFinite | MissingField(field: string) | ChangedType(field: string)

  /** A component and the kind of value it stands for; a null has none. */
  datatype Component = Component(text: string, kind: Option<Kind>)

  predicate GoodScalar(v: Scalar) {
    && (v.Text? ==> forall i :: 0 <= i < |v.bytes| ==> v.bytes[i] < 256)
    && (v.Number? ==> v.bits <= ALL)
  }

  // ---------------------------------------------------------------------------
  // Encoding

  function Digit(d: nat): char
    requires d < 16
  {
    if d < 10 then '0' + d as char else 'a' + (d - 10) as char
  }

  function HexBytes(bytes: seq<nat>): string
    requires forall i :: 0 <= i < |bytes| ==> bytes[i] < 256
  {
    if bytes == [] then "" else [Digit(bytes[0] / 16), Digit(bytes[0] % 16)] + HexBytes(bytes[1..])
  }

  /** `width` hexadecimal digits, most significant first. */
  function HexNumber(v: nat, width: nat): (s: string)
    ensures |s| == width
  {
    if width == 0 then "" else HexNumber(v / 16, width - 1) + [Digit(v % 16)]
  }

  /** -0 is written as +0. */
  function Normal(bits: nat): nat {
    if bits == TOP then 0 else bits
  }

  /** Digits `d` become `15 - d`, and the terminator below all digits becomes one above them. */
  function Mirrored(c: char): char {
    if '0' <= c <= '9' then Digit(15 - (c as int - '0' as int))
    else if 'a' <= c <= 'f' then Digit(5 - (c as int - 'a' as int))
    else '~'
  }

  function Reversed(s: string): string {
    seq(|s|, i requires 0 <= i < |s| => Mirrored(s[i]))
  }

  function Plain(v: Scalar): string
    requires GoodScalar(v) && !v.Null? && !v.Other?
  {
    match v
    case Bool(flag) => if flag then "1" else "0"
    case Text(bytes) => HexBytes(bytes) + "!"
    case Number(bits, _) => OrderedIsInjective(Normal(bits), Normal(bits)); HexNumber(OrderedBits(Normal(bits)), 16)
  }

  function KindOf(v: Scalar): Option<Kind> {
    match v
    case Bool(_) => Some(Bools)
    case Text(_) => Some(Strings)
    case Number(_, _) => Some(Numbers)
    case _ => None
  }

  function ScalarSort(v: Scalar, d: Direction): Result<Component, Fault>
    requires GoodScalar(v)
  {
    if v.Null? then Ok(Component("1", None))
    else if v.Other? then Err(NotScalar)
    else if v.Number? && (!IsFinite(v.bits) || v.wide) then Err(NotFinite)
    else
      var text := Plain(v);
      Ok(Component("0" + if d.Asc? then text else Reversed(text), KindOf(v)))
  }

  /** What a column holds that can be sorted. */
  predicate Sortable(v: Scalar) {
    GoodScalar(v) && !v.Other? && (v.Number? ==> IsFinite(v.bits) && !v.wide)
  }

  // ---------------------------------------------------------------------------
  // The order the encoding stands for

  predicate Comparable(a: Scalar, b: Scalar) {
    a.Null? || b.Null? || KindOf(a) == KindOf(b)
  }

  predicate BytesBelow(a: seq<nat>, b: seq<nat>)
    decreases |a|
  {
    b != [] && (a == [] || a[0] < b[0] || (a[0] == b[0] && BytesBelow(a[1..], b[1..])))
  }

  /** Values of one kind: false before true, strings by bytes, numbers by value. */
  predicate ValueBelow(a: Scalar, b: Scalar) {
    match (a, b)
    case (Bool(x), Bool(y)) => !x && y
    case (Text(x), Text(y)) => BytesBelow(x, y)
    case (Number(x, _), Number(y, _)) => Scaled(x) < Scaled(y)
    case _ => false
  }

  predicate SameValue(a: Scalar, b: Scalar) {
    if a.Number? && b.Number? then Scaled(a.bits) == Scaled(b.bits) else a == b
  }

  /** The order of one column: nulls last in both directions. */
  predicate ColumnBelow(a: Scalar, b: Scalar, d: Direction) {
    if a.Null? then false
    else if b.Null? then true
    else if d.Asc? then ValueBelow(a, b) else ValueBelow(b, a)
  }

  /** The order of several columns: the first that differs decides. */
  predicate RowBelow(a: seq<Scalar>, b: seq<Scalar>, d: seq<Direction>)
    requires |a| == |b| == |d|
    decreases |a|
  {
    a != [] && (ColumnBelow(a[0], b[0], d[0]) || (SameValue(a[0], b[0]) && RowBelow(a[1..], b[1..], d[1..])))
  }

  // ---------------------------------------------------------------------------
  // Strings that differ before either ends

  /** `x` is below `y` at a position both have, so nothing appended can change that. */
  predicate Below1(x: string, y: string)
    decreases |x|
  {
    x != [] && y != [] && (x[0] < y[0] || (x[0] == y[0] && Below1(x[1..], y[1..])))
  }

  lemma {:induction false} BelowStays(x: string, y: string, s: string, t: string)
    requires Below1(x, y)
    ensures Below1(x + s, y + t) && Less(x + s, y + t)
    decreases |x|
  {
    assert (x + s)[0] == x[0] && (y + t)[0] == y[0];
    if x[0] == y[0] {
      assert (x + s)[1..] == x[1..] + s && (y + t)[1..] == y[1..] + t;
      BelowStays(x[1..], y[1..], s, t);
    }
  }

  lemma {:induction false} BelowAfter(p: string, x: string, y: string)
    requires Below1(x, y)
    ensures Below1(p + x, p + y)
    decreases |p|
  {
    if p == [] {
      assert p + x == x && p + y == y;
    } else {
      assert (p + x)[0] == p[0] == (p + y)[0];
      assert (p + x)[1..] == p[1..] + x && (p + y)[1..] == p[1..] + y;
      BelowAfter(p[1..], x, y);
    }
  }

  lemma DigitOrder(a: nat, b: nat)
    requires a < 16 && b < 16
    ensures Digit(a) < Digit(b) <==> a < b
    ensures '!' < Digit(a) < '|' && Digit(a) != '~'
    ensures Mirrored(Digit(a)) == Digit(15 - a)
  {
  }

  lemma MirroredEnd()
    ensures Mirrored('!') == '~'
  {
  }

  /** Strings over digits and the terminator. */
  predicate Coded(s: string) {
    forall i :: 0 <= i < |s| ==> s[i] == '!' || exists d :: 0 <= d < 16 && s[i] == Digit(d)
  }

  lemma MirroredOrder(c: char, e: char)
    requires c == '!' || exists d :: 0 <= d < 16 && c == Digit(d)
    requires e == '!' || exists d :: 0 <= d < 16 && e == Digit(d)
    ensures c < e <==> Mirrored(e) < Mirrored(c)
    ensures c == e <==> Mirrored(e) == Mirrored(c)
  {
    MirroredEnd();
    if c != '!' {
      var a :| 0 <= a < 16 && c == Digit(a);
      DigitOrder(a, a);
      DigitOrder(15 - a, 15 - a);
      if e != '!' {
        var b :| 0 <= b < 16 && e == Digit(b);
        DigitOrder(a, b);
        DigitOrder(b, a);
        DigitOrder(b, b);
        DigitOrder(15 - a, 15 - b);
        DigitOrder(15 - b, 15 - a);
      }
    } else if e != '!' {
      var b :| 0 <= b < 16 && e == Digit(b);
      DigitOrder(b, b);
      DigitOrder(15 - b, 15 - b);
      assert Digit(15 - b) < '~';
    }
  }

  /** Mirroring every character turns the order around. */
  lemma {:induction false} ReversedOrder(x: string, y: string)
    requires Coded(x) && Coded(y) && Below1(x, y)
    ensures Below1(Reversed(y), Reversed(x))
    decreases |x|
  {
    MirroredOrder(x[0], y[0]);
    if x[0] == y[0] {
      assert Reversed(x)[1..] == Reversed(x[1..]) && Reversed(y)[1..] == Reversed(y[1..]);
      ReversedOrder(x[1..], y[1..]);
    }
  }

  // ---------------------------------------------------------------------------
  // Each kind of value

  lemma ByteDigits(a: nat, b: nat)
    requires a < 256 && b < 256
    ensures a < b <==> a / 16 < b / 16 || (a / 16 == b / 16 && a % 16 < b % 16)
    ensures a == b <==> a / 16 == b / 16 && a % 16 == b % 16
  {
  }

  lemma {:induction false} TextOrder(a: seq<nat>, b: seq<nat>)
    requires (forall i :: 0 <= i < |a| ==> a[i] < 256) && (forall i :: 0 <= i < |b| ==> b[i] < 256)
    requires BytesBelow(a, b)
    ensures Below1(HexBytes(a) + "!", HexBytes(b) + "!")
    decreases |a|
  {
    var x, y := HexBytes(a) + "!", HexBytes(b) + "!";
    var hb, lb := Digit(b[0] / 16), Digit(b[0] % 16);
    assert y == [hb, lb] + (HexBytes(b[1..]) + "!");
    DigitOrder(b[0] / 16, b[0] / 16);
    if a == [] {
      assert x[0] == '!' && y[0] == hb;
    } else {
      var ha, la := Digit(a[0] / 16), Digit(a[0] % 16);
      assert x == [ha, la] + (HexBytes(a[1..]) + "!");
      ByteDigits(a[0], b[0]);
      DigitOrder(a[0] / 16, b[0] / 16);
      DigitOrder(a[0] % 16, b[0] % 16);
      if a[0] < b[0] {
        if a[0] / 16 == b[0] / 16 { assert x[1..][0] == la && y[1..][0] == lb; }
      } else {
        TextOrder(a[1..], b[1..]);
        BelowAfter([ha, la], HexBytes(a[1..]) + "!", HexBytes(b[1..]) + "!");
      }
    }
  }

  lemma {:induction false} HexOrder(a: nat, b: nat, width: nat)
    requires a < b < Power16(width)
    ensures Below1(HexNumber(a, width), HexNumber(b, width))
    decreases width
  {
    if a / 16 < b / 16 {
      HexOrder(a / 16, b / 16, width - 1);
      BelowStays(HexNumber(a / 16, width - 1), HexNumber(b / 16, width - 1), [Digit(a % 16)], [Digit(b % 16)]);
    } else {
      DigitOrder(a % 16, b % 16);
      BelowAfter(HexNumber(a / 16, width - 1), [Digit(a % 16)], [Digit(b % 16)]);
    }
  }

  function Power16(n: nat): nat {
    if n == 0 then 1 else 16 * Power16(n - 1)
  }

  lemma {:induction false} HexCoded(v: nat, width: nat)
    ensures Coded(HexNumber(v, width))
    decreases width
  {
    if width > 0 { HexCoded(v / 16, width - 1); }
  }

  lemma {:induction false} TextCoded(bytes: seq<nat>)
    requires forall i :: 0 <= i < |bytes| ==> bytes[i] < 256
    ensures Coded(HexBytes(bytes) + "!")
    decreases |bytes|
  {
    if bytes != [] {
      TextCoded(bytes[1..]);
      var rest := HexBytes(bytes[1..]) + "!";
      assert HexBytes(bytes) + "!" == [Digit(bytes[0] / 16), Digit(bytes[0] % 16)] + rest;
    }
  }

  lemma SixteenDigits()
    ensures Power16(16) == ALL + 1
  {
    assert Power16(4) == 0x1_0000;
    assert Power16(8) == 0x1_0000_0000;
    assert Power16(12) == 0x1_0000_0000_0000;
  }

  lemma NormalValue(bits: nat)
    requires bits <= ALL && IsFinite(bits)
    ensures Normal(bits) <= ALL && Normal(bits) != TOP && IsFinite(Normal(bits)) && Scaled(Normal(bits)) == Scaled(bits)
  {
  }

  lemma PlainCoded(v: Scalar)
    requires Sortable(v) && !v.Null?
    ensures Coded(Plain(v))
  {
    match v
    case Bool(flag) => assert Digit(0) == '0' && Digit(1) == '1';
    case Text(bytes) => TextCoded(bytes);
    case Number(bits, _) => HexCoded(OrderedBits(Normal(bits)), 16);
  }

  lemma PlainOrder(a: Scalar, b: Scalar)
    requires Sortable(a) && Sortable(b) && !a.Null? && !b.Null? && ValueBelow(a, b)
    ensures Below1(Plain(a), Plain(b))
  {
    match a
    case Bool(_) =>
    case Text(x) => TextOrder(x, b.bytes);
    case Number(x, _) =>
      NormalValue(x);
      NormalValue(b.bits);
      OrderedIsNumeric(Normal(x), Normal(b.bits));
      OrderedIsInjective(Normal(b.bits), Normal(b.bits));
      SixteenDigits();
      HexOrder(OrderedBits(Normal(x)), OrderedBits(Normal(b.bits)), 16);
  }

  lemma PlainSame(a: Scalar, b: Scalar)
    requires Sortable(a) && Sortable(b) && !a.Null? && !b.Null? && SameValue(a, b)
    ensures Plain(a) == Plain(b)
  {
    if a.Number? {
      NormalValue(a.bits);
      NormalValue(b.bits);
      OrderedIsNumeric(Normal(a.bits), Normal(b.bits));
    }
  }

  // ---------------------------------------------------------------------------
  // One column

  function ColumnText(v: Scalar, d: Direction): string
    requires Sortable(v)
  {
    ScalarSort(v, d).value.text
  }

  /** Below in the column is below in the strings, at a position that no suffix can change. */
  lemma ColumnOrder(a: Scalar, b: Scalar, d: Direction)
    requires Sortable(a) && Sortable(b) && Comparable(a, b) && ColumnBelow(a, b, d)
    ensures Below1(ColumnText(a, d), ColumnText(b, d))
  {
    if !b.Null? {
      var low, high := if d.Asc? then a else b, if d.Asc? then b else a;
      PlainOrder(low, high);
      var x, y := Plain(a), Plain(b);
      if d.Asc? {
        BelowAfter("0", x, y);
      } else {
        PlainCoded(a);
        PlainCoded(b);
        ReversedOrder(y, x);
        BelowAfter("0", Reversed(x), Reversed(y));
      }
    }
  }

  lemma ColumnSame(a: Scalar, b: Scalar, d: Direction)
    requires Sortable(a) && Sortable(b) && SameValue(a, b)
    ensures ColumnText(a, d) == ColumnText(b, d)
  {
    if !a.Null? { PlainSame(a, b); }
  }

  lemma {:induction false} BytesTotal(a: seq<nat>, b: seq<nat>)
    ensures BytesBelow(a, b) || BytesBelow(b, a) || a == b
    decreases |a|
  {
    if a != [] && b != [] && a[0] == b[0] {
      BytesTotal(a[1..], b[1..]);
      if a[1..] == b[1..] { assert a == [a[0]] + a[1..] && b == [b[0]] + b[1..]; }
    }
  }

  lemma ColumnTotal(a: Scalar, b: Scalar, d: Direction)
    requires Sortable(a) && Sortable(b) && Comparable(a, b)
    ensures ColumnBelow(a, b, d) || ColumnBelow(b, a, d) || SameValue(a, b)
  {
    if a.Text? && b.Text? { BytesTotal(a.bytes, b.bytes); }
  }

  lemma {:induction false} NotBelowItself(x: string)
    ensures !Below1(x, x)
  {
    if x != [] { NotBelowItself(x[1..]); }
  }

  lemma BelowNotSame(a: Scalar, b: Scalar, d: Direction)
    requires Sortable(a) && Sortable(b) && Comparable(a, b) && ColumnBelow(a, b, d)
    ensures !SameValue(a, b)
  {
    ColumnOrder(a, b, d);
    NotBelowItself(ColumnText(a, d));
    if SameValue(a, b) { ColumnSame(a, b, d); }
  }

  // ---------------------------------------------------------------------------
  // All columns

  predicate AllSortable(v: seq<Scalar>) {
    forall i :: 0 <= i < |v| ==> Sortable(v[i])
  }

  predicate AllComparable(a: seq<Scalar>, b: seq<Scalar>)
    requires |a| == |b|
  {
    forall i :: 0 <= i < |a| ==> Comparable(a[i], b[i])
  }

  function SortText(v: seq<Scalar>, d: seq<Direction>): string
    requires |v| == |d| && AllSortable(v)
  {
    if v == [] then "" else (ColumnText(v[0], d[0]) + "|") + SortText(v[1..], d[1..])
  }

  predicate RowSame(a: seq<Scalar>, b: seq<Scalar>)
    requires |a| == |b|
  {
    forall i :: 0 <= i < |a| ==> SameValue(a[i], b[i])
  }

  lemma {:induction false} RowOrder(a: seq<Scalar>, b: seq<Scalar>, d: seq<Direction>)
    requires |a| == |b| == |d| && AllSortable(a) && AllSortable(b) && AllComparable(a, b)
    ensures RowBelow(a, b, d) ==> Below1(SortText(a, d), SortText(b, d))
    ensures RowSame(a, b) ==> SortText(a, d) == SortText(b, d)
    ensures RowBelow(a, b, d) || RowBelow(b, a, d) || RowSame(a, b)
    decreases |a|
  {
    if a != [] {
      var x, y := ColumnText(a[0], d[0]), ColumnText(b[0], d[0]);
      RowOrder(a[1..], b[1..], d[1..]);
      ColumnTotal(a[0], b[0], d[0]);
      if ColumnBelow(a[0], b[0], d[0]) {
        ColumnOrder(a[0], b[0], d[0]);
        BelowStays(x, y, "|", "|");
        BelowStays(x + "|", y + "|", SortText(a[1..], d[1..]), SortText(b[1..], d[1..]));
        BelowNotSame(a[0], b[0], d[0]);
      } else if SameValue(a[0], b[0]) {
        ColumnSame(a[0], b[0], d[0]);
        if RowBelow(a[1..], b[1..], d[1..]) {
          BelowAfter(x + "|", SortText(a[1..], d[1..]), SortText(b[1..], d[1..]));
        }
        SameSplit(a, b);
      }
    }
  }

  lemma SameSplit(a: seq<Scalar>, b: seq<Scalar>)
    requires |a| == |b| && a != []
    ensures RowSame(a, b) <==> SameValue(a[0], b[0]) && RowSame(a[1..], b[1..])
  {
    if SameValue(a[0], b[0]) && RowSame(a[1..], b[1..]) {
      forall i | 0 <= i < |a| ensures SameValue(a[i], b[i]) {
        if i > 0 { assert a[i] == a[1..][i - 1] && b[i] == b[1..][i - 1]; }
      }
    }
  }

  /** The key of a row in its group: the group's prefix, the sort columns, and the row's identity as the last tie-breaker. */
  function ColumnKey(prefix: string, v: seq<Scalar>, d: seq<Direction>, identity: string): Key
    requires |v| == |d| && AllSortable(v)
  {
    prefix + (SortText(v, d) + ("/" + identity))
  }

  /** Key order is the order of the columns, each in its direction with nulls last; equal rows are told apart by identity. */
  lemma KeyOrderIsColumnOrder(prefix: string, a: seq<Scalar>, b: seq<Scalar>, d: seq<Direction>, i: string, j: string)
    requires |a| == |b| == |d| && AllSortable(a) && AllSortable(b) && AllComparable(a, b)
    ensures Less(ColumnKey(prefix, a, d, i), ColumnKey(prefix, b, d, j)) <==> RowBelow(a, b, d) || (RowSame(a, b) && Less(i, j))
  {
    var x, y := SortText(a, d), SortText(b, d);
    RowOrder(a, b, d);
    RowOrder(b, a, d);
    LessAfterPrefix(prefix, x + ("/" + i), y + ("/" + j));
    if RowBelow(a, b, d) {
      BelowStays(x, y, "/" + i, "/" + j);
    } else if RowSame(a, b) {
      LessAfterPrefix(x, "/" + i, "/" + j);
      LessAfterPrefix("/", i, j);
    } else {
      BelowStays(y, x, "/" + j, "/" + i);
      LessAsymmetric(y + ("/" + j), x + ("/" + i));
      NotBothWays(a, b, d);
    }
  }

  lemma NotBothWays(a: seq<Scalar>, b: seq<Scalar>, d: seq<Direction>)
    requires |a| == |b| == |d| && AllSortable(a) && AllSortable(b) && AllComparable(a, b) && RowBelow(b, a, d)
    ensures !RowSame(a, b)
  {
    RowOrder(b, a, d);
    RowOrder(a, b, d);
    NotBelowItself(SortText(a, d));
  }

  // ---------------------------------------------------------------------------
  // The columns of a row, with the kinds each column has shown so far

  type Fields = map<string, Scalar>
  type Order = seq<(string, Direction)>
  type Kinds = map<string, Kind>

  function Values(order: Order, row: Fields): seq<Scalar>
    requires forall i :: 0 <= i < |order| ==> order[i].0 in row
  {
    seq(|order|, i requires 0 <= i < |order| => row[order[i].0])
  }

  function Directions(order: Order): seq<Direction> {
    seq(|order|, i requires 0 <= i < |order| => order[i].1)
  }

  /** Every sort column of the row is there, can be sorted, and has the kind recorded for it unless it is null. */
  predicate Fits(order: Order, row: Fields, kinds: Kinds) {
    forall i :: 0 <= i < |order| ==>
      && order[i].0 in row && Sortable(row[order[i].0])
      && (KindOf(row[order[i].0]).Some? ==> order[i].0 in kinds && KindOf(row[order[i].0]) == Some(kinds[order[i].0]))
  }

  predicate Extends(kinds: Kinds, more: Kinds) {
    forall f :: f in kinds ==> f in more && more[f] == kinds[f]
  }

  predicate DistinctFields(order: Order) {
    forall i, j :: 0 <= i < j < |order| ==> order[i].0 != order[j].0
  }

  /** Every sort column is there, can be sorted, and does not contradict the kind it showed before. */
  predicate Admits(order: Order, row: Fields, kinds: Kinds) {
    forall i :: 0 <= i < |order| ==>
      && order[i].0 in row && Sortable(row[order[i].0])
      && (KindOf(row[order[i].0]).Some? && order[i].0 in kinds ==> KindOf(row[order[i].0]) == Some(kinds[order[i].0]))
  }

  /** The kinds recorded after a row: each column that is not null shows its own. */
  function KindsAfter(order: Order, row: Fields, kinds: Kinds): Kinds {
    if order == [] then kinds
    else
      var known := KindsAfter(order[..|order| - 1], row, kinds);
      var field := order[|order| - 1].0;
      if field in row && KindOf(row[field]).Some? then known[field := KindOf(row[field]).value] else known
  }

  lemma {:induction false} FitsKinds(order: Order, row: Fields, kinds: Kinds)
    requires Fits(order, row, kinds)
    ensures KindsAfter(order, row, kinds) == kinds
    decreases |order|
  {
    if order != [] {
      var front := order[..|order| - 1];
      assert forall i :: 0 <= i < |front| ==> front[i] == order[i];
      FitsKinds(front, row, kinds);
      var field := order[|order| - 1].0;
      assert order[|order| - 1].0 in row;
      if KindOf(row[field]).Some? { assert kinds[field := kinds[field]] == kinds; }
    }
  }

  function SortOf(order: Order, row: Fields): string
    requires forall i :: 0 <= i < |order| ==> order[i].0 in row && Sortable(row[order[i].0])
  {
    SortText(Values(order, row), Directions(order))
  }

  lemma {:induction false} SortSnoc(v: seq<Scalar>, d: seq<Direction>, x: Scalar, e: Direction)
    requires |v| == |d| && AllSortable(v) && Sortable(x)
    ensures AllSortable(v + [x]) && SortText(v + [x], d + [e]) == SortText(v, d) + (ColumnText(x, e) + "|")
    decreases |v|
  {
    if v == [] {
      assert v + [x] == [x] && d + [e] == [e];
      assert SortText([x], [e]) == (ColumnText(x, e) + "|") + SortText([], []);
    } else {
      var w, f := v + [x], d + [e];
      var tail, tails := v[1..], d[1..];
      SortSnoc(tail, tails, x, e);
      assert w[0] == v[0] && f[0] == d[0] && w[1..] == tail + [x] && f[1..] == tails + [e];
      Regroup(ColumnText(v[0], d[0]) + "|", SortText(tail, tails), ColumnText(x, e) + "|");
    }
  }

  lemma Regroup(a: string, b: string, c: string)
    ensures a + (b + c) == (a + b) + c
  {
  }

  lemma SortNext(order: Order, row: Fields, i: nat)
    requires i < |order| && (forall j :: 0 <= j < i ==> order[..i][j].0 in row && Sortable(row[order[..i][j].0]))
    requires order[i].0 in row && Sortable(row[order[i].0])
    ensures var more := order[..i + 1]; forall j :: 0 <= j < i + 1 ==> more[j].0 in row && Sortable(row[more[j].0])
    ensures SortOf(order[..i + 1], row) == SortOf(order[..i], row) + (ColumnText(row[order[i].0], order[i].1) + "|")
  {
    SortSnoc(Values(order[..i], row), Directions(order[..i]), row[order[i].0], order[i].1);
    assert Values(order[..i + 1], row) == Values(order[..i], row) + [row[order[i].0]];
    assert Directions(order[..i + 1]) == Directions(order[..i]) + [order[i].1];
  }

  /** What the columns seen so far added. */
  ghost predicate Noted(order: Order, i: nat, kinds: Kinds, known: Kinds) {
    && Extends(kinds, known)
    && forall f :: f in known && f !in kinds ==> exists j :: 0 <= j < i && j < |order| && order[j].0 == f
  }

  /** The first `i` columns were accepted, and `known` is what they showed. */
  ghost predicate AcceptedSoFar(order: Order, row: Fields, kinds: Kinds, known: Kinds, i: nat)
    requires i <= |order|
  {
    && Fits(order[..i], row, known) && Noted(order, i, kinds, known) && Admits(order[..i], row, kinds)
    && known == KindsAfter(order[..i], row, kinds)
  }

  lemma NextAdmitted(order: Order, row: Fields, kinds: Kinds, known: Kinds, i: nat)
    requires i < |order| && Extends(kinds, known) && Admits(order[..i], row, kinds)
    requires order[i].0 in row && Sortable(row[order[i].0])
    requires KindOf(row[order[i].0]).Some? && order[i].0 in known ==> KindOf(row[order[i].0]) == Some(known[order[i].0])
    ensures Admits(order[..i + 1], row, kinds)
  {
    var more := order[..i + 1];
    assert forall j :: 0 <= j < i ==> more[j] == order[..i][j];
  }

  lemma NextFits(order: Order, row: Fields, known: Kinds, next: Kinds, i: nat)
    requires i < |order| && Fits(order[..i], row, known)
    requires order[i].0 in row && Sortable(row[order[i].0])
    requires KindOf(row[order[i].0]).Some? && order[i].0 in known ==> KindOf(row[order[i].0]) == Some(known[order[i].0])
    requires next == if KindOf(row[order[i].0]).Some? then known[order[i].0 := KindOf(row[order[i].0]).value] else known
    ensures Fits(order[..i + 1], row, next) && Extends(known, next)
  {
    var more := order[..i + 1];
    assert forall j :: 0 <= j < i ==> more[j] == order[..i][j];
  }

  lemma NextColumn(order: Order, row: Fields, kinds: Kinds, known: Kinds, i: nat, next: Kinds)
    requires DistinctFields(order) && i < |order| && AcceptedSoFar(order, row, kinds, known, i)
    requires order[i].0 in row && Sortable(row[order[i].0])
    requires KindOf(row[order[i].0]).Some? && order[i].0 in known ==> KindOf(row[order[i].0]) == Some(known[order[i].0])
    requires next == if KindOf(row[order[i].0]).Some? then known[order[i].0 := KindOf(row[order[i].0]).value] else known
    ensures AcceptedSoFar(order, row, kinds, next, i + 1)
  {
    var more := order[..i + 1];
    assert more[..i] == order[..i] && more[i] == order[i];
    assert forall j :: 0 <= j < i ==> more[j] == order[..i][j];
    NextAdmitted(order, row, kinds, known, i);
    NextFits(order, row, known, next, i);
    forall f | f in next && f !in kinds ensures exists j :: 0 <= j < i + 1 && j < |order| && order[j].0 == f {
      if f != order[i].0 {
        var j :| 0 <= j < i && j < |order| && order[j].0 == f;
      }
    }
  }

  /** A column that contradicts what is known contradicts what was known before this row. */
  lemma Contradicts(order: Order, row: Fields, kinds: Kinds, known: Kinds, i: nat)
    requires DistinctFields(order) && i < |order| && AcceptedSoFar(order, row, kinds, known, i) && order[i].0 in row
    requires KindOf(row[order[i].0]).Some? && order[i].0 in known && known[order[i].0] != KindOf(row[order[i].0]).value
    ensures !Admits(order, row, kinds)
  {
    assert forall j :: 0 <= j < i ==> order[j].0 != order[i].0;
  }

  lemma Unusable(order: Order, row: Fields, kinds: Kinds, i: nat)
    requires i < |order| && (order[i].0 !in row || !Sortable(row[order[i].0]))
    ensures !Admits(order, row, kinds)
  {
  }

  /** Builds the sort part of a candidate key and records the kind of each column; refused exactly when a column cannot be used. */
  method SortPart(order: Order, row: Fields, kinds: Kinds) returns (r: Result<(string, Kinds), Fault>)
    requires DistinctFields(order) && forall f :: f in row ==> GoodScalar(row[f])
    ensures r.Ok? <==> Admits(order, row, kinds)
    ensures r.Ok? ==> Fits(order, row, r.value.1) && Extends(kinds, r.value.1) && r.value.0 == SortOf(order, row)
    ensures r.Ok? ==> r.value.1 == KindsAfter(order, row, kinds)
  {
    var sort, known := "", kinds;
    for i := 0 to |order|
      invariant AcceptedSoFar(order, row, kinds, known, i)
      invariant forall j :: 0 <= j < i ==> order[..i][j] == order[j]
      invariant sort == SortOf(order[..i], row)
    {
      var field, direction := order[i].0, order[i].1;
      if field !in row { Unusable(order, row, kinds, i); return Err(MissingField(field)); }
      var component := ScalarSort(row[field], direction);
      if component.Err? { Unusable(order, row, kinds, i); return Err(component.error); }
      var next := known;
      if component.value.kind.Some? {
        if field in known && known[field] != component.value.kind.value {
          Contradicts(order, row, kinds, known, i);
          return Err(ChangedType(field));
        }
        next := known[field := component.value.kind.value];
      }
      NextColumn(order, row, kinds, known, i, next);
      known := next;
      SortNext(order, row, i);
      sort := sort + component.value.text;
      sort := sort + "|";
    }
    assert order[..|order|] == order;
    return Ok((sort, known));
  }
}
