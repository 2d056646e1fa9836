/** The packed binary batch of process events: its writer, its reader, and that each undoes the other. */
module PackedBatch {
  import opened Wrappers

  type Byte = n: nat | n < 256

  type Bytes = seq<Byte>

  const U32: nat := 0x1_0000_0000
  const MOST: nat := 100_000
  const HEADER: Bytes := [84, 67, 80, 49]

  /** An event as it travels: eight bytes of time, sixteen of identifier, a key and a value. */
  datatype Event = Event(time: Bytes, id: Bytes, key: Bytes, value: Bytes)

  datatype Fault = BadHeader | BadCount | Truncated | BadKey | BadValue | Trailing

  /** Which byte strings are texts and which are JSON documents. */
  datatype Grammar = Grammar(text: Bytes -> bool, document: Bytes -> bool)

  predicate Fits(g: Grammar, e: Event) {
    && |e.time| == 8 && |e.id| == 16 && |e.key| < U32 && |e.value| < U32
    && g.text(e.key) && g.document(e.value)
  }

  predicate Sendable(g: Grammar, events: seq<Event>) {
    1 <= |events| <= MOST && forall i :: 0 <= i < |events| ==> Fits(g, events[i])
  }

  /** Four bytes, least significant first. */
  function Word(n: nat): (b: Bytes)
    requires n < U32
    ensures |b| == 4
  {
    [Low(n), Low(n / 256), Low(n / 65536), Low(n / 16777216)]
  }

  function Low(n: nat): Byte {
    var r: nat := n % 256;
    r
  }

  function Number(b: Bytes): (n: nat)
    requires |b| == 4
    ensures n < U32
  {
    b[0] as nat + 256 * b[1] as nat + 65536 * b[2] as nat + 16777216 * b[3] as nat
  }

  lemma WordNumber(n: nat)
    requires n < U32
    ensures Number(Word(n)) == n
  {
    var a := n / 256;
    var b := a / 256;
    var c := b / 256;
    assert n == 256 * a + n % 256 && a == 256 * b + a % 256 && b == 256 * c + b % 256;
    assert n / 65536 == b && n / 16777216 == c;
    assert c % 256 == c;
  }

  lemma NumberWord(b: Bytes)
    requires |b| == 4
    ensures Word(Number(b)) == b
  {
    var n := Number(b);
    assert n / 256 == b[1] as nat + 256 * b[2] as nat + 65536 * b[3] as nat;
    assert n / 65536 == b[2] as nat + 256 * b[3] as nat && n / 16777216 == b[3] as nat;
  }

  function EventBytes(e: Event): Bytes
    requires |e.key| < U32 && |e.value| < U32
  {
    e.time + Word(|e.key|) + Word(|e.value|) + e.id + e.key + e.value
  }

  ghost predicate Sized(events: seq<Event>) {
    forall i :: 0 <= i < |events| ==> |events[i].time| == 8 && |events[i].id| == 16 && |events[i].key| < U32 && |events[i].value| < U32
  }

  function Body(events: seq<Event>): Bytes
    requires Sized(events)
  {
    if events == [] then [] else EventBytes(events[0]) + Body(events[1..])
  }

  function Packed(events: seq<Event>): Bytes
    requires Sized(events) && |events| < U32
  {
    HEADER + Word(|events|) + Body(events)
  }

  lemma FitsSized(g: Grammar, events: seq<Event>)
    requires forall i :: 0 <= i < |events| ==> Fits(g, events[i])
    ensures Sized(events)
  {
  }

  // ---------------------------------------------------------------------------
  // Reading

  /** `n` bytes at the cursor, if they are there. */
  function Taken(body: Bytes, cursor: nat, n: nat): Option<Bytes> {
    if cursor + n <= |body| then Some(body[cursor..cursor + n]) else None
  }

  function EventAt(g: Grammar, body: Bytes, cursor: nat): Result<Event, Fault> {
    if cursor + 32 > |body| then Err(Truncated)
    else
      var keys, values := Number(body[cursor + 8..cursor + 12]), Number(body[cursor + 12..cursor + 16]);
      match Taken(body, cursor + 32, keys)
      case None => Err(Truncated)
      case Some(key) =>
        if !g.text(key) then Err(BadKey)
        else
          match Taken(body, cursor + 32 + keys, values)
          case None => Err(Truncated)
          case Some(value) =>
            if !g.document(value) then Err(BadValue)
            else Ok(Event(body[cursor..cursor + 8], body[cursor + 16..cursor + 32], key, value))
  }

  function Length(e: Event): nat {
    32 + |e.key| + |e.value|
  }

  /** Reads an event at a position of a batch. */
  type Reader = nat -> Result<Event, Fault>

  function ReaderOf(g: Grammar, body: Bytes): Reader {
    (cursor: nat) => EventAt(g, body, cursor)
  }

  /** `count` events one after the other, up to the end of the batch. */
  function EventsFrom(read: Reader, end: nat, cursor: nat, count: nat): Result<seq<Event>, Fault>
    decreases count
  {
    if count == 0 then if cursor == end then Ok([]) else Err(Trailing)
    else if read(cursor).Err? then Err(read(cursor).error)
    else Prepended(read(cursor).value, EventsFrom(read, end, cursor + Length(read(cursor).value), count - 1))
  }

  function Prepended(e: Event, rest: Result<seq<Event>, Fault>): Result<seq<Event>, Fault> {
    if rest.Ok? then Ok([e] + rest.value) else rest
  }

  function Parsed(g: Grammar, body: Bytes): Result<seq<Event>, Fault> {
    if |body| < 8 || body[..4] != HEADER then Err(BadHeader)
    else
      var count := Number(body[4..8]);
      if count == 0 || count > MOST then Err(BadCount) else EventsFrom(ReaderOf(g, body), |body|, 8, count)
  }

  /** Takes `n` bytes and moves the cursor, or finds the batch truncated. */
  method Take(body: Bytes, cursor: nat, n: nat) returns (r: Result<(Bytes, nat), Fault>)
    ensures r == if Taken(body, cursor, n).Some? then Ok((Taken(body, cursor, n).value, cursor + n)) else Err(Truncated)
  {
    var end := cursor + n;
    if end > |body| { return Err(Truncated); }
    return Ok((body[cursor..end], end));
  }

  method ReadEvent(g: Grammar, body: Bytes, ghost reader: Reader, start: nat) returns (r: Result<(Event, nat), Fault>)
    requires reader == ReaderOf(g, body)
    ensures r == Advanced(reader(start), start)
  {
    var time := Take(body, start, 8);
    if time.Err? { return Err(time.error); }
    var keys := Take(body, time.value.1, 4);
    if keys.Err? { return Err(keys.error); }
    var values := Take(body, keys.value.1, 4);
    if values.Err? { return Err(values.error); }
    var id := Take(body, values.value.1, 16);
    if id.Err? { return Err(id.error); }
    var key := Take(body, id.value.1, Number(keys.value.0));
    if key.Err? { return Err(key.error); }
    if !g.text(key.value.0) { return Err(BadKey); }
    var value := Take(body, key.value.1, Number(values.value.0));
    if value.Err? { return Err(value.error); }
    if !g.document(value.value.0) { return Err(BadValue); }
    return Ok((Event(time.value.0, id.value.0, key.value.0, value.value.0), value.value.1));
  }

  /** What was read, and where the next event begins. */
  function Advanced(read: Result<Event, Fault>, start: nat): Result<(Event, nat), Fault> {
    if read.Ok? then Ok((read.value, start + Length(read.value))) else Err(read.error)
  }

  method Parse(g: Grammar, body: Bytes) returns (r: Result<seq<Event>, Fault>)
    ensures r == Parsed(g, body)
  {
    if |body| < 8 || body[..4] != HEADER { return Err(BadHeader); }
    var cursor := 4;
    var counted := Take(body, cursor, 4);
    var count := Number(counted.value.0);
    cursor := counted.value.1;
    if count == 0 || count > MOST { return Err(BadCount); }
    r := ReadAll(g, body, ReaderOf(g, body), cursor, count);
  }

  method ReadAll(g: Grammar, body: Bytes, ghost reader: Reader, start: nat, count: nat) returns (r: Result<seq<Event>, Fault>)
    requires reader == ReaderOf(g, body)
    ensures r == EventsFrom(reader, |body|, start, count)
  {
    var cursor, end := start, |body|;
    var events: seq<Event> := [];
    ghost var left := count;
    AfterNothing(EventsFrom(reader, end, start, count));
    for i := 0 to count
      invariant left == count - i && After(events, EventsFrom(reader, end, cursor, left)) == EventsFrom(reader, end, start, count)
    {
      var read := ReadEvent(g, body, reader, cursor);
      ghost var fewer: nat := left - 1;
      AfterNext(events, reader, end, cursor, left, fewer);
      if read.Err? { return Err(read.error); }
      left := fewer;
      events := events + [read.value.0];
      cursor := read.value.1;
    }
    AfterLast(events, reader, end, cursor);
    return if cursor != end then Err(Trailing) else Ok(events);
  }

  function After(events: seq<Event>, rest: Result<seq<Event>, Fault>): Result<seq<Event>, Fault> {
    if rest.Ok? then Ok(events + rest.value) else rest
  }

  lemma AfterNothing(rest: Result<seq<Event>, Fault>)
    ensures After([], rest) == rest
  {
    if rest.Ok? { assert [] + rest.value == rest.value; }
  }

  lemma AfterLast(events: seq<Event>, read: Reader, end: nat, cursor: nat)
    ensures After(events, EventsFrom(read, end, cursor, 0)) == if cursor == end then Ok(events) else Err(Trailing)
  {
    assert events + [] == events;
  }

  lemma AfterNext(events: seq<Event>, read: Reader, end: nat, cursor: nat, count: nat, left: nat)
    requires count == left + 1
    ensures After(events, EventsFrom(read, end, cursor, count)) ==
            if read(cursor).Err? then Err(read(cursor).error)
            else After(events + [read(cursor).value], EventsFrom(read, end, cursor + Length(read(cursor).value), left))
  {
    if read(cursor).Ok? {
      var e := read(cursor).value;
      var rest := EventsFrom(read, end, cursor + Length(e), left);
      if rest.Ok? { assert events + ([e] + rest.value) == (events + [e]) + rest.value; }
    }
  }

  // ---------------------------------------------------------------------------
  // Writing

  /** The payload so far, with the events still to write, makes the whole batch. */
  ghost predicate Written(payload: Bytes, events: seq<Event>, i: nat) {
    i <= |events| && Sized(events) && |events| < U32 && Sized(events[i..]) && payload + Body(events[i..]) == Packed(events)
  }

  lemma WrittenNext(payload: Bytes, events: seq<Event>, i: nat, next: nat, more: Bytes)
    requires Written(payload, events, i) && i < |events| && next == i + 1
    requires more == payload + EventBytes(events[i])
    ensures Written(more, events, next)
  {
    var rest := events[i..];
    assert rest[0] == events[i] && rest[1..] == events[next..];
    var after := Body(events[next..]);
    assert payload + (EventBytes(events[i]) + after) == more + after;
  }

  lemma WrittenAll(payload: Bytes, events: seq<Event>)
    requires Written(payload, events, |events|)
    ensures payload == Packed(events)
  {
    assert payload + [] == payload;
  }

  method Write(g: Grammar, events: seq<Event>) returns (payload: Bytes)
    requires Sendable(g, events)
    ensures Sized(events) && payload == Packed(events)
  {
    FitsSized(g, events);
    payload := HEADER;
    payload := payload + Word(|events|);
    assert events[0..] == events;
    for i := 0 to |events|
      invariant Written(payload, events, i)
    {
      var e := events[i];
      ghost var was, next := payload, i + 1;
      payload := payload + (e.time + Word(|e.key|) + Word(|e.value|) + e.id);
      payload := payload + e.key;
      payload := payload + e.value;
      assert payload == was + EventBytes(e);
      WrittenNext(was, events, i, next, payload);
    }
    WrittenAll(payload, events);
  }

  // ---------------------------------------------------------------------------
  // Each undoes the other

  lemma SliceOf(front: Bytes, part: Bytes, rest: Bytes, from: nat, to: nat)
    requires from == |front| && to == from + |part|
    ensures (front + part + rest)[from..to] == part
  {
  }

  /** Where the parts of an event lie, with the lengths given as they were written. */
  lemma EventSlices(front: Bytes, e: Event, keys: Bytes, values: Bytes, rest: Bytes, body: Bytes, c: nat)
    requires |e.time| == 8 && |keys| == 4 && |values| == 4 && |e.id| == 16 && c == |front|
    requires body == front + (e.time + keys + values + e.id + e.key + e.value) + rest
    ensures |body| >= c + 32 + |e.key| + |e.value|
    ensures body[c..c + 8] == e.time && body[c + 8..c + 12] == keys && body[c + 12..c + 16] == values
    ensures body[c + 16..c + 32] == e.id && body[c + 32..c + 32 + |e.key|] == e.key
    ensures body[c + 32 + |e.key|..c + 32 + |e.key| + |e.value|] == e.value
  {
    var head := e.time + keys + values + e.id;
    assert body == (front + head + e.key) + e.value + rest;
    SliceOf(front + head + e.key, e.value, rest, c + 32 + |e.key|, c + 32 + |e.key| + |e.value|);
    assert body == (front + head) + e.key + (e.value + rest);
    SliceOf(front + head, e.key, e.value + rest, c + 32, c + 32 + |e.key|);
    assert body[c..c + 32] == head;
    assert head[..8] == e.time && head[8..12] == keys && head[12..16] == values && head[16..] == e.id;
    forall i, j | 0 <= i <= j <= 32 ensures body[c + i..c + j] == head[i..j] {
      assert body[c + i..c + j] == body[c..c + 32][i..j];
    }
  }

  lemma EventRead(g: Grammar, front: Bytes, e: Event, rest: Bytes)
    requires Fits(g, e)
    ensures EventAt(g, front + EventBytes(e) + rest, |front|) == Ok(e)
    ensures |EventBytes(e)| == Length(e)
  {
    var body := front + EventBytes(e) + rest;
    EventSlices(front, e, Word(|e.key|), Word(|e.value|), rest, body, |front|);
    WordNumber(|e.key|);
    WordNumber(|e.value|);
  }

  lemma {:induction false} EventsRead(g: Grammar, front: Bytes, events: seq<Event>, at: nat, body: Bytes)
    requires Sized(events) && at == |front| && body == front + Body(events) && forall i :: 0 <= i < |events| ==> Fits(g, events[i])
    ensures EventsFrom(ReaderOf(g, body), |body|, at, |events|) == Ok(events)
    decreases |events|
  {
    if events != [] {
      var e, rest := events[0], events[1..];
      var next := front + EventBytes(e);
      EventRead(g, front, e, Body(rest));
      assert body == next + Body(rest);
      EventsRead(g, next, rest, |next|, body);
      Chained(ReaderOf(g, body), |body|, at, e, |next|, rest, events);
    }
  }

  lemma Chained(read: Reader, end: nat, at: nat, e: Event, next: nat, rest: seq<Event>, events: seq<Event>)
    requires read(at) == Ok(e) && next == at + Length(e) && events != [] && e == events[0] && rest == events[1..]
    requires EventsFrom(read, end, next, |rest|) == Ok(rest)
    ensures EventsFrom(read, end, at, |events|) == Ok(events)
  {
    assert [e] + rest == events;
  }

  /** Reading what was written gives back the events. */
  lemma ReadWritten(g: Grammar, events: seq<Event>)
    requires Sendable(g, events)
    ensures Sized(events) && Parsed(g, Packed(events)) == Ok(events)
  {
    FitsSized(g, events);
    var front := HEADER + Word(|events|);
    assert Packed(events) == front + Body(events);
    assert Packed(events)[..4] == HEADER && Packed(events)[4..8] == Word(|events|);
    WordNumber(|events|);
    EventsRead(g, front, events, 8, Packed(events));
  }

  lemma EventWritten(g: Grammar, body: Bytes, cursor: nat, e: Event)
    requires EventAt(g, body, cursor) == Ok(e)
    ensures Fits(g, e) && cursor + Length(e) <= |body| && EventBytes(e) == body[cursor..cursor + Length(e)]
  {
    NumberWord(body[cursor + 8..cursor + 12]);
    NumberWord(body[cursor + 12..cursor + 16]);
    Joined(body, cursor, |e.key|, |e.value|);
  }

  lemma Joined(body: Bytes, c: nat, keys: nat, values: nat)
    requires c + 32 + keys + values <= |body|
    ensures body[c..c + 8] + body[c + 8..c + 12] + body[c + 12..c + 16] + body[c + 16..c + 32]
            + body[c + 32..c + 32 + keys] + body[c + 32 + keys..c + 32 + keys + values]
            == body[c..c + (32 + keys + values)]
  {
    assert body[c..c + 8] + body[c + 8..c + 12] == body[c..c + 12];
    assert body[c..c + 12] + body[c + 12..c + 16] == body[c..c + 16];
    assert body[c..c + 16] + body[c + 16..c + 32] == body[c..c + 32];
    assert body[c..c + 32] + body[c + 32..c + 32 + keys] == body[c..c + 32 + keys];
  }

  lemma {:induction false} EventsWritten(g: Grammar, body: Bytes, cursor: nat, count: nat, events: seq<Event>)
    requires cursor <= |body| && EventsFrom(ReaderOf(g, body), |body|, cursor, count) == Ok(events)
    ensures |events| == count && (forall i :: 0 <= i < |events| ==> Fits(g, events[i]))
    ensures Sized(events) && Body(events) == body[cursor..]
    decreases count
  {
    if count > 0 {
      var left: nat := count - 1;
      var e, next, rest := FirstOf(ReaderOf(g, body), |body|, cursor, count, left, events);
      EventWritten(g, body, cursor, e);
      EventsWritten(g, body, next, left, rest);
      Assembled(body, cursor, next, e, rest, events);
    }
  }

  lemma Assembled(body: Bytes, cursor: nat, next: nat, e: Event, rest: seq<Event>, events: seq<Event>)
    requires cursor <= next <= |body| && events == [e] + rest
    requires |e.time| == 8 && |e.id| == 16 && |e.key| < U32 && |e.value| < U32 && EventBytes(e) == body[cursor..next]
    requires Sized(rest) && Body(rest) == body[next..]
    ensures Sized(events) && Body(events) == body[cursor..]
  {
    assert events[0] == e && events[1..] == rest;
    assert body[cursor..] == body[cursor..next] + body[next..];
  }

  lemma FirstOf(read: Reader, end: nat, cursor: nat, count: nat, left: nat, events: seq<Event>) returns (e: Event, next: nat, rest: seq<Event>)
    requires count == left + 1 && EventsFrom(read, end, cursor, count) == Ok(events)
    ensures read(cursor) == Ok(e) && next == cursor + Length(e) && EventsFrom(read, end, next, left) == Ok(rest) && events == [e] + rest
  {
    e := read(cursor).value;
    next := cursor + Length(e);
    rest := EventsFrom(read, end, next, left).value;
  }

  lemma ParsedWritten(g: Grammar, body: Bytes, events: seq<Event>)
    requires Parsed(g, body) == Ok(events)
    ensures Sendable(g, events) && Sized(events) && body == Packed(events)
  {
    var word := body[4..8];
    var count := Number(word);
    EventsWritten(g, body, 8, count, events);
    NumberWord(word);
    assert body == body[..4] + word + body[8..];
  }

  /** Whatever the reader accepts is, byte for byte, what the writer makes of its result: nothing cut, nothing left over, no second form. */
  lemma AcceptedExactly(g: Grammar, body: Bytes, events: seq<Event>)
    ensures Parsed(g, body) == Ok(events) <==>
              && 1 <= |events| <= 100_000 && (forall i :: 0 <= i < |events| ==> Fits(g, events[i]))
              && Sized(events) && body == Packed(events)
  {
    if Parsed(g, body) == Ok(events) {
      ParsedWritten(g, body, events);
    }
    if Sendable(g, events) && body == Packed(events) {
      ReadWritten(g, events);
    }
  }

  /** Two batches with the same bytes hold the same events. */
  lemma PackedTells(g: Grammar, a: seq<Event>, b: seq<Event>)
    requires Sendable(g, a) && Sendable(g, b) && Sized(a) && Sized(b) && Packed(a) == Packed(b)
    ensures a == b
  {
    ReadWritten(g, a);
    ReadWritten(g, b);
  }

  // ---------------------------------------------------------------------------
  // Where each byte is

  /** Where event `i` begins: after eight bytes of header and the events before it. */
  function Offset(events: seq<Event>, i: nat): nat
    requires i <= |events|
  {
    if i == 0 then 8 else Offset(events, i - 1) + 32 + |events[i - 1].key| + |events[i - 1].value|
  }

  /** Four bytes hold a number, least significant first. */
  predicate Holds(b: Bytes, at: nat, n: nat) {
    at + 4 <= |b| && b[at] as nat + 0x100 * b[at + 1] as nat + 0x1_0000 * b[at + 2] as nat + 0x100_0000 * b[at + 3] as nat == n
  }

  /** The event stands there: its time, the lengths of its key and value, its identifier, its key and its value. */
  ghost predicate StandsAt(b: Bytes, o: nat, e: Event) {
    && o + 32 + |e.key| + |e.value| <= |b|
    && b[o..o + 8] == e.time && Holds(b, o + 8, |e.key|) && Holds(b, o + 12, |e.value|) && b[o + 16..o + 32] == e.id
    && b[o + 32..o + 32 + |e.key|] == e.key && b[o + 32 + |e.key|..o + 32 + |e.key| + |e.value|] == e.value
  }

  lemma Slice(b: Bytes, front: Bytes, part: Bytes, back: Bytes)
    requires b == front + part + back
    ensures |front| + |part| <= |b| && b[|front|..|front| + |part|] == part
  {
  }

  lemma WordHolds(b: Bytes, front: Bytes, n: nat, back: Bytes)
    requires n < U32 && b == front + Word(n) + back
    ensures Holds(b, |front|, n)
  {
    WordNumber(n);
    var w, at := Word(n), |front|;
    assert b[at] == w[0] && b[at + 1] == w[1] && b[at + 2] == w[2] && b[at + 3] == w[3];
  }

  lemma LengthsStand(b: Bytes, front: Bytes, e: Event, tail: Bytes)
    requires |e.time| == 8 && |e.id| == 16 && |e.key| < U32 && |e.value| < U32
    requires b == front + (e.time + Word(|e.key|) + Word(|e.value|) + e.id) + tail
    ensures Holds(b, |front| + 8, |e.key|) && Holds(b, |front| + 12, |e.value|)
  {
    var keys, values := Word(|e.key|), Word(|e.value|);
    assert b == (front + e.time) + keys + (values + e.id + tail);
    WordHolds(b, front + e.time, |e.key|, values + e.id + tail);
    assert b == (front + e.time + keys) + values + (e.id + tail);
    WordHolds(b, front + e.time + keys, |e.value|, e.id + tail);
  }

  lemma NamesStand(b: Bytes, front: Bytes, e: Event, tail: Bytes)
    requires |e.time| == 8 && |e.id| == 16 && |e.key| < U32 && |e.value| < U32
    requires b == front + (e.time + Word(|e.key|) + Word(|e.value|) + e.id) + tail
    ensures |front| + 32 <= |b| && b[|front|..|front| + 8] == e.time && b[|front| + 16..|front| + 32] == e.id
  {
    var lengths := Word(|e.key|) + Word(|e.value|);
    assert b == front + e.time + (lengths + e.id + tail);
    Slice(b, front, e.time, lengths + e.id + tail);
    assert b == (front + e.time + lengths) + e.id + tail;
    Slice(b, front + e.time + lengths, e.id, tail);
  }

  lemma EventStands(b: Bytes, front: Bytes, e: Event, back: Bytes)
    requires |e.time| == 8 && |e.id| == 16 && |e.key| < U32 && |e.value| < U32 && b == front + EventBytes(e) + back
    ensures StandsAt(b, |front|, e)
  {
    var head, tail := e.time + Word(|e.key|) + Word(|e.value|) + e.id, e.key + e.value + back;
    assert b == front + head + tail;
    LengthsStand(b, front, e, tail);
    NamesStand(b, front, e, tail);
    assert b == (front + head) + e.key + (e.value + back);
    Slice(b, front + head, e.key, e.value + back);
    assert b == (front + head + e.key) + e.value + back;
    Slice(b, front + head + e.key, e.value, back);
  }

  lemma Associates(a: Bytes, b: Bytes, c: Bytes)
    ensures (a + b) + c == a + (b + c)
  {
  }

  lemma {:induction false} BodyJoined(a: seq<Event>, b: seq<Event>, both: seq<Event>)
    requires Sized(a) && Sized(b) && Sized(both) && both == a + b
    ensures Body(both) == Body(a) + Body(b)
    decreases |a|
  {
    if a == [] {
      assert both == b;
    } else {
      var rest := a[1..];
      assert both[1..] == rest + b;
      BodyJoined(rest, b, both[1..]);
      Associates(EventBytes(a[0]), Body(rest), Body(b));
    }
  }

  lemma BodyOne(e: Event)
    requires |e.time| == 8 && |e.id| == 16 && |e.key| < U32 && |e.value| < U32
    ensures Sized([e]) && Body([e]) == EventBytes(e) && |EventBytes(e)| == 32 + |e.key| + |e.value|
  {
    assert [e][1..] == [];
  }

  lemma {:induction false} BodyLength(events: seq<Event>, i: nat)
    requires Sized(events) && i <= |events|
    ensures Sized(events[..i]) && |Body(events[..i])| + 8 == Offset(events, i)
    decreases i
  {
    if i > 0 {
      BodyLength(events, i - 1);
      BodyOne(events[i - 1]);
      assert events[..i] == events[..i - 1] + [events[i - 1]];
      BodyJoined(events[..i - 1], [events[i - 1]], events[..i]);
    }
  }

  lemma BodySplits(events: seq<Event>, i: nat, before: seq<Event>, after: seq<Event>)
    requires Sized(events) && i < |events| && before == events[..i] && after == events[i + 1..]
    ensures Sized(before) && Sized(after)
    ensures Body(events) == Body(before) + EventBytes(events[i]) + Body(after)
  {
    var one, rest := [events[i]], events[i..];
    assert Sized(rest);
    BodyOne(events[i]);
    assert rest == one + after;
    BodyJoined(one, after, rest);
    assert events == before + rest;
    BodyJoined(before, rest, events);
    Associates(Body(before), EventBytes(events[i]), Body(after));
  }

  lemma LayoutFront(events: seq<Event>)
    requires Sized(events) && |events| < U32
    ensures var b := Packed(events); |b| == Offset(events, |events|) && b[..4] == [0x54, 0x43, 0x50, 0x31] && Holds(b, 4, |events|)
  {
    BodyLength(events, |events|);
    assert events[..|events|] == events;
    WordHolds(Packed(events), HEADER, |events|, Body(events));
  }

  lemma Regroup(a: Bytes, b: Bytes, c: Bytes, d: Bytes)
    ensures a + (b + c + d) == (a + b) + c + d
  {
  }

  /**
   The bytes of a batch, position by position: the letters TCP1, the number of events, and then each event where the ones
   before it end; nothing follows the last.
   */
  lemma Layout(events: seq<Event>, i: nat)
    requires Sized(events) && i < |events| < U32
    ensures var b := Packed(events);
            && |b| == Offset(events, |events|) && b[..4] == [0x54, 0x43, 0x50, 0x31] && Holds(b, 4, |events|)
            && StandsAt(b, Offset(events, i), events[i])
  {
    var b, before, after := Packed(events), events[..i], events[i + 1..];
    LayoutFront(events);
    BodySplits(events, i, before, after);
    BodyLength(events, i);
    var head := HEADER + Word(|events|);
    Regroup(head, Body(before), EventBytes(events[i]), Body(after));
    EventStands(b, head + Body(before), events[i], Body(after));
  }
}
