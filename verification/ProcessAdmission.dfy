/**
 What an ingress batch is answered and what it leaves in the ledger, told by the batch and by the shard before it:
 which event refuses the batch and why, which events are new, and which number each gets.
 */
module ProcessAdmission {
  import opened Wrappers
  import opened Text
  import opened ProcessShard
  import opened ProcessInvariant

  function IdAt(requests: seq<Request>, i: nat): EventKey
    requires i < |requests|
  {
    (requests[i].key, requests[i].eventId)
  }

  ghost predicate Earlier(requests: seq<Request>, i: nat, id: EventKey)
    requires i <= |requests|
  {
    exists j: nat :: j < i && IdAt(requests, j) == id
  }

  /** The event was admitted before the batch, or stands earlier in it. */
  ghost predicate Repeats(known: Ledger, requests: seq<Request>, i: nat)
    requires i < |requests|
  {
    IdAt(requests, i) in known || Earlier(requests, i, IdAt(requests, i))
  }

  /** It stood there with another body. */
  ghost predicate Differs(known: Ledger, requests: seq<Request>, i: nat)
    requires i < |requests|
  {
    if IdAt(requests, i) in known then known[IdAt(requests, i)].body != requests[i].body
    else exists j: nat :: j < i && IdAt(requests, j) == IdAt(requests, i) && requests[j].body != requests[i].body
  }

  /** How many of the first `k` events are new. */
  ghost function CountNew(known: Ledger, requests: seq<Request>, k: nat): nat
    requires k <= |requests|
  {
    if k == 0 then 0 else CountNew(known, requests, k - 1) + if Repeats(known, requests, k - 1) then 0 else 1
  }

  /** The number a new event gets: the one after the last, and after the new events before it. */
  ghost function NumberOf(s: Shard, requests: seq<Request>, i: nat): nat
    requires i < |requests|
  {
    s.nextSequence + CountNew(s.dedup, requests, i) + 1
  }

  /** Why event `i` refuses the batch, if it does. */
  ghost predicate Objects(s: Shard, requests: seq<Request>, i: nat, why: Refusal)
    requires i < |requests|
  {
    match why
    case ContentMismatch => Differs(s.dedup, requests, i)
    case KeyFinalized => !Repeats(s.dedup, requests, i) && requests[i].key in s.finalized
    case Exhausted => !Repeats(s.dedup, requests, i) && requests[i].key !in s.finalized && NumberOf(s, requests, i) >= 0x100_0000_0000_0000
    case _ => false
  }

  ghost predicate Passes(s: Shard, requests: seq<Request>, i: nat)
    requires i < |requests|
  {
    forall why :: !Objects(s, requests, i, why)
  }

  ghost predicate FirstObjection(s: Shard, requests: seq<Request>, i: nat, why: Refusal)
    requires i < |requests|
  {
    Objects(s, requests, i, why) && forall j: nat :: j < i ==> Passes(s, requests, j)
  }

  ghost predicate EnteredAs(requests: seq<Request>, i: nat, dedup: Ledger)
    requires i < |requests|
  {
    IdAt(requests, i) in dedup && dedup[IdAt(requests, i)].body == requests[i].body
  }

  ghost predicate NumberedAs(known: Ledger, first: nat, requests: seq<Request>, i: nat, dedup: Ledger)
    requires i < |requests|
  {
    !Repeats(known, requests, i) ==>
      Find(dedup, IdAt(requests, i)) ==
      Some(Record(first + CountNew(known, requests, i) + 1, requests[i].key, requests[i].eventId, requests[i].body))
  }

  /** After the first `k` events each is in the ledger with its body, the known ones are as they were, and there is nothing else. */
  ghost predicate Entered(known: Ledger, requests: seq<Request>, k: nat, dedup: Ledger)
    requires k <= |requests|
  {
    && (forall i: nat :: i < k ==> EnteredAs(requests, i, dedup))
    && (forall id :: id in known ==> id in dedup && dedup[id] == known[id])
    && (forall id :: id in dedup && id !in known ==> Earlier(requests, k, id))
  }

  /** The new ones have the numbers after `first`, in order. */
  ghost predicate NumberedInOrder(known: Ledger, first: nat, requests: seq<Request>, k: nat, dedup: Ledger)
    requires k <= |requests|
  {
    forall i: nat :: i < k ==> NumberedAs(known, first, requests, i, dedup)
  }

  ghost predicate After(s: Shard, requests: seq<Request>, k: nat, t: Shard)
    requires k <= |requests|
  {
    && t.finalized == s.finalized && t.nextSequence == s.nextSequence + CountNew(s.dedup, requests, k)
    && Entered(s.dedup, requests, k, t.dedup) && NumberedInOrder(s.dedup, s.nextSequence, requests, k, t.dedup)
  }

  // ---------------------------------------------------------------------------
  // One event

  lemma PlacedLedger(s: Shard, r: Record, build: Name, now: real)
    ensures var t := StartRecord(s, r, build, now); t.dedup == s.dedup && t.nextSequence == s.nextSequence && t.finalized == s.finalized
    ensures var t := Enqueue(s, r); t.dedup == s.dedup && t.nextSequence == s.nextSequence && t.finalized == s.finalized
  {
  }

  lemma AdmitOneAnswers(p: Limits, s: Shard, q: Request, build: Name, now: real)
    requires LedgerOk(s.nextSequence, s.dedup, s.outcomes)
    ensures var id := (q.key, q.eventId); var r := AdmitOne(p, s, q, build, now);
            if id in s.dedup then r == if s.dedup[id].body == q.body then Ok(s) else Err(ContentMismatch)
            else if q.key in s.finalized then r == Err(KeyFinalized)
            else if s.nextSequence + 1 >= 0x100_0000_0000_0000 then r == Err(Exhausted)
            else
              && r.Ok? && r.value.dedup == s.dedup[id := Record(s.nextSequence + 1, q.key, q.eventId, q.body)]
              && r.value.nextSequence == s.nextSequence + 1 && r.value.finalized == s.finalized
  {
    AdmitOneSteps(p, s, q, build, now);
    var r := Numbered(s, q);
    RecordedFrame(s, r, Unstarted(r));
    PlacedLedger(Recorded(s, r, Unstarted(r)), r, build, now);
  }

  /** After the events before it, an event is known exactly if it repeats one, and under another body exactly if it differs. */
  lemma SeenBefore(known: Ledger, requests: seq<Request>, k: nat, dedup: Ledger)
    requires k < |requests| && Entered(known, requests, k, dedup)
    ensures IdAt(requests, k) in dedup <==> Repeats(known, requests, k)
    ensures IdAt(requests, k) in dedup ==> (dedup[IdAt(requests, k)].body != requests[k].body <==> Differs(known, requests, k))
    ensures Differs(known, requests, k) ==> Repeats(known, requests, k)
  {
    var id := IdAt(requests, k);
    if id !in known {
      forall j: nat | j < k && IdAt(requests, j) == id ensures id in dedup && dedup[id].body == requests[j].body {
        assert EnteredAs(requests, j, dedup);
      }
    }
  }

  lemma EarlierStill(requests: seq<Request>, k: nat, next: nat, id: EventKey)
    requires next == k + 1 <= |requests|
    ensures Earlier(requests, next, id) <==> Earlier(requests, k, id) || IdAt(requests, k) == id
  {
  }

  /** A repeated event enters by changing nothing. */
  lemma RepeatEnters(known: Ledger, first: nat, requests: seq<Request>, k: nat, next: nat, dedup: Ledger)
    requires next == k + 1 <= |requests| && Entered(known, requests, k, dedup) && NumberedInOrder(known, first, requests, k, dedup)
    requires Repeats(known, requests, k) && !Differs(known, requests, k)
    ensures Entered(known, requests, next, dedup) && NumberedInOrder(known, first, requests, next, dedup)
  {
    SeenBefore(known, requests, k, dedup);
    assert EnteredAs(requests, k, dedup);
    forall i: nat | i < next ensures EnteredAs(requests, i, dedup) && NumberedAs(known, first, requests, i, dedup) {
      if i < k {
        assert EnteredAs(requests, i, dedup) && NumberedAs(known, first, requests, i, dedup);
      }
    }
    forall id | id in dedup && id !in known ensures Earlier(requests, next, id) {
      EarlierStill(requests, k, next, id);
    }
  }

  /** A new one enters with the next number. */
  lemma NewEnters(known: Ledger, first: nat, requests: seq<Request>, k: nat, next: nat, dedup: Ledger, r: Record)
    requires next == k + 1 <= |requests| && Entered(known, requests, k, dedup) && NumberedInOrder(known, first, requests, k, dedup)
    requires !Repeats(known, requests, k)
    requires r == Record(first + CountNew(known, requests, k) + 1, requests[k].key, requests[k].eventId, requests[k].body)
    ensures Entered(known, requests, next, dedup[IdAt(requests, k) := r])
    ensures NumberedInOrder(known, first, requests, next, dedup[IdAt(requests, k) := r])
  {
    var id := IdAt(requests, k);
    var dedup' := dedup[id := r];
    forall i: nat | i < next ensures EnteredAs(requests, i, dedup') && NumberedAs(known, first, requests, i, dedup') {
      if i < k {
        assert EnteredAs(requests, i, dedup) && NumberedAs(known, first, requests, i, dedup);
        assert IdAt(requests, i) != id;
      }
    }
    forall a | a in dedup' && a !in known ensures Earlier(requests, next, a) {
      EarlierStill(requests, k, next, a);
    }
  }

  // ---------------------------------------------------------------------------
  // The batch

  /** New events are counted once: as many as there are new identities. */
  lemma {:induction false} NewCounted(s: Shard, requests: seq<Request>, k: nat)
    requires k <= |requests|
    ensures |NewEvents(s, requests[..k])| == CountNew(s.dedup, requests, k)
    ensures forall id :: id in Ids(requests[..k]) <==> Earlier(requests, k, id)
    decreases k
  {
    if k == 0 {
      assert NewEvents(s, requests[..0]) == {};
    } else {
      var last := k - 1;
      NewCounted(s, requests, last);
      var some := requests[..k];
      assert some[..|some| - 1] == requests[..last] && some[last] == requests[last];
      NewEventsGrow(s, some);
      forall id ensures id in Ids(some) <==> Earlier(requests, k, id) {
        EarlierStill(requests, last, k, id);
      }
    }
  }

  lemma {:induction false} CountGrows(known: Ledger, requests: seq<Request>, k: nat, m: nat)
    requires k <= m <= |requests|
    ensures CountNew(known, requests, k) <= CountNew(known, requests, m)
    decreases m
  {
    if k < m {
      CountGrows(known, requests, k, m - 1);
    }
  }

  /** The shard has room for all new events of the batch together. */
  ghost predicate Fits(p: Limits, s: Shard, requests: seq<Request>) {
    Total(s) + CountNew(s.dedup, requests, |requests|) <= p.capacity
  }

  lemma FitsFits(p: Limits, s: Shard, requests: seq<Request>, k: nat)
    requires k <= |requests| && Fits(p, s, requests)
    ensures Total(s) + |NewEvents(s, requests[..k])| <= p.capacity
  {
    NewCounted(s, requests, k);
    CountGrows(s.dedup, requests, k, |requests|);
  }

  lemma NextAnswers(p: Limits, s: Shard, requests: seq<Request>, k: nat, next: nat, t: Shard, build: Name, now: real)
    requires next == k + 1 <= |requests| && LedgerOk(t.nextSequence, t.dedup, t.outcomes) && After(s, requests, k, t)
    ensures var r := AdmitOne(p, t, requests[k], build, now);
            if r.Ok? then After(s, requests, next, r.value) && Passes(s, requests, k)
            else Objects(s, requests, k, r.error)
  {
    AdmitOneAnswers(p, t, requests[k], build, now);
    SeenBefore(s.dedup, requests, k, t.dedup);
    if Repeats(s.dedup, requests, k) {
      if !Differs(s.dedup, requests, k) {
        RepeatEnters(s.dedup, s.nextSequence, requests, k, next, t.dedup);
      }
    } else {
      var r := Record(t.nextSequence + 1, requests[k].key, requests[k].eventId, requests[k].body);
      NewEnters(s.dedup, s.nextSequence, requests, k, next, t.dedup, r);
    }
  }

  /** The answer to the first `k` events: all are entered if none of them objects, and otherwise the first that objects is answered. */
  ghost predicate Answered(s: Shard, requests: seq<Request>, k: nat, r: Result<Shard, Refusal>)
    requires k <= |requests|
  {
    match r
    case Ok(t) => After(s, requests, k, t) && forall i: nat :: i < k ==> Passes(s, requests, i)
    case Err(why) => exists i: nat :: i < k && FirstObjection(s, requests, i, why)
  }

  lemma AnsweredOn(s: Shard, requests: seq<Request>, k: nat, next: nat, before: Result<Shard, Refusal>, r: Result<Shard, Refusal>)
    requires next == k + 1 <= |requests| && Answered(s, requests, k, before)
    requires before.Err? ==> r == before
    requires before.Ok? ==> if r.Ok? then After(s, requests, next, r.value) && Passes(s, requests, k) else Objects(s, requests, k, r.error)
    ensures Answered(s, requests, next, r)
  {
    if before.Ok? && r.Err? {
      assert FirstObjection(s, requests, k, r.error);
    }
  }

  lemma {:induction false} PrefixAnswers(p: Limits, s: Shard, requests: seq<Request>, k: nat, build: Name, now: real)
    requires GoodLimits(p) && Inv(p, s) && k <= |requests| && Fits(p, s, requests)
    ensures Answered(s, requests, k, AdmitAll(p, s, requests[..k], build, now))
    decreases k
  {
    if k > 0 {
      var last := k - 1;
      PrefixAnswers(p, s, requests, last, build, now);
      var before := AdmitAll(p, s, requests[..last], build, now);
      if before.Ok? {
        FitsFits(p, s, requests, last);
        AdmitAllKeeps(p, s, requests[..last], build, now);
        NextAnswers(p, s, requests, last, k, before.value, build, now);
      }
      AdmitsInTurn(p, s, requests, last, k, build, now);
      AnsweredOn(s, requests, last, k, before, AdmitAll(p, s, requests[..k], build, now));
    }
  }

  lemma AdmitsInTurn(p: Limits, s: Shard, requests: seq<Request>, k: nat, next: nat, build: Name, now: real)
    requires next == k + 1 <= |requests|
    ensures var before := AdmitAll(p, s, requests[..k], build, now);
            AdmitAll(p, s, requests[..next], build, now) == if before.Err? then before else AdmitOne(p, before.value, requests[k], build, now)
  {
    var some := requests[..next];
    assert some[..|some| - 1] == requests[..k] && some[|some| - 1] == requests[k];
  }

  lemma {:induction false} DispatchLedger(p: Limits, s: Shard, window: seq<nat>, build: Name, now: real)
    ensures var t := DispatchWindow(p, s, window, build, now);
            t.dedup == s.dedup && t.nextSequence == s.nextSequence && t.finalized == s.finalized && t.outcomes == s.outcomes
    decreases |window|
  {
    if window != [] && s.running < p.concurrency {
      var n := window[0];
      if n in s.mailbox && s.mailbox[n].key !in s.activeKeys {
        DispatchLedger(p, StartRecord(Dequeue(s, n), s.mailbox[n], build, now), window[1..], build, now);
      } else {
        DispatchLedger(p, s, window[1..], build, now);
      }
    }
  }

  ghost predicate Keyed(requests: seq<Request>) {
    forall i :: 0 <= i < |requests| ==> requests[i].key != ""
  }

  ghost predicate Marked(text: string) {
    exists c :: c in text && !White(c)
  }

  ghost predicate Named(requests: seq<Request>) {
    forall i :: 0 <= i < |requests| ==> Marked(requests[i].eventId)
  }

  lemma MarkedNotBlank(text: string)
    ensures Marked(text) <==> !Blank(text)
  {
    if !Blank(text) {
      var at :| 0 <= at < |text| && !White(text[at]);
      assert text[at] in text;
    }
  }

  lemma NamedNotBlank(requests: seq<Request>)
    ensures Named(requests) <==> forall i :: 0 <= i < |requests| ==> !Blank(requests[i].eventId)
  {
    forall i | 0 <= i < |requests| ensures Marked(requests[i].eventId) <==> !Blank(requests[i].eventId) {
      MarkedNotBlank(requests[i].eventId);
    }
  }

  lemma AfterToo(s: Shard, requests: seq<Request>, k: nat, t: Shard, u: Shard)
    requires k <= |requests| && After(s, requests, k, t)
    requires u.dedup == t.dedup && u.nextSequence == t.nextSequence && u.finalized == t.finalized
    ensures After(s, requests, k, u)
  {
  }

  /** What a batch is answered: its first trouble, in the order keys, event identifiers, room, and then event by event. */
  ghost predicate Refused(p: Limits, s: Shard, requests: seq<Request>, why: Refusal) {
    if !Keyed(requests) then why == MissingKey
    else if !Named(requests) then why == MissingEventId
    else if !Fits(p, s, requests) then why == Full
    else exists i: nat :: i < |requests| && FirstObjection(s, requests, i, why)
  }

  lemma BatchGuards(p: Limits, s: Shard, requests: seq<Request>, build: Name, now: real)
    ensures var r := Admit(p, s, requests, build, now);
            && (!Keyed(requests) ==> r == Err(MissingKey))
            && (Keyed(requests) && !Named(requests) ==> r == Err(MissingEventId))
            && (Keyed(requests) && Named(requests) && !Fits(p, s, requests) ==> r == Err(Full))
            && (Keyed(requests) && Named(requests) && Fits(p, s, requests) ==>
                  r == match AdmitAll(p, s, requests, build, now)
                       case Err(e) => Err(e)
                       case Ok(t) => Ok(if t.pending > 0 then Dispatch(p, t, build, now) else t))
  {
    assert requests[..|requests|] == requests;
    NamedNotBlank(requests);
    NewCounted(s, requests, |requests|);
  }

  lemma EnteredAnswers(p: Limits, s: Shard, requests: seq<Request>, build: Name, now: real)
    requires GoodLimits(p) && Inv(p, s) && Fits(p, s, requests)
    ensures Answered(s, requests, |requests|, AdmitAll(p, s, requests, build, now))
    ensures var r := AdmitAll(p, s, requests, build, now); r.Ok? ==> After(s, requests, |requests|, Dispatch(p, r.value, build, now))
  {
    assert requests[..|requests|] == requests;
    PrefixAnswers(p, s, requests, |requests|, build, now);
    var r := AdmitAll(p, s, requests, build, now);
    if r.Ok? {
      DispatchLedger(p, r.value, Window(p, r.value), build, now);
      AfterToo(s, requests, |requests|, r.value, Dispatch(p, r.value, build, now));
    }
  }

  /** A batch is refused for its first trouble, and an accepted one has none and entered every event. */
  lemma BatchAnswers(p: Limits, s: Shard, requests: seq<Request>, build: Name, now: real)
    requires GoodLimits(p) && Inv(p, s)
    ensures var r := Admit(p, s, requests, build, now);
            if r.Err? then Refused(p, s, requests, r.error)
            else
              && Keyed(requests) && Named(requests) && Fits(p, s, requests)
              && (forall i: nat :: i < |requests| ==> Passes(s, requests, i))
              && After(s, requests, |requests|, r.value)
  {
    BatchGuards(p, s, requests, build, now);
    if Keyed(requests) && Named(requests) && Fits(p, s, requests) {
      EnteredAnswers(p, s, requests, build, now);
    }
  }

  lemma ObjectsOnce(s: Shard, requests: seq<Request>, i: nat, why: Refusal)
    requires i < |requests| && Objects(s, requests, i, why)
    ensures !Passes(s, requests, i)
    ensures forall other :: Objects(s, requests, i, other) ==> other == why
  {
  }

  lemma OneObjection(s: Shard, requests: seq<Request>, i: nat, j: nat, a: Refusal, b: Refusal)
    requires i < |requests| && j < |requests| && FirstObjection(s, requests, i, a) && FirstObjection(s, requests, j, b)
    ensures a == b
  {
    ObjectsOnce(s, requests, i, a);
    ObjectsOnce(s, requests, j, b);
  }

  /** The answer to a batch, exactly: an error is given if and only if it is the batch's first trouble. */
  lemma RefusedExactlyWhen(p: Limits, s: Shard, requests: seq<Request>, build: Name, now: real, why: Refusal)
    requires GoodLimits(p) && Inv(p, s)
    ensures Admit(p, s, requests, build, now) == Err(why) <==> Refused(p, s, requests, why)
  {
    BatchAnswers(p, s, requests, build, now);
    var r := Admit(p, s, requests, build, now);
    if Refused(p, s, requests, why) && Keyed(requests) && Named(requests) && Fits(p, s, requests) {
      var i: nat :| i < |requests| && FirstObjection(s, requests, i, why);
      ObjectsOnce(s, requests, i, why);
      if r.Err? {
        var j: nat :| j < |requests| && FirstObjection(s, requests, j, r.error);
        OneObjection(s, requests, i, j, why, r.error);
      }
    }
  }

  lemma AfterBatch(s: Shard, requests: seq<Request>, t: Shard, i: nat, id: EventKey)
    requires After(s, requests, |requests|, t) && i < |requests|
    ensures IdAt(requests, i) in t.dedup && t.dedup[IdAt(requests, i)].body == requests[i].body
    ensures !Repeats(s.dedup, requests, i) ==>
              t.dedup[IdAt(requests, i)] ==
              Record(s.nextSequence + CountNew(s.dedup, requests, i) + 1, requests[i].key, requests[i].eventId, requests[i].body)
    ensures id in s.dedup ==> id in t.dedup && t.dedup[id] == s.dedup[id]
    ensures id in t.dedup && id !in s.dedup ==> Earlier(requests, |requests|, id)
    ensures t.nextSequence == s.nextSequence + CountNew(s.dedup, requests, |requests|)
  {
    assert EnteredAs(requests, i, t.dedup) && NumberedAs(s.dedup, s.nextSequence, requests, i, t.dedup);
  }

  /**
   An accepted batch has every event in the ledger under its identity and with its own body, whether new or repeated; the
   new ones have the next numbers in the order of the batch; what was known stays as it was; and nothing else is there.
   */
  lemma AcceptedIsLedgered(p: Limits, s: Shard, requests: seq<Request>, build: Name, now: real, t: Shard, i: nat, id: EventKey)
    requires GoodLimits(p) && Inv(p, s) && Admit(p, s, requests, build, now) == Ok(t) && i < |requests|
    ensures IdAt(requests, i) in t.dedup && t.dedup[IdAt(requests, i)].body == requests[i].body
    ensures !Repeats(s.dedup, requests, i) ==>
              t.dedup[IdAt(requests, i)] ==
              Record(s.nextSequence + CountNew(s.dedup, requests, i) + 1, requests[i].key, requests[i].eventId, requests[i].body)
    ensures id in s.dedup ==> id in t.dedup && t.dedup[id] == s.dedup[id]
    ensures id in t.dedup && id !in s.dedup ==> Earlier(requests, |requests|, id)
    ensures t.nextSequence == s.nextSequence + CountNew(s.dedup, requests, |requests|)
  {
    BatchAnswers(p, s, requests, build, now);
    AfterBatch(s, requests, t, i, id);
  }

  ghost predicate AllKnown(known: Ledger, requests: seq<Request>) {
    forall i: nat :: i < |requests| ==> IdAt(requests, i) in known
  }

  ghost predicate SameBodies(known: Ledger, requests: seq<Request>)
    requires AllKnown(known, requests)
  {
    forall i: nat :: i < |requests| ==> known[IdAt(requests, i)].body == requests[i].body
  }

  lemma {:induction false} NothingNew(known: Ledger, requests: seq<Request>, k: nat)
    requires k <= |requests| && AllKnown(known, requests)
    ensures CountNew(known, requests, k) == 0
  {
    if k > 0 {
      NothingNew(known, requests, k - 1);
      assert IdAt(requests, k - 1) in known;
    }
  }

  lemma NothingAdded(s: Shard, requests: seq<Request>, t: Shard)
    requires After(s, requests, |requests|, t) && AllKnown(s.dedup, requests)
    ensures t.dedup == s.dedup && t.nextSequence == s.nextSequence && SameBodies(s.dedup, requests)
  {
    NothingNew(s.dedup, requests, |requests|);
    forall i: nat | i < |requests| ensures s.dedup[IdAt(requests, i)].body == requests[i].body {
      assert EnteredAs(requests, i, t.dedup);
    }
    assert t.dedup.Keys == s.dedup.Keys;
  }

  /** A batch that only repeats admitted events is accepted exactly if it repeats their bodies, and then numbers and records nothing. */
  lemma RepeatsAcceptedExactlyWhen(p: Limits, s: Shard, requests: seq<Request>, build: Name, now: real)
    requires GoodLimits(p) && Inv(p, s) && Keyed(requests) && Named(requests) && AllKnown(s.dedup, requests)
    ensures var r := Admit(p, s, requests, build, now);
            && (r.Ok? <==> SameBodies(s.dedup, requests))
            && (r.Err? ==> r.error == ContentMismatch)
            && (r.Ok? ==> r.value.dedup == s.dedup && r.value.nextSequence == s.nextSequence)
  {
    NothingNew(s.dedup, requests, |requests|);
    BatchAnswers(p, s, requests, build, now);
    var r := Admit(p, s, requests, build, now);
    if r.Ok? {
      NothingAdded(s, requests, r.value);
    } else {
      var i: nat :| i < |requests| && FirstObjection(s, requests, i, r.error);
      assert IdAt(requests, i) in s.dedup;
    }
  }
}
