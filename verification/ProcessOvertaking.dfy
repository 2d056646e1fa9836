/** Outside the limits that keep order, a run in which an event starts before an older one of its key. */
module ProcessOvertaking {
  import opened Wrappers
  import opened Text
  import opened Sequences
  import opened ProcessShard
  import opened ProcessInvariant
  import opened ProcessFinish
  import opened ProcessSteps
  import opened ProcessGrowth
  import opened ProcessPartition
  import opened ProcessRuns
  import opened ProcessTheorems
  import opened ProcessOrder

  /** Event identifiers told apart by their length. */
  function Tag(n: nat): Name {
    seq(n, _ => 'x')
  }

  const BUILD: Name := "v"

  function Ask(key: Name, n: nat): Request {
    Request(key, Tag(n), "")
  }

  function Event(key: Name, n: nat): Record {
    Record(n, key, Tag(n), "")
  }

  /** Every identifier seen so far is shorter than the next one. */
  ghost predicate Tagged(dedup: Ledger, next: nat) {
    forall id :: id in dedup ==> |id.1| <= next
  }

  // ---------------------------------------------------------------------------
  // Transactions that change little

  lemma {:induction false} DispatchIdle(p: Limits, s: Shard, window: seq<nat>, build: Name, now: real)
    requires s.running >= p.concurrency || forall i :: 0 <= i < |window| && window[i] in s.mailbox ==> s.mailbox[window[i]].key in s.activeKeys
    ensures DispatchWindow(p, s, window, build, now) == s
    decreases |window|
  {
    if window != [] && s.running < p.concurrency {
      assert forall i :: 0 <= i < |window[1..]| ==> window[1..][i] == window[i + 1];
      DispatchIdle(p, s, window[1..], build, now);
    }
  }

  lemma {:induction false} DispatchLeaves(p: Limits, s: Shard, window: seq<nat>, build: Name, now: real, n: nat)
    requires n in s.mailbox && s.mailbox[n].key in s.activeKeys
    ensures var t := DispatchWindow(p, s, window, build, now);
            n in t.mailbox && t.mailbox[n] == s.mailbox[n] && s.starts <= t.starts
    decreases |window|
  {
    if window != [] && s.running < p.concurrency {
      var m := window[0];
      if m in s.mailbox && s.mailbox[m].key !in s.activeKeys {
        DispatchLeaves(p, StartRecord(Dequeue(s, m), s.mailbox[m], build, now), window[1..], build, now, n);
      } else {
        DispatchLeaves(p, s, window[1..], build, now, n);
      }
    }
  }

  lemma {:induction false} FewNewEvents(s: Shard, requests: seq<Request>)
    ensures |NewEvents(s, requests)| <= |requests|
    decreases |requests|
  {
    if requests == [] {
      assert NewEvents(s, requests) == {};
    } else {
      NewEventsGrow(s, requests);
      FewNewEvents(s, requests[..|requests| - 1]);
    }
  }

  lemma TagIsText(n: nat)
    requires n > 0
    ensures !Blank(Tag(n))
  {
    assert Tag(n)[0] == 'x' && !White('x');
  }

  /** A batch of events that are all well formed and fit is admitted one by one, and then dispatched. */
  lemma AdmitUnfolds(p: Limits, s: Shard, requests: seq<Request>, t: Shard)
    requires forall i :: 0 <= i < |requests| ==> requests[i].key != "" && !Blank(requests[i].eventId)
    requires Total(s) + |requests| <= p.capacity && AdmitAll(p, s, requests, BUILD, 0.0) == Ok(t)
    ensures Admit(p, s, requests, BUILD, 0.0) == Ok(if t.pending > 0 then Dispatch(p, t, BUILD, 0.0) else t)
  {
    FewNewEvents(s, requests);
  }

  lemma AdmitLast(p: Limits, s: Shard, front: seq<Request>, q: Request, t: Shard)
    requires AdmitAll(p, s, front, BUILD, 0.0) == Ok(t)
    ensures AdmitAll(p, s, front + [q], BUILD, 0.0) == AdmitOne(p, t, q, BUILD, 0.0)
  {
    var all := front + [q];
    assert all[..|all| - 1] == front && all[|all| - 1] == q;
  }

  /** What a new event becomes: started at once, or put in the mailbox. */
  function Taken(p: Limits, s: Shard, r: Record): Shard {
    if s.running < p.concurrency && r.key !in s.activeKeys then StartRecord(Recorded(s, r, Unstarted(r)), r, BUILD, 0.0)
    else Enqueue(Recorded(s, r, Unstarted(r)), r)
  }

  lemma AdmitNew(p: Limits, s: Shard, key: Name, n: nat)
    requires LedgerOk(s.nextSequence, s.dedup, s.outcomes) && Tagged(s.dedup, s.nextSequence)
    requires key !in s.finalized && n == s.nextSequence + 1 < SEQUENCE_LIMIT
    ensures AdmitOne(p, s, Ask(key, n), BUILD, 0.0) == Ok(Taken(p, s, Event(key, n)))
  {
    assert EntryOk((key, Tag(n)), s.nextSequence, s.dedup, s.outcomes);
    assert Event(key, n) == Numbered(s, Ask(key, n));
  }

  lemma TakenStarts(p: Limits, s: Shard, r: Record)
    requires s.running < p.concurrency && r.key !in s.activeKeys
    ensures var t := Taken(p, s, r);
            && t.nextSequence == r.sequence && t.mailbox == s.mailbox && t.starts == s.starts + [r]
            && t.activeKeys == s.activeKeys + {r.key} && t.running == s.running + 1 && t.pending == s.pending
            && t.dedup == s.dedup[IdOf(r) := r] && t.finalized == s.finalized
            && t.leases == s.leases && t.leased == s.leased && Total(t) == Total(s) + 1
            && t.ready == s.ready[r.sequence := Execution(r, Find(s.states, r.key), BUILD, 0, false, 0.0)]
  {
    RecordedFrame(s, r, Unstarted(r));
    StartFrame(Recorded(s, r, Unstarted(r)), r, BUILD, 0.0);
  }

  lemma TakenWaits(p: Limits, s: Shard, r: Record)
    requires s.running >= p.concurrency || r.key in s.activeKeys
    ensures var t := Taken(p, s, r);
            && t.nextSequence == r.sequence && t.mailbox == s.mailbox[r.sequence := r] && t.starts == s.starts
            && t.activeKeys == s.activeKeys && t.running == s.running && t.pending == s.pending + 1
            && t.dedup == s.dedup[IdOf(r) := r] && t.finalized == s.finalized
            && t.leases == s.leases && t.leased == s.leased && t.ready == s.ready && Total(t) == Total(s) + 1
  {
    RecordedFrame(s, r, Unstarted(r));
    EnqueueFrame(Recorded(s, r, Unstarted(r)), r);
  }

  lemma TaggedNext(dedup: Ledger, next: nat, key: Name, n: nat)
    requires Tagged(dedup, next) && n == next + 1
    ensures Tagged(dedup[IdOf(Event(key, n)) := Event(key, n)], n)
  {
  }

  // ---------------------------------------------------------------------------
  // The overtaking itself

  /** A free slot, and an event of an inactive key that the dispatch did not reach. */
  ghost predicate Exposed(p: Limits, s: Shard, n: nat) {
    && s.running < p.concurrency && Total(s) < p.capacity && s.nextSequence + 1 < SEQUENCE_LIMIT
    && n in s.mailbox && s.mailbox[n].key == "b" && n <= s.nextSequence
    && "b" !in s.activeKeys && "b" !in s.finalized && Tagged(s.dedup, s.nextSequence)
  }

  lemma LateStart(p: Limits, s: Shard, n: nat, r: Record, u: Shard)
    requires Exposed(p, s, n) && r.key == "b" && r.sequence > s.nextSequence
    requires u == Taken(p, s, r) || u == Dispatch(p, Taken(p, s, r), BUILD, 0.0)
    ensures !Fair(u)
  {
    var t := Taken(p, s, r);
    TakenStarts(p, s, r);
    DispatchLeaves(p, t, Window(p, t), BUILD, 0.0, n);
    var i := |s.starts|;
    assert t.starts[i] == r;
    assert u.starts[i] == r;
    assert !NotOvertaken(n, i, u.mailbox, u.starts);
  }

  /** Admitting one more event of that key starts it at once, ahead of the one that waits. */
  lemma Overtakes(p: Limits, s: Shard, n: nat, m: nat)
    requires LedgerOk(s.nextSequence, s.dedup, s.outcomes) && Exposed(p, s, n) && m == s.nextSequence + 1
    ensures Admit(p, s, [Ask("b", m)], BUILD, 0.0).Ok? && !Fair(Admit(p, s, [Ask("b", m)], BUILD, 0.0).value)
  {
    var q := Ask("b", m);
    TagIsText(m);
    assert [] + [q] == [q];
    AdmitLast(p, s, [], q, s);
    AdmitNew(p, s, "b", m);
    var t := Taken(p, s, Event("b", m));
    AdmitUnfolds(p, s, [q], t);
    LateStart(p, s, n, Event("b", m), t);
    LateStart(p, s, n, Event("b", m), Dispatch(p, t, BUILD, 0.0));
  }

  // ---------------------------------------------------------------------------
  // Filling the mailbox

  /** One event of `b`, then `k` events of `a`, numbered from 3. */
  function Burst(k: nat): seq<Request> {
    if k == 0 then [Ask("b", 2)] else Burst(k - 1) + [Ask("a", k + 2)]
  }

  lemma {:induction false} BurstShape(k: nat)
    ensures |Burst(k)| == k + 1
    ensures forall i :: 0 <= i < |Burst(k)| ==> Burst(k)[i].key != "" && !Blank(Burst(k)[i].eventId)
  {
    TagIsText(k + 2);
    if k > 0 { BurstShape(k - 1); }
  }

  /** One granted event of `a`, and nothing else. */
  ghost predicate Alone(s: Shard) {
    && s.nextSequence == 1 && s.running == 1 && "a" in s.activeKeys && "b" !in s.activeKeys && s.finalized == {}
    && Total(s) == 1 && s.pending == 0
    && s.mailbox == map[] && s.ready == map[] && Tagged(s.dedup, 1)
    && "t1" in s.leases && s.leases["t1"] == Lease(1, 1, 1000.0, [1]) && 2 !in s.leased
    && 1 in s.leased && s.leased[1].execution.attempt == 0
  }

  function FirstOf(s: Shard, key: Name, n: nat): Execution {
    Execution(Event(key, n), Find(s.states, key), BUILD, 0, false, 0.0)
  }

  ghost predicate MailAt(n: nat, mailbox: map<nat, Record>, last: nat, b: nat) {
    && (n in mailbox <==> 3 <= n <= last)
    && (n in mailbox ==> mailbox[n].key == if n == b then "b" else "a")
  }

  /** The mailbox holds the events numbered from 3 to `last`, all of `a` but the one numbered `b`. */
  ghost predicate Mail(mailbox: map<nat, Record>, last: nat, b: nat) {
    forall n :: MailAt(n, mailbox, last, b)
  }

  /** `a` and `b` run, and everything up to `last` is admitted. */
  ghost predicate Crowd(before: Shard, s: Shard, last: nat, b: nat) {
    && s.nextSequence == last && s.running == 2 && "a" in s.activeKeys && "b" in s.activeKeys && s.finalized == {} && Total(s) == last && s.pending + 2 == last
    && s.leases == before.leases && s.leased == before.leased && s.ready == map[2 := FirstOf(before, "b", 2)]
    && Tagged(s.dedup, last)
    && Mail(s.mailbox, last, b)
  }

  lemma BurstStarts(p: Limits, s: Shard, t: Shard)
    requires p.concurrency >= 2 && Alone(s) && t == Taken(p, s, Event("b", 2))
    ensures Crowd(s, t, 2, 0)
  {
    TakenStarts(p, s, Event("b", 2));
    TaggedNext(s.dedup, 1, "b", 2);
    forall n ensures MailAt(n, t.mailbox, 2, 0) {
    }
  }

  lemma MailGrows(mailbox: map<nat, Record>, key: Name, last: nat, next: nat, b: nat)
    requires Mail(mailbox, last, 0) && next == last + 1 && next >= 3
    requires (key == "a" && b == 0) || (key == "b" && b == next)
    ensures Mail(mailbox[next := Event(key, next)], next, b)
  {
    var mailbox' := mailbox[next := Event(key, next)];
    forall n ensures MailAt(n, mailbox', next, b) {
      assert MailAt(n, mailbox, last, 0);
    }
  }

  lemma BurstGrows(p: Limits, before: Shard, s: Shard, t: Shard, key: Name, last: nat, next: nat, b: nat)
    requires Crowd(before, s, last, 0) && next == last + 1 && next >= 3 && t == Taken(p, s, Event(key, next))
    requires (key == "a" && b == 0) || (key == "b" && b == next)
    ensures Crowd(before, t, next, b)
  {
    TakenWaits(p, s, Event(key, next));
    TaggedNext(s.dedup, last, key, next);
    MailGrows(s.mailbox, key, last, next, b);
  }

  lemma NextIsTaken(p: Limits, s: Shard, key: Name, n: nat, t: Shard)
    requires GoodLimits(p) && Inv(p, s) && Tagged(s.dedup, s.nextSequence) && s.finalized == {} && n == s.nextSequence + 1 < SEQUENCE_LIMIT
    requires Total(s) < p.capacity && t == Taken(p, s, Event(key, n))
    ensures AdmitOne(p, s, Ask(key, n), BUILD, 0.0) == Ok(t) && Inv(p, t)
  {
    AdmitNew(p, s, key, n);
    AdmitOneKeeps(p, s, Ask(key, n), BUILD, 0.0);
  }

  lemma BurstStep(p: Limits, s: Shard, front: seq<Request>, u: Shard, key: Name, n: nat, t: Shard)
    requires GoodLimits(p) && Inv(p, u) && Tagged(u.dedup, u.nextSequence) && u.finalized == {} && n == u.nextSequence + 1 < SEQUENCE_LIMIT
    requires Total(u) < p.capacity && t == Taken(p, u, Event(key, n))
    requires AdmitAll(p, s, front, BUILD, 0.0) == Ok(u)
    ensures AdmitAll(p, s, front + [Ask(key, n)], BUILD, 0.0) == Ok(t) && Inv(p, t)
  {
    NextIsTaken(p, u, key, n, t);
    AdmitLast(p, s, front, Ask(key, n), u);
  }

  lemma BurstExtends(p: Limits, s: Shard, front: seq<Request>, u: Shard, key: Name, last: nat, next: nat, b: nat, t: Shard)
    requires GoodLimits(p) && Inv(p, u) && Crowd(s, u, last, 0) && last < p.capacity && next == last + 1 < SEQUENCE_LIMIT && next >= 3
    requires (key == "a" && b == 0) || (key == "b" && b == next)
    requires AdmitAll(p, s, front, BUILD, 0.0) == Ok(u) && t == Taken(p, u, Event(key, next))
    ensures AdmitAll(p, s, front + [Ask(key, next)], BUILD, 0.0) == Ok(t) && Inv(p, t) && Crowd(s, t, next, b)
  {
    BurstStep(p, s, front, u, key, next, t);
    BurstGrows(p, s, u, t, key, last, next, b);
  }

  lemma BurstBegins(p: Limits, s: Shard, k: nat, last: nat) returns (t: Shard)
    requires GoodLimits(p) && p.concurrency >= 2 && p.capacity >= 2 && Inv(p, s) && Alone(s) && k == 0 && last == 2
    ensures AdmitAll(p, s, Burst(k), BUILD, 0.0) == Ok(t) && Inv(p, t) && Crowd(s, t, last, 0)
  {
    t := Taken(p, s, Event("b", 2));
    assert [] + [Ask("b", 2)] == Burst(k);
    BurstStep(p, s, [], s, "b", 2, t);
    BurstStarts(p, s, t);
  }

  lemma {:induction false} BurstCrowds(p: Limits, s: Shard, k: nat, last: nat) returns (t: Shard)
    requires GoodLimits(p) && p.concurrency >= 2 && Inv(p, s) && Alone(s) && last == k + 2 <= p.capacity && last < SEQUENCE_LIMIT
    ensures AdmitAll(p, s, Burst(k), BUILD, 0.0) == Ok(t) && Inv(p, t) && Crowd(s, t, last, 0)
    decreases k
  {
    if k == 0 {
      t := BurstBegins(p, s, k, last);
    } else {
      var j: nat, before: nat := k - 1, last - 1;
      var u := BurstCrowds(p, s, j, before);
      t := BurstOneMore(p, s, j, k, before, last, u);
    }
  }

  lemma BurstOneMore(p: Limits, s: Shard, j: nat, k: nat, last: nat, next: nat, u: Shard) returns (t: Shard)
    requires GoodLimits(p) && k == j + 1 && last == j + 2 && next == last + 1 <= p.capacity && next < SEQUENCE_LIMIT
    requires AdmitAll(p, s, Burst(j), BUILD, 0.0) == Ok(u) && Inv(p, u) && Crowd(s, u, last, 0)
    ensures AdmitAll(p, s, Burst(k), BUILD, 0.0) == Ok(t) && Inv(p, t) && Crowd(s, t, next, 0)
  {
    t := Taken(p, u, Event("a", next));
    BurstExtends(p, s, Burst(j), u, "a", last, next, 0, t);
    BurstUnfolds(j, k, next);
  }

  lemma BurstUnfolds(j: nat, k: nat, next: nat)
    requires k == j + 1 && next == k + 2
    ensures Burst(k) == Burst(j) + [Ask("a", next)]
  {
  }

  lemma AllBusy(p: Limits, s: Shard)
    requires forall n :: n in s.mailbox ==> s.mailbox[n].key in s.activeKeys
    ensures Dispatch(p, s, BUILD, 0.0) == s
  {
    DispatchIdle(p, s, Window(p, s), BUILD, 0.0);
  }

  lemma CrowdBusy(p: Limits, before: Shard, s: Shard, last: nat, b: nat)
    requires Crowd(before, s, last, b)
    ensures Dispatch(p, s, BUILD, 0.0) == s
  {
    forall n | n in s.mailbox ensures s.mailbox[n].key in s.activeKeys {
      assert MailAt(n, s.mailbox, last, b);
    }
    AllBusy(p, s);
  }

  /** The whole batch in one admission: `c` events of `a` and, behind them, one of `b`. */
  lemma Crowding(p: Limits, s: Shard, last: nat) returns (t: Shard)
    requires GoodLimits(p) && p.concurrency >= 2 && Inv(p, s) && Alone(s)
    requires last == p.concurrency + 3 <= p.capacity && last + 1 < SEQUENCE_LIMIT
    ensures Admit(p, s, Burst(p.concurrency) + [Ask("b", last)], BUILD, 0.0) == Ok(t)
    ensures Crowd(s, t, last, last)
  {
    var c, before := p.concurrency, last - 1;
    var u := BurstCrowds(p, s, c, before);
    t := Taken(p, u, Event("b", last));
    BurstExtends(p, s, Burst(c), u, "b", before, last, last, t);
    CrowdAdmitted(p, s, Burst(c) + [Ask("b", last)], t, last);
  }

  lemma CrowdAdmitted(p: Limits, s: Shard, requests: seq<Request>, t: Shard, last: nat)
    requires p.concurrency + 3 == last <= p.capacity && requests == Burst(p.concurrency) + [Ask("b", last)] && Total(s) == 1
    requires AdmitAll(p, s, requests, BUILD, 0.0) == Ok(t) && Crowd(s, t, last, last)
    ensures Admit(p, s, requests, BUILD, 0.0) == Ok(t)
  {
    BurstShape(p.concurrency);
    TagIsText(last);
    AdmitUnfolds(p, s, requests, t);
    CrowdBusy(p, s, t, last, last);
  }

  // ---------------------------------------------------------------------------
  // Granting and finishing one execution

  lemma AscendOne(n: nat)
    ensures Ascend({n}) == [n]
  {
    assert Min({n}) == n;
    assert {n} - {n} == {};
    assert Ascend({}) == [];
  }

  lemma SoleCandidate(p: Limits, s: Shard, n: nat, e: Execution)
    requires s.ready == map[n := e] && e.availableAt == 0.0 && e.build == BUILD && e.attempt == 0
    ensures Candidates(s, {BUILD}, 0.0) == [n] && Selected(p, s, {BUILD}, 0.0) == [n]
  {
    AscendOne(n);
    assert s.ready.Keys == {n};
    assert [n][..1] == [n] && [n][..0] == [];
    assert EligibleAmong(s, [n][..0], {BUILD}, 0.0) == [];
    assert EligibleAmong(s, [n], {BUILD}, 0.0) == [n];
    var slots, room := Monus(p.retryConcurrency, s.retryRunning), BatchRoom(p);
    assert [n][1..] == [];
    assert Select(s, [n], slots, room) == [n] + Select(s, [], slots, room - 1);
  }

  /** What a grant of one new execution changes. */
  ghost predicate Handed(s: Shard, t: Shard, token: Name, lease: Lease, n: nat, e: Execution) {
    && t.ready == map[] && t.leased == s.leased[n := Grant(token, e)] && t.leases == s.leases[token := lease]
    && t.mailbox == s.mailbox && t.nextSequence == s.nextSequence && t.activeKeys == s.activeKeys
    && t.running == s.running && t.pending == s.pending && Total(t) == Total(s)
    && t.dedup == s.dedup && t.finalized == s.finalized
  }

  lemma SoleGranted(s: Shard, token: Name, epoch: nat, activation: nat, expires: real, n: nat, e: Execution)
    requires s.ready == map[n := e] && e.attempt == 0
    ensures Grantable(s, [n])
    ensures Handed(s, Granted(s, token, epoch, activation, expires, [n]), token, Lease(epoch, activation, expires, [n]), n, e)
  {
    GrantedOne(s, token, epoch, activation, expires, n);
    assert s.ready - {n} == map[];
    assert [] + [n] == [n];
  }

  lemma GrantedOne(s: Shard, token: Name, epoch: nat, activation: nat, expires: real, n: nat)
    requires n in s.ready
    ensures Grantable(s, [n]) && Granted(s, token, epoch, activation, expires, [n]) == GrantOne(OpenLease(s, token, epoch, activation, expires), token, n)
  {
    var t := OpenLease(s, token, epoch, activation, expires);
    assert [n][1..] == [];
    assert GrantAll(t, token, [n]) == GrantAll(GrantOne(t, token, n), token, []);
  }

  /** The run's owner, after `k` activations. */
  ghost predicate Led(x: Partition, k: nat) {
    x.owner == Some(Owner("r", "n", 1, 1000.0, Active, k))
  }

  function PollOf(token: Name): Step {
    Poll("r", token, {BUILD}, false, 0.0, 1000.0)
  }

  lemma PollStep(p: Limits, x: Partition, token: Name, before: nat, activation: nat, n: nat, e: Execution) returns (y: Partition)
    requires PartitionInv(p, x) && Led(x, before) && activation == before + 1 <= 2 && token !in x.used
    requires x.shard.ready == map[n := e] && e.availableAt == 0.0 && e.build == BUILD && e.attempt == 0
    ensures DoPoll(p, x, PollOf(token)) == Ok(y) && PartitionInv(p, y)
    ensures Led(y, activation) && y.used == x.used + {token}
    ensures Handed(x.shard, y.shard, token, Lease(1, activation, 1000.0, [n]), n, e)
  {
    y := PollHands(p, x, token, before, activation, n, e);
    PollOk(p, x, PollOf(token), y);
  }

  lemma PollHands(p: Limits, x: Partition, token: Name, before: nat, activation: nat, n: nat, e: Execution) returns (y: Partition)
    requires Led(x, before) && activation == before + 1 <= 2 && token !in x.used
    requires x.shard.ready == map[n := e] && e.availableAt == 0.0 && e.build == BUILD && e.attempt == 0
    ensures DoPoll(p, x, PollOf(token)) == Ok(y)
    ensures Led(y, activation) && y.used == x.used + {token}
    ensures Handed(x.shard, y.shard, token, Lease(1, activation, 1000.0, [n]), n, e)
  {
    SoleCandidate(p, x.shard, n, e);
    SoleGranted(x.shard, token, 1, activation, 1000.0, n, e);
    var t := Granted(x.shard, token, 1, activation, 1000.0, [n]);
    y := Polled(x, Bumped(x.owner.value), token, t);
    PolledIs(p, x, token, before, activation, n, y);
  }

  lemma PolledIs(p: Limits, x: Partition, token: Name, before: nat, activation: nat, n: nat, y: Partition)
    requires Led(x, before) && activation == before + 1 <= 2 && token !in x.used
    requires Candidates(x.shard, {BUILD}, 0.0) == [n] && Selected(p, x.shard, {BUILD}, 0.0) == [n] && Grantable(x.shard, [n])
    requires y == Polled(x, Bumped(x.owner.value), token, Granted(x.shard, token, 1, activation, 1000.0, [n]))
    ensures DoPoll(p, x, PollOf(token)) == Ok(y) && Led(y, activation)
  {
  }

  function IngressOf(requests: seq<Request>): Step {
    Ingress("r", [requests], BUILD, 0.0)
  }

  lemma IngressStep(p: Limits, x: Partition, k: nat, requests: seq<Request>, t: Shard) returns (y: Partition)
    requires GoodLimits(p) && PartitionInv(p, x) && Led(x, k) && Admit(p, x.shard, requests, BUILD, 0.0) == Ok(t)
    ensures Do(p, x, IngressOf(requests)) == Ok(y) && PartitionInv(p, y) && Led(y, k) && y.shard == t && y.used == x.used
  {
    y := x.(shard := t);
    assert [requests][1..] == [] && [requests][0] == requests;
    assert AdmitBatches(p, t, [], BUILD, 0.0) == Ok(t);
    assert AdmitBatches(p, x.shard, [requests], BUILD, 0.0) == Ok(t);
    DoOk(p, x, IngressOf(requests), y);
  }

  /** The newest waiting event is beyond the window when the mailbox is longer than it. */
  lemma LastNotReached(p: Limits, s: Shard, last: nat)
    requires |s.mailbox| > p.concurrency && last in s.mailbox && forall n :: n in s.mailbox ==> n <= last
    ensures last !in Window(p, s)
  {
    var w := Window(p, s);
    WindowShape(p, s);
    var reached := set i | 0 <= i < |w| :: w[i];
    FewDistinct(w);
    if last in w {
      forall n | n in s.mailbox ensures n in reached {
        assert n in w;
      }
      Contained(s.mailbox.Keys, reached);
    }
  }

  lemma {:induction false} FewDistinct(w: seq<nat>)
    ensures |set i | 0 <= i < |w| :: w[i]| <= |w|
    decreases |w|
  {
    if w != [] {
      var front := w[..|w| - 1];
      FewDistinct(front);
      var before := set i | 0 <= i < |front| :: front[i];
      assert w == front + [w[|w| - 1]];
      assert (set i | 0 <= i < |w| :: w[i]) == before + {w[|w| - 1]};
    }
  }

  /** All but the newest waiting event belong to `a`, which is active, and the newest is out of reach. */
  lemma NothingStarts(p: Limits, s: Shard, last: nat)
    requires |s.mailbox| > p.concurrency && last in s.mailbox && "a" in s.activeKeys
    requires forall n :: n in s.mailbox ==> n <= last && (n != last ==> s.mailbox[n].key == "a")
    ensures Dispatch(p, s, BUILD, 0.0) == s
  {
    LastNotReached(p, s, last);
    var w := Window(p, s);
    assert forall i :: 0 <= i < |w| ==> w[i] in w;
    DispatchIdle(p, s, w, BUILD, 0.0);
  }

  function CompletionOf(token: Name, activation: nat, item: Item): Step {
    Complete("r", token, 1, activation, [item], BUILD, 0.0)
  }

  lemma SoleFinished(p: Limits, s: Shard, token: Name, n: nat, item: Item, t: Shard, u: Shard)
    requires LeaseStored(s, token) && s.leases[token].members == [n]
    requires FinishOne(p, s, token, item, 0.0) == Ok(t) && u == CloseLease(t, token) && Dispatch(p, u, BUILD, 0.0) == u
    ensures CompleteLease(p, s, token, [item], BUILD, 0.0) == Ok(u)
  {
    FinishKeepsLease(p, s, token, item, 0.0);
    assert [item][1..] == [];
    assert FinishAll(p, s, token, [item], 0.0) == Ok(t);
  }

  lemma CompletedIs(p: Limits, x: Partition, k: nat, token: Name, activation: nat, n: nat, item: Item, u: Shard)
    requires Inv(p, x.shard) && Led(x, k) && token in x.shard.leases && LeaseStored(x.shard, token)
    requires x.shard.leases[token] == Lease(1, activation, 1000.0, [n])
    requires CompleteLease(p, x.shard, token, [item], BUILD, 0.0) == Ok(u)
    ensures DoComplete(p, x, CompletionOf(token, activation, item)) == Ok(x.(shard := u))
  {
  }

  lemma CompleteStep(p: Limits, x: Partition, k: nat, token: Name, activation: nat, n: nat, item: Item, u: Shard) returns (y: Partition)
    requires GoodLimits(p) && PartitionInv(p, x) && Led(x, k) && token in x.shard.leases && LeaseStored(x.shard, token)
    requires x.shard.leases[token] == Lease(1, activation, 1000.0, [n])
    requires CompleteLease(p, x.shard, token, [item], BUILD, 0.0) == Ok(u)
    ensures DoComplete(p, x, CompletionOf(token, activation, item)) == Ok(y)
    ensures PartitionInv(p, y) && Led(y, k) && y.shard == u && y.used == x.used
  {
    y := x.(shard := u);
    CompletedIs(p, x, k, token, activation, n, item, u);
    CompleteOk(p, x, CompletionOf(token, activation, item), y);
  }

  lemma InHandCommits(p: Limits, s: Shard, e: Execution) returns (t: Shard)
    requires InHand(p, s, e) && e.attempt == 0
    ensures Commit(s, e, "", None) == Ok(t)
    ensures t.mailbox == s.mailbox && t.nextSequence == s.nextSequence && t.dedup == s.dedup && t.finalized == s.finalized
    ensures t.activeKeys == s.activeKeys - {e.record.key} && t.running == s.running - 1 && Total(t) == Total(s) - 1
  {
    CommitBooks(p, s, e, "", None);
    MayFinish(s, e, Committed);
    CommitFrame(s, e, "", None);
    t := Commit(s, e, "", None).value;
  }

  lemma InHandFails(p: Limits, s: Shard, e: Execution) returns (t: Shard)
    requires InHand(p, s, e) && e.attempt == 0 && p.maxAttempts >= 2
    ensures RetryOrQuarantine(p, s, e, 0.0) == Ok(t)
    ensures t.mailbox == s.mailbox && t.nextSequence == s.nextSequence && t.dedup == s.dedup && t.finalized == s.finalized
    ensures t.activeKeys == s.activeKeys && t.running == s.running - 1 && Total(t) == Total(s)
  {
    MovedPlaces(s.nextSequence, s.mailbox.Keys, s.ready.Keys, s.leased.Keys, s.quarantine.Keys, Done(s.history), e.record.sequence);
    MayFinish(s, e, Pending);
    RequeueFrame(s, e, 0.0);
    t := Requeue(Release(s, e.isolatedRetry), e, 0.0);
  }

  /** Committing the granted event of `b` frees its key. */
  lemma CommitFrees(p: Limits, s: Shard, token: Name, n: nat, e: Execution) returns (t: Shard)
    requires Inv(p, s) && LeaseStored(s, token) && s.leases[token].members == [n] && n in s.leased && s.leased[n].execution == e && e.attempt == 0
    ensures FinishOne(p, s, token, Success("", None), 0.0) == Ok(t)
    ensures t.mailbox == s.mailbox && t.nextSequence == s.nextSequence && t.dedup == s.dedup && t.finalized == s.finalized
    ensures t.activeKeys == s.activeKeys - {e.record.key} && t.running == s.running - 1 && Total(t) == Total(s) - 1
  {
    TakeKeeps(p, s, token);
    TakeFrame(s, token);
    t := InHandCommits(p, TakeFirst(s, token), e);
  }

  /** Failing a first attempt makes it a retry, which frees the slot but not the key. */
  lemma FailureFreesSlot(p: Limits, s: Shard, token: Name, n: nat, e: Execution) returns (t: Shard)
    requires Inv(p, s) && LeaseStored(s, token) && s.leases[token].members == [n] && n in s.leased && s.leased[n].execution == e
    requires e.attempt == 0 && p.maxAttempts >= 2
    ensures FinishOne(p, s, token, Failure(""), 0.0) == Ok(t)
    ensures t.mailbox == s.mailbox && t.nextSequence == s.nextSequence && t.dedup == s.dedup && t.finalized == s.finalized
    ensures t.activeKeys == s.activeKeys && t.running == s.running - 1 && Total(t) == Total(s)
  {
    TakeKeeps(p, s, token);
    TakeFrame(s, token);
    t := InHandFails(p, TakeFirst(s, token), e);
  }

  // ---------------------------------------------------------------------------
  // The runs

  lemma {:induction false} RunExtends(p: Limits, x: Partition, steps: seq<Step>, step: Step)
    requires GoodLimits(p) && PartitionInv(p, x)
    ensures Run(p, x, steps + [step]) == Next(p, Run(p, x, steps), step)
    decreases |steps|
  {
    if steps == [] {
      assert ([] + [step])[1..] == [] && ([] + [step])[0] == step;
      NextOk(p, x, step);
      assert Run(p, Next(p, x, step), []) == Next(p, x, step);
    } else {
      NextOk(p, x, steps[0]);
      assert (steps + [step])[0] == steps[0] && (steps + [step])[1..] == steps[1..] + [step];
      RunExtends(p, Next(p, x, steps[0]), steps[1..], step);
    }
  }

  /** `y` is where `steps` lead from `x`. */
  ghost predicate Leads(p: Limits, x: Partition, steps: seq<Step>, y: Partition) {
    GoodLimits(p) && PartitionInv(p, x) && PartitionInv(p, y) && Run(p, x, steps) == y
  }

  lemma LeadsOn(p: Limits, x0: Partition, steps: seq<Step>, x: Partition, step: Step, y: Partition) returns (more: seq<Step>)
    requires Leads(p, x0, steps, x) && Do(p, x, step) == Ok(y)
    ensures Leads(p, x0, more, y)
  {
    more := steps + [step];
    RunExtends(p, x0, steps, step);
    NextOk(p, x, step);
  }

  lemma LeadsPoll(p: Limits, x0: Partition, steps: seq<Step>, x: Partition, step: Step, y: Partition) returns (more: seq<Step>)
    requires Leads(p, x0, steps, x) && step.Poll? && DoPoll(p, x, step) == Ok(y)
    ensures Leads(p, x0, more, y)
  {
    more := LeadsOn(p, x0, steps, x, step, y);
  }

  lemma LeadsComplete(p: Limits, x0: Partition, steps: seq<Step>, x: Partition, step: Step, y: Partition) returns (more: seq<Step>)
    requires Leads(p, x0, steps, x) && step.Complete? && DoComplete(p, x, step) == Ok(y)
    ensures Leads(p, x0, more, y)
  {
    more := LeadsOn(p, x0, steps, x, step, y);
  }

  /** Nothing was ever admitted. */
  ghost predicate Untouched(s: Shard) {
    && s.nextSequence == 0 && s.running == 0 && s.activeKeys == {} && s.finalized == {} && Total(s) == 0 && s.pending == 0
    && s.mailbox == map[] && s.ready == map[] && s.leases == map[] && s.leased == map[] && s.dedup == map[] && s.starts == []
  }

  lemma Acquired(p: Limits, x: Partition) returns (y: Partition)
    requires GoodLimits(p) && PartitionInv(p, x) && x.owner.None? && x.used == {} && Untouched(x.shard)
    ensures Do(p, x, Acquire("r", "n", 0.0, 1000.0)) == Ok(y)
    ensures PartitionInv(p, y) && Led(y, 0) && y.used == {} && Untouched(y.shard)
  {
    y := x.(owner := AcquireOwner(x.owner, "r", "n", 0.0, 1000.0));
    DoOk(p, x, Acquire("r", "n", 0.0, 1000.0), y);
  }

  lemma FirstTaken(p: Limits, s: Shard) returns (t: Shard)
    requires GoodLimits(p) && Inv(p, s) && Untouched(s)
    ensures AdmitAll(p, s, [Ask("a", 1)], BUILD, 0.0) == Ok(t)
    ensures Inv(p, t) && t.nextSequence == 1 && t.running == 1 && "a" in t.activeKeys && "b" !in t.activeKeys && t.finalized == {}
    ensures Total(t) == 1 && t.pending == 0 && t.mailbox == map[] && t.leased == map[] && t.leases == map[] && Tagged(t.dedup, 1)
    ensures t.ready == map[1 := FirstOf(s, "a", 1)] && Total(s) == 0
  {
    t := Taken(p, s, Event("a", 1));
    assert [] + [Ask("a", 1)] == [Ask("a", 1)];
    assert Tagged(s.dedup, 0);
    BurstStep(p, s, [], s, "a", 1, t);
    TakenStarts(p, s, Event("a", 1));
    TaggedNext(s.dedup, 0, "a", 1);
  }

  /** The first event starts at once. */
  lemma FirstEvent(p: Limits, s: Shard) returns (t: Shard)
    requires GoodLimits(p) && Inv(p, s) && Untouched(s)
    ensures Admit(p, s, [Ask("a", 1)], BUILD, 0.0) == Ok(t)
    ensures Inv(p, t) && t.nextSequence == 1 && t.running == 1 && "a" in t.activeKeys && "b" !in t.activeKeys && t.finalized == {}
    ensures Total(t) == 1 && t.pending == 0 && t.mailbox == map[] && t.leased == map[] && t.leases == map[] && Tagged(t.dedup, 1)
    ensures t.ready == map[1 := FirstOf(s, "a", 1)]
  {
    t := FirstTaken(p, s);
    TagIsText(1);
    AdmitUnfolds(p, s, [Ask("a", 1)], t);
  }

  lemma HandedAlone(s: Shard, t: Shard, e: Execution)
    requires s.nextSequence == 1 && s.running == 1 && "a" in s.activeKeys && "b" !in s.activeKeys && s.finalized == {}
    requires Total(s) == 1 && s.pending == 0 && s.mailbox == map[] && s.leased == map[] && Tagged(s.dedup, 1) && e.attempt == 0
    requires Handed(s, t, "t1", Lease(1, 1, 1000.0, [1]), 1, e)
    ensures Alone(t)
  {
  }

  /** A partition that nobody has used. */
  ghost predicate Unused(p: Limits, x: Partition) {
    GoodLimits(p) && PartitionInv(p, x) && x.owner.None? && x.used == {} && Untouched(x.shard)
  }

  lemma Opened(p: Limits, x0: Partition) returns (steps: seq<Step>, x: Partition)
    requires Unused(p, x0)
    ensures Leads(p, x0, steps, x) && Led(x, 0) && x.used == {} && Untouched(x.shard)
  {
    x := Acquired(p, x0);
    assert Leads(p, x0, [], x0);
    steps := LeadsOn(p, x0, [], x0, Acquire("r", "n", 0.0, 1000.0), x);
  }

  /** A run after which one event of `a` is ready. */
  lemma Readied(p: Limits, x0: Partition) returns (steps: seq<Step>, x: Partition, e: Execution)
    requires Unused(p, x0)
    ensures Leads(p, x0, steps, x) && Led(x, 0) && x.used == {}
    ensures e.attempt == 0 && e.availableAt == 0.0 && e.build == BUILD && x.shard.ready == map[1 := e]
    ensures var s := x.shard;
            && s.nextSequence == 1 && s.running == 1 && "a" in s.activeKeys && "b" !in s.activeKeys && s.finalized == {}
            && Total(s) == 1 && s.pending == 0 && s.mailbox == map[] && s.leased == map[] && Tagged(s.dedup, 1)
  {
    var before, w := Opened(p, x0);
    var t := FirstEvent(p, w.shard);
    x := IngressStep(p, w, 0, [Ask("a", 1)], t);
    steps := LeadsOn(p, x0, before, w, IngressOf([Ask("a", 1)]), x);
    e := FirstOf(w.shard, "a", 1);
  }

  /** A run after which one event of `a` is granted. */
  lemma Started(p: Limits, x0: Partition) returns (steps: seq<Step>, x: Partition)
    requires Unused(p, x0)
    ensures Leads(p, x0, steps, x) && Led(x, 1) && x.used == {"t1"} && Alone(x.shard)
  {
    var before, w, e := Readied(p, x0);
    x := PollStep(p, w, "t1", 0, 1, 1, e);
    steps := LeadsPoll(p, x0, before, w, PollOf("t1"), x);
    HandedAlone(w.shard, x.shard, e);
  }

  /** `a` and `b` each hold a lease, and `b` waits behind as many events of `a` as a dispatch looks at. */
  ghost predicate Poised(p: Limits, s: Shard, last: nat, e: Execution) {
    && last == p.concurrency + 3
    && s.nextSequence == last && s.running == 2 && "a" in s.activeKeys && s.finalized == {} && Total(s) == last && s.pending + 2 == last
    && Tagged(s.dedup, last) && Mail(s.mailbox, last, last)
    && "t2" in s.leases && s.leases["t2"] == Lease(1, 2, 1000.0, [2])
    && 2 in s.leased && s.leased[2] == Grant("t2", e) && e.attempt == 0 && e.record.key == "b"
  }

  lemma CrowdPoised(p: Limits, before: Shard, s: Shard, t: Shard, last: nat, e: Execution)
    requires last == p.concurrency + 3 && Crowd(before, s, last, last) && e == FirstOf(before, "b", 2)
    requires Handed(s, t, "t2", Lease(1, 2, 1000.0, [2]), 2, e)
    ensures Poised(p, t, last, e)
  {
  }

  lemma Crammed(p: Limits, x0: Partition, last: nat) returns (steps: seq<Step>, w: Shard, x: Partition)
    requires Unused(p, x0) && p.concurrency >= 2 && last == p.concurrency + 3 <= p.capacity && last + 1 < SEQUENCE_LIMIT
    ensures Leads(p, x0, steps, x) && Led(x, 1) && x.used == {"t1"} && Crowd(w, x.shard, last, last)
  {
    var before, v := Started(p, x0);
    w := v.shard;
    var t := Crowding(p, w, last);
    var requests := Burst(p.concurrency) + [Ask("b", last)];
    x := IngressStep(p, v, 1, requests, t);
    steps := LeadsOn(p, x0, before, v, IngressOf(requests), x);
  }

  lemma Crowded(p: Limits, x0: Partition, last: nat) returns (steps: seq<Step>, x: Partition, e: Execution)
    requires Unused(p, x0) && p.concurrency >= 2 && last == p.concurrency + 3 <= p.capacity && last + 1 < SEQUENCE_LIMIT
    ensures Leads(p, x0, steps, x) && Led(x, 2) && Poised(p, x.shard, last, e)
  {
    var before, w, v := Crammed(p, x0, last);
    e := FirstOf(w, "b", 2);
    x := PollStep(p, v, "t2", 1, 2, 2, e);
    steps := LeadsPoll(p, x0, before, v, PollOf("t2"), x);
    CrowdPoised(p, w, v.shard, x.shard, last, e);
  }

  lemma PoisedCommits(p: Limits, s: Shard, last: nat, e: Execution) returns (t: Shard)
    requires Inv(p, s) && Poised(p, s, last, e)
    ensures LeaseStored(s, "t2") && FinishOne(p, s, "t2", Success("", None), 0.0) == Ok(t)
    ensures t.mailbox == s.mailbox && t.nextSequence == s.nextSequence && t.dedup == s.dedup && t.finalized == s.finalized
    ensures t.activeKeys == s.activeKeys - {"b"} && t.running == s.running - 1 && Total(t) == Total(s) - 1
  {
    LeaseIsStored(p, s, "t2");
    t := CommitFrees(p, s, "t2", 2, e);
  }

  lemma ClosedFrame(t: Shard, token: Name) returns (u: Shard)
    ensures u == CloseLease(t, token)
    ensures u.mailbox == t.mailbox && u.nextSequence == t.nextSequence && u.dedup == t.dedup && u.finalized == t.finalized
    ensures u.activeKeys == t.activeKeys && u.running == t.running && Total(u) == Total(t)
  {
    u := CloseLease(t, token);
  }

  lemma PoisedExposes(p: Limits, s: Shard, last: nat, e: Execution) returns (u: Shard)
    requires Inv(p, s) && Poised(p, s, last, e) && p.concurrency >= 2 && last <= p.capacity && last + 1 < SEQUENCE_LIMIT
    ensures LeaseStored(s, "t2") && CompleteLease(p, s, "t2", [Success("", None)], BUILD, 0.0) == Ok(u)
    ensures Exposed(p, u, last)
  {
    var t := PoisedCommits(p, s, last, e);
    u := ClosedFrame(t, "t2");
    PoisedIdle(p, s, u, last, e);
    SoleFinished(p, s, "t2", 2, Success("", None), t, u);
    CommitExposes(p, s, u, last, e);
  }

  lemma CommitExposes(p: Limits, s: Shard, u: Shard, last: nat, e: Execution)
    requires Poised(p, s, last, e) && p.concurrency >= 2 && last <= p.capacity && last + 1 < SEQUENCE_LIMIT
    requires u.mailbox == s.mailbox && u.nextSequence == s.nextSequence && u.dedup == s.dedup && u.finalized == s.finalized
    requires u.activeKeys == s.activeKeys - {"b"} && u.running == s.running - 1 && Total(u) == Total(s) - 1
    requires last in u.mailbox && u.mailbox[last].key == "b"
    ensures Exposed(p, u, last)
  {
  }

  lemma PoisedIdle(p: Limits, s: Shard, u: Shard, last: nat, e: Execution)
    requires Inv(p, s) && Poised(p, s, last, e) && u.mailbox == s.mailbox && u.activeKeys == s.activeKeys - {"b"}
    ensures Dispatch(p, u, BUILD, 0.0) == u && last in u.mailbox && u.mailbox[last].key == "b"
  {
    CrowdIdle(p, s, u, last);
  }

  lemma CrowdIdle(p: Limits, s: Shard, u: Shard, last: nat)
    requires Inv(p, s) && s.pending > p.concurrency && Mail(s.mailbox, last, last) && last >= 3
    requires u.mailbox == s.mailbox && "a" in u.activeKeys
    ensures Dispatch(p, u, BUILD, 0.0) == u
    ensures last in u.mailbox && u.mailbox[last].key == "b"
  {
    assert MailAt(last, s.mailbox, last, last);
    forall n | n in u.mailbox ensures n <= last && (n != last ==> u.mailbox[n].key == "a") {
      assert MailAt(n, s.mailbox, last, last);
    }
    NothingStarts(p, u, last);
  }

  /** With several slots. */
  lemma ManySlots(p: Limits, x0: Partition) returns (steps: seq<Step>, x: Partition, n: nat)
    requires Unused(p, x0) && p.concurrency >= 2 && p.concurrency + 3 <= p.capacity && p.concurrency + 4 < SEQUENCE_LIMIT
    ensures Leads(p, x0, steps, x) && Led(x, 2) && Exposed(p, x.shard, n)
  {
    n := p.concurrency + 3;
    var before, w, e := Crowded(p, x0, n);
    var u := PoisedExposes(p, w.shard, n, e);
    x := CompleteStep(p, w, 2, "t2", 2, 2, Success("", None), u);
    steps := LeadsComplete(p, x0, before, w, CompletionOf("t2", 2, Success("", None)), x);
  }

  // With one slot

  /** `a` is granted, and one more event of `a` and one of `b` wait. */
  ghost predicate Queued(s: Shard) {
    && s.nextSequence == 3 && s.running == 1 && "a" in s.activeKeys && "b" !in s.activeKeys && s.finalized == {} && Total(s) == 3 && s.pending == 2
    && Tagged(s.dedup, 3) && s.mailbox == map[2 := Event("a", 2), 3 := Event("b", 3)]
    && "t1" in s.leases && s.leases["t1"] == Lease(1, 1, 1000.0, [1])
    && 1 in s.leased && s.leased[1].execution.attempt == 0
  }

  lemma Queueing(p: Limits, s: Shard) returns (t: Shard)
    requires GoodLimits(p) && p.concurrency == 1 && p.capacity >= 3 && Inv(p, s) && Alone(s)
    ensures Admit(p, s, [Ask("a", 2), Ask("b", 3)], BUILD, 0.0) == Ok(t) && Queued(t)
  {
    var u := Taken(p, s, Event("a", 2));
    assert [] + [Ask("a", 2)] == [Ask("a", 2)];
    BurstStep(p, s, [], s, "a", 2, u);
    TakenWaits(p, s, Event("a", 2));
    TaggedNext(s.dedup, 1, "a", 2);
    t := QueueMore(p, s, u);
  }

  lemma QueueMore(p: Limits, s: Shard, u: Shard) returns (t: Shard)
    requires GoodLimits(p) && p.concurrency == 1 && p.capacity >= 3 && Total(s) == 1
    requires AdmitAll(p, s, [Ask("a", 2)], BUILD, 0.0) == Ok(u) && Inv(p, u)
    requires u.nextSequence == 2 && u.running == 1 && "a" in u.activeKeys && "b" !in u.activeKeys && u.finalized == {} && Total(u) == 2 && u.pending == 1
    requires Tagged(u.dedup, 2) && u.mailbox == map[2 := Event("a", 2)]
    requires "t1" in u.leases && u.leases["t1"] == Lease(1, 1, 1000.0, [1])
    requires 1 in u.leased && u.leased[1].execution.attempt == 0
    ensures Admit(p, s, [Ask("a", 2), Ask("b", 3)], BUILD, 0.0) == Ok(t) && Queued(t)
  {
    t := Taken(p, u, Event("b", 3));
    assert [Ask("a", 2)] + [Ask("b", 3)] == [Ask("a", 2), Ask("b", 3)];
    BurstStep(p, s, [Ask("a", 2)], u, "b", 3, t);
    TakenWaits(p, u, Event("b", 3));
    TaggedNext(u.dedup, 2, "b", 3);
    QueueAdmitted(p, s, t);
  }

  lemma QueueAdmitted(p: Limits, s: Shard, t: Shard)
    requires p.concurrency == 1 && p.capacity >= 3 && Total(s) == 1 && t.running == 1
    requires AdmitAll(p, s, [Ask("a", 2), Ask("b", 3)], BUILD, 0.0) == Ok(t)
    ensures Admit(p, s, [Ask("a", 2), Ask("b", 3)], BUILD, 0.0) == Ok(t)
  {
    TagIsText(2);
    TagIsText(3);
    AdmitUnfolds(p, s, [Ask("a", 2), Ask("b", 3)], t);
    DispatchIdle(p, t, Window(p, t), BUILD, 0.0);
  }

  lemma QueuedFails(p: Limits, s: Shard) returns (t: Shard)
    requires Inv(p, s) && Queued(s) && p.maxAttempts >= 2
    ensures LeaseStored(s, "t1") && FinishOne(p, s, "t1", Failure(""), 0.0) == Ok(t)
    ensures t.mailbox == s.mailbox && t.nextSequence == s.nextSequence && t.dedup == s.dedup && t.finalized == s.finalized
    ensures t.activeKeys == s.activeKeys && t.running == s.running - 1 && Total(t) == Total(s)
  {
    LeaseIsStored(p, s, "t1");
    t := FailureFreesSlot(p, s, "t1", 1, s.leased[1].execution);
  }

  lemma QueuedExposes(p: Limits, s: Shard) returns (u: Shard)
    requires Inv(p, s) && Queued(s) && p.concurrency == 1 && p.maxAttempts >= 2 && p.capacity >= 4
    ensures LeaseStored(s, "t1") && CompleteLease(p, s, "t1", [Failure("")], BUILD, 0.0) == Ok(u)
    ensures Exposed(p, u, 3)
  {
    var t := QueuedFails(p, s);
    u := ClosedFrame(t, "t1");
    QueuedIdle(p, s, u);
    SoleFinished(p, s, "t1", 1, Failure(""), t, u);
    FailureExposes(p, s, u);
  }

  lemma QueuedIdle(p: Limits, s: Shard, u: Shard)
    requires Queued(s) && p.concurrency == 1 && u.mailbox == s.mailbox && u.activeKeys == s.activeKeys
    ensures Dispatch(p, u, BUILD, 0.0) == u
  {
    assert u.mailbox.Keys == {2, 3};
    NothingStarts(p, u, 3);
  }

  lemma FailureExposes(p: Limits, s: Shard, u: Shard)
    requires Queued(s) && p.concurrency == 1 && p.capacity >= 4
    requires u.mailbox == s.mailbox && u.nextSequence == s.nextSequence && u.dedup == s.dedup && u.finalized == s.finalized
    requires u.activeKeys == s.activeKeys && u.running == s.running - 1 && Total(u) == Total(s)
    ensures Exposed(p, u, 3)
  {
  }

  lemma OneSlot(p: Limits, x0: Partition) returns (steps: seq<Step>, x: Partition, n: nat)
    requires Unused(p, x0) && p.concurrency == 1 && p.maxAttempts >= 2 && p.capacity >= 4
    ensures Leads(p, x0, steps, x) && Led(x, 1) && Exposed(p, x.shard, n)
  {
    n := 3;
    var before, w := Started(p, x0);
    var t := Queueing(p, w.shard);
    var v := IngressStep(p, w, 1, [Ask("a", 2), Ask("b", 3)], t);
    var next := LeadsOn(p, x0, before, w, IngressOf([Ask("a", 2), Ask("b", 3)]), v);
    var u := QueuedExposes(p, v.shard);
    x := CompleteStep(p, v, 1, "t1", 1, 1, Failure(""), u);
    steps := LeadsComplete(p, x0, next, v, CompletionOf("t1", 1, Failure("")), x);
  }

  lemma ExposedOvertakes(p: Limits, x0: Partition, steps: seq<Step>, x: Partition, k: nat, n: nat) returns (more: seq<Step>, y: Partition)
    requires Leads(p, x0, steps, x) && Led(x, k) && Exposed(p, x.shard, n)
    ensures Leads(p, x0, more, y) && !Fair(y.shard)
  {
    var m := x.shard.nextSequence + 1;
    Overtakes(p, x.shard, n, m);
    var t := Admit(p, x.shard, [Ask("b", m)], BUILD, 0.0).value;
    y := IngressStep(p, x, k, [Ask("b", m)], t);
    more := LeadsOn(p, x0, steps, x, IngressOf([Ask("b", m)]), y);
  }

  lemma OvertakingRun(p: Limits, x0: Partition) returns (steps: seq<Step>)
    requires Unused(p, x0) && !Orderly(p) && p.concurrency + 4 < SEQUENCE_LIMIT
    ensures !Fair(Run(p, x0, steps).shard)
  {
    if p.concurrency >= 2 {
      var before, x, n := ManySlots(p, x0);
      var more, y := ExposedOvertakes(p, x0, before, x, 2, n);
      steps := more;
    } else {
      var before, x, n := OneSlot(p, x0);
      var more, y := ExposedOvertakes(p, x0, before, x, 1, n);
      steps := more;
    }
  }

  lemma NothingUsed()
    ensures UNASSIGNED.owner.None? && UNASSIGNED.used == {} && Untouched(UNASSIGNED.shard)
  {
  }

  lemma UnassignedUnused(p: Limits)
    requires GoodLimits(p)
    ensures Unused(p, UNASSIGNED)
  {
    UnassignedHolds(p);
    NothingUsed();
  }

  /** Every run keeps every key's events in order. */
  ghost predicate AlwaysFair(p: Limits, x: Partition)
    requires GoodLimits(p) && PartitionInv(p, x)
  {
    forall steps :: Fair(Run(p, x, steps).shard)
  }

  /**
   Direct ingress keeps each key's events in order in every run exactly when a shard may hold at most two events more than it
   runs at once, or runs one at a time without retries. The configured concurrency is a 32-bit number.
   */
  lemma OrderedExactlyWhen(p: Limits, x: Partition)
    requires Unused(p, x) && p.concurrency <= 0xFFFF_FFFF
    ensures AlwaysFair(p, x) <==> Orderly(p)
  {
    if Orderly(p) {
      NothingStarted(p, x.shard);
      forall steps ensures Fair(Run(p, x, steps).shard) {
        RunInOrder(p, x, steps);
      }
    } else {
      var steps := OvertakingRun(p, x);
      assert !Fair(Run(p, x, steps).shard);
    }
  }
}
