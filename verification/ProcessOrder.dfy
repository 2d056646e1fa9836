/** The order in which one key's events start on direct ingress, and the limits under which it is their admission order. */
module ProcessOrder {
  import opened Wrappers
  import opened Sequences
  import opened ProcessShard
  import opened ProcessInvariant
  import opened ProcessFinish
  import opened ProcessSteps
  import opened ProcessPartition
  import opened ProcessRuns
  import opened ProcessTheorems
  import Keys

  ghost predicate StartsRise(i: nat, j: nat, starts: seq<Record>) {
    i < j < |starts| && starts[i].key == starts[j].key ==> starts[i].sequence < starts[j].sequence
  }

  ghost predicate NotOvertaken(n: nat, i: nat, mailbox: map<nat, Record>, starts: seq<Record>) {
    n in mailbox && i < |starts| && starts[i].key == mailbox[n].key ==> starts[i].sequence < n
  }

  ghost predicate StartKnown(i: nat, starts: seq<Record>, next: nat) {
    i < |starts| ==> starts[i].sequence <= next
  }

  /** Events of a key start in admission order, and no started event is newer than one of its key still waiting. */
  ghost predicate InOrder(starts: seq<Record>, mailbox: map<nat, Record>) {
    && (forall i: nat, j: nat :: StartsRise(i, j, starts))
    && (forall n: nat, i: nat :: NotOvertaken(n, i, mailbox, starts))
  }

  ghost predicate StartsNumbered(starts: seq<Record>, next: nat) {
    forall i: nat :: StartKnown(i, starts, next)
  }

  /** The limits under which no event can ever overtake an older one of its key. */
  predicate Orderly(p: Limits) {
    p.capacity <= p.concurrency + 2 || (p.concurrency == 1 && p.maxAttempts == 1)
  }

  ghost predicate Waits(n: nat, mailbox: map<nat, Record>, active: set<Name>) {
    n in mailbox ==> mailbox[n].key in active
  }

  /** Nothing in the mailbox could start now. */
  ghost predicate AllWait(p: Limits, running: nat, mailbox: map<nat, Record>, active: set<Name>) {
    running >= p.concurrency || forall n: nat :: Waits(n, mailbox, active)
  }

  /** Nothing could start, or, with a single slot, nothing can be admitted either. */
  ghost predicate Settled(p: Limits, s: Shard) {
    AllWait(p, s.running, s.mailbox, s.activeKeys) || (p.concurrency == 1 && Total(s) >= p.capacity)
  }

  // ---------------------------------------------------------------------------
  // The dispatch window

  lemma WindowShape(p: Limits, s: Shard)
    ensures var w := Window(p, s);
            && Increasing(w) && |w| == Min2(p.concurrency, |s.mailbox|)
            && (forall n :: n in w ==> n in s.mailbox)
            && (forall n, m :: n in s.mailbox && n !in w && m in w ==> m < n)
  {
    var all := Ascend(s.mailbox.Keys);
    AscendIncreases(s.mailbox.Keys);
    var w := Window(p, s);
    forall n, m | n in s.mailbox && n !in w && m in w ensures m < n {
      assert n in all;
      var i :| 0 <= i < |all| && all[i] == n;
      var j :| 0 <= j < |w| && w[j] == m;
      assert all[j] == m;
      assert forall k :: 0 <= k < |w| ==> all[k] == w[k] && all[k] in w;
    }
    forall n | n in w ensures n in s.mailbox {
      assert n in all;
    }
  }

  /** The rest of a window: everything older that is still waiting has an active key, and everything else is newer. */
  ghost predicate WindowRest(window: seq<nat>, mailbox: map<nat, Record>, active: set<Name>) {
    && Increasing(window)
    && (forall i :: 0 <= i < |window| ==> window[i] in mailbox)
    && (forall n :: n in mailbox && n !in window && window != [] && n < window[0] ==> mailbox[n].key in active)
    && (forall n, i :: n in mailbox && n !in window && 0 <= i < |window| && window[0] < n ==> window[i] < n)
  }

  lemma RestSkips(window: seq<nat>, mailbox: map<nat, Record>, active: set<Name>)
    requires WindowRest(window, mailbox, active) && window != [] && mailbox[window[0]].key in active
    ensures WindowRest(window[1..], mailbox, active)
  {
    var rest := window[1..];
    assert window == [window[0]] + rest;
    forall n | n in mailbox && n !in rest && rest != [] && n < rest[0] ensures mailbox[n].key in active {
      if n != window[0] {
        assert n !in window;
        assert rest[0] == window[1];
      }
    }
    forall n, i | n in mailbox && n !in rest && 0 <= i < |rest| && rest[0] < n ensures rest[i] < n {
      assert n !in window;
      assert rest[i] == window[i + 1];
    }
  }

  lemma RestStarts(window: seq<nat>, mailbox: map<nat, Record>, active: set<Name>)
    requires WindowRest(window, mailbox, active) && window != []
    ensures WindowRest(window[1..], mailbox - {window[0]}, active + {mailbox[window[0]].key})
  {
    var rest := window[1..];
    var mailbox' := mailbox - {window[0]};
    assert window == [window[0]] + rest;
    forall i | 0 <= i < |rest| ensures rest[i] in mailbox' {
      assert rest[i] == window[i + 1];
    }
    forall n | n in mailbox' && n !in rest && rest != [] && n < rest[0] ensures mailbox'[n].key in active {
      assert n !in window;
      assert rest[0] == window[1];
    }
    forall n, i | n in mailbox' && n !in rest && 0 <= i < |rest| && rest[0] < n ensures rest[i] < n {
      assert n !in window;
      assert rest[i] == window[i + 1];
    }
  }

  /** A dispatch takes, of each key, the oldest waiting event. */
  lemma OldestOfItsKey(window: seq<nat>, mailbox: map<nat, Record>, active: set<Name>, n: nat)
    requires WindowRest(window, mailbox, active) && window != [] && mailbox[window[0]].key !in active
    requires n in mailbox && n != window[0] && mailbox[n].key == mailbox[window[0]].key
    ensures window[0] < n
  {
    if n in window {
      var i :| 0 <= i < |window| && window[i] == n;
    }
  }

  lemma StartInOrder(starts: seq<Record>, mailbox: map<nat, Record>, n: nat)
    requires InOrder(starts, mailbox) && n in mailbox && mailbox[n].sequence == n
    requires forall m :: m in mailbox && m != n && mailbox[m].key == mailbox[n].key ==> n < m
    ensures InOrder(starts + [mailbox[n]], mailbox - {n})
  {
    var starts', mailbox' := starts + [mailbox[n]], mailbox - {n};
    forall i: nat, j: nat ensures StartsRise(i, j, starts') {
      assert StartsRise(i, j, starts) && NotOvertaken(n, i, mailbox, starts);
    }
    forall m: nat, i: nat ensures NotOvertaken(m, i, mailbox', starts') {
      assert NotOvertaken(m, i, mailbox, starts);
    }
  }

  lemma MailNumber(p: Limits, s: Shard, n: nat)
    requires Inv(p, s) && n in s.mailbox
    ensures s.mailbox[n].sequence == n <= s.nextSequence
  {
    assert MailItemOk(n, s.mailbox, s.dedup, s.outcomes);
    assert PlaceOk(n, s.nextSequence, s.mailbox.Keys, s.ready.Keys, s.leased.Keys, s.quarantine.Keys, Done(s.history));
  }

  lemma StartNumbered(starts: seq<Record>, r: Record, next: nat)
    requires StartsNumbered(starts, next) && r.sequence <= next
    ensures StartsNumbered(starts + [r], next)
  {
    var starts' := starts + [r];
    forall i: nat ensures StartKnown(i, starts', next) {
      assert StartKnown(i, starts, next);
    }
  }

  lemma {:induction false} DispatchInOrder(p: Limits, s: Shard, window: seq<nat>, build: Name, now: real)
    requires GoodLimits(p) && Inv(p, s) && WindowRest(window, s.mailbox, s.activeKeys)
    requires InOrder(s.starts, s.mailbox) && StartsNumbered(s.starts, s.nextSequence)
    ensures var t := DispatchWindow(p, s, window, build, now);
            InOrder(t.starts, t.mailbox) && StartsNumbered(t.starts, t.nextSequence)
    decreases |window|
  {
    if window != [] && s.running < p.concurrency {
      var n := window[0];
      if s.mailbox[n].key in s.activeKeys {
        RestSkips(window, s.mailbox, s.activeKeys);
        DispatchInOrder(p, s, window[1..], build, now);
      } else {
        var t := StartRecord(Dequeue(s, n), s.mailbox[n], build, now);
        MailNumber(p, s, n);
        DispatchOneKeeps(p, s, n, build, now);
        RestStarts(window, s.mailbox, s.activeKeys);
        forall m | m in s.mailbox && m != n && s.mailbox[m].key == s.mailbox[n].key ensures n < m {
          OldestOfItsKey(window, s.mailbox, s.activeKeys, m);
        }
        StartInOrder(s.starts, s.mailbox, n);
        StartNumbered(s.starts, s.mailbox[n], s.nextSequence);
        DispatchInOrder(p, t, window[1..], build, now);
      }
    }
  }

  // ---------------------------------------------------------------------------
  // What is left waiting after a dispatch

  ghost predicate Reached(n: nat, window: seq<nat>, mailbox: map<nat, Record>, active: set<Name>) {
    n in mailbox ==> n in window || mailbox[n].key in active
  }

  /** A dispatch that looks at everything startable leaves nothing startable. */
  lemma {:induction false} DispatchCovers(p: Limits, s: Shard, window: seq<nat>, build: Name, now: real)
    requires forall n :: Reached(n, window, s.mailbox, s.activeKeys)
    ensures var t := DispatchWindow(p, s, window, build, now);
            AllWait(p, t.running, t.mailbox, t.activeKeys)
    decreases |window|
  {
    if window == [] {
      forall n: nat ensures Waits(n, s.mailbox, s.activeKeys) {
        assert Reached(n, window, s.mailbox, s.activeKeys);
      }
    } else if s.running < p.concurrency {
      var n, rest := window[0], window[1..];
      assert window == [n] + rest;
      if n in s.mailbox && s.mailbox[n].key !in s.activeKeys {
        var t := StartRecord(Dequeue(s, n), s.mailbox[n], build, now);
        forall m ensures Reached(m, rest, t.mailbox, t.activeKeys) {
          assert Reached(m, window, s.mailbox, s.activeKeys);
        }
        DispatchCovers(p, t, rest, build, now);
      } else {
        forall m ensures Reached(m, rest, s.mailbox, s.activeKeys) {
          assert Reached(m, window, s.mailbox, s.activeKeys);
        }
        DispatchCovers(p, s, rest, build, now);
      }
    }
  }

  /** A short mailbox is looked at as a whole. */
  lemma ShortMailbox(p: Limits, s: Shard, build: Name, now: real)
    requires |s.mailbox| <= p.concurrency
    ensures var t := Dispatch(p, s, build, now); AllWait(p, t.running, t.mailbox, t.activeKeys)
  {
    var all := Ascend(s.mailbox.Keys);
    assert Window(p, s) == all;
    forall n ensures Reached(n, all, s.mailbox, s.activeKeys) {
      assert n in s.mailbox ==> n in all;
    }
    DispatchCovers(p, s, all, build, now);
  }

  /** With one key in the mailbox, at most its oldest event starts and the others wait for it. */
  lemma OneKeyMailbox(p: Limits, s: Shard, key: Name, build: Name, now: real)
    requires GoodLimits(p) && forall n :: n in s.mailbox ==> s.mailbox[n].key == key
    ensures var t := Dispatch(p, s, build, now); AllWait(p, t.running, t.mailbox, t.activeKeys)
  {
    var window := Window(p, s);
    WindowShape(p, s);
    if s.running < p.concurrency {
      if key in s.activeKeys || window == [] {
        forall n ensures Reached(n, window, s.mailbox, s.activeKeys) {
        }
        DispatchCovers(p, s, window, build, now);
      } else {
        var n := window[0];
        var t := StartRecord(Dequeue(s, n), s.mailbox[n], build, now);
        forall m ensures Reached(m, window[1..], t.mailbox, t.activeKeys) {
        }
        DispatchCovers(p, t, window[1..], build, now);
      }
    }
  }

  /** With a single slot, after a dispatch it is taken, or nothing changed and the oldest waiting event's key is active. */
  lemma SingleSlot(p: Limits, s: Shard, build: Name, now: real)
    requires p.concurrency == 1
    ensures var t := Dispatch(p, s, build, now);
            t.running >= 1 || (t == s && (s.mailbox == map[] || exists n :: n in s.mailbox && s.mailbox[n].key in s.activeKeys))
  {
    var window := Window(p, s);
    WindowShape(p, s);
    if window == [] {
      assert |s.mailbox.Keys| == 0;
      assert s.mailbox == map[];
    } else {
      assert window == [window[0]] && window[1..] == [];
      assert window[0] in window;
      if s.running < 1 && s.mailbox[window[0]].key in s.activeKeys {
        assert DispatchWindow(p, s, window[1..], build, now) == s;
      } else {
        var u := StartRecord(Dequeue(s, window[0]), s.mailbox[window[0]], build, now);
        assert DispatchWindow(p, u, window[1..], build, now) == u;
      }
    }
  }

  lemma LiveCount(p: Limits, s: Shard)
    requires PlacesOk(s.nextSequence, s.mailbox.Keys, s.ready.Keys, s.leased.Keys, s.quarantine.Keys, Done(s.history)) && CountsOk(s)
    ensures |Live(s.ready, s.leased)| == s.running + s.retryPending + s.retryRunning
  {
    var live := Live(s.ready, s.leased);
    var held := Held(s.leased);
    forall n ensures !(n in s.ready && n in held) {
      if n in s.ready { assert PlaceOk(n, s.nextSequence, s.mailbox.Keys, s.ready.Keys, s.leased.Keys, s.quarantine.Keys, Done(s.history)); }
    }
    assert live.Keys == s.ready.Keys + held.Keys;
    assert |live| == |s.ready| + |held|;
    FreshOrRetry(s.ready);
    FreshOrRetry(held);
  }

  lemma FreshOrRetry(m: Work)
    ensures |m| == |Fresh(m)| + |Retries(m)|
  {
    assert m.Keys == Fresh(m) + Retries(m);
    assert Fresh(m) !! Retries(m);
  }

  lemma SomeWork(live: Work, active: set<Name>, key: Name)
    requires ActiveOk(live, active) && key in active
    ensures |live| >= 1
  {
    assert KeyOk(key, live, active);
    var n :| n in live && live[n].record.key == key;
    assert n in live.Keys;
  }

  lemma OneWorker(live: Work, active: set<Name>, j: Name, k: Name)
    requires ActiveOk(live, active) && |live| <= 1 && j in active && k in active
    ensures j == k
  {
    assert KeyOk(j, live, active) && KeyOk(k, live, active);
    var n :| n in live && live[n].record.key == j;
    var m :| m in live && live[m].record.key == k;
    assert {n, m} <= live.Keys;
    assert |{n, m}| <= |live.Keys| by { Contained({n, m}, live.Keys); }
  }

  lemma {:induction false} Contained(a: set<nat>, b: set<nat>)
    requires a <= b
    ensures |a| <= |b|
    decreases |a|
  {
    if a != {} {
      var x :| x in a;
      Contained(a - {x}, b - {x});
    }
  }

  lemma NoRetries(p: Limits, s: Shard, key: Name)
    requires Inv(p, s) && p.maxAttempts == 1 && key in s.activeKeys
    ensures s.running >= 1
  {
    var live := Live(s.ready, s.leased);
    assert KeyOk(key, live, s.activeKeys);
    var n :| n in live && live[n].record.key == key;
    assert LiveAt(p, n, live, s.dedup, s.outcomes, s.states);
    if n in s.leased {
      assert n in Fresh(Held(s.leased));
    } else {
      assert n in Fresh(s.ready);
    }
  }

  // ---------------------------------------------------------------------------
  // Keeping the shard settled

  /** Executions finished and the mailbox was not touched. */
  ghost predicate Freed(s: Shard, t: Shard) {
    t.mailbox == s.mailbox && t.starts == s.starts && t.nextSequence == s.nextSequence && t.activeKeys <= s.activeKeys
  }

  lemma SingleSlotSettles(p: Limits, t: Shard, build: Name, now: real)
    requires GoodLimits(p) && Orderly(p) && Inv(p, t) && p.concurrency == 1
    ensures Settled(p, Dispatch(p, t, build, now))
  {
    var u := Dispatch(p, t, build, now);
    SingleSlot(p, t, build, now);
    if u.running < 1 && |t.mailbox| >= 2 {
      assert t.mailbox != map[];
      var n :| n in t.mailbox && t.mailbox[n].key in t.activeKeys;
      LiveCount(p, t);
      SomeWork(Live(t.ready, t.leased), t.activeKeys, t.mailbox[n].key);
      if p.maxAttempts == 1 {
        NoRetries(p, t, t.mailbox[n].key);
      }
    } else if |t.mailbox| <= 1 {
      ShortMailbox(p, t, build, now);
    }
  }

  /** A full mailbox beside several slots holds one key only. */
  lemma CrowdedMailbox(p: Limits, s: Shard, n: nat, m: nat)
    requires GoodLimits(p) && Orderly(p) && Inv(p, s) && Settled(p, s)
    requires p.concurrency >= 2 && |s.mailbox| > p.concurrency && n in s.mailbox && m in s.mailbox
    ensures s.mailbox[n].key == s.mailbox[m].key
  {
    LiveCount(p, s);
    assert |Live(s.ready, s.leased)| <= 1;
    assert Waits(n, s.mailbox, s.activeKeys) && Waits(m, s.mailbox, s.activeKeys);
    OneWorker(Live(s.ready, s.leased), s.activeKeys, s.mailbox[n].key, s.mailbox[m].key);
  }

  /** After executions finish, one dispatch settles the shard again. */
  lemma FreedSettles(p: Limits, s: Shard, t: Shard, build: Name, now: real)
    requires GoodLimits(p) && Orderly(p) && Inv(p, s) && Inv(p, t) && Settled(p, s) && Freed(s, t)
    ensures Settled(p, Dispatch(p, t, build, now))
  {
    if p.concurrency == 1 {
      SingleSlotSettles(p, t, build, now);
    } else if |t.mailbox| <= p.concurrency {
      ShortMailbox(p, t, build, now);
    } else {
      assert t.mailbox.Keys != {};
      var n :| n in t.mailbox;
      forall m | m in t.mailbox ensures t.mailbox[m].key == t.mailbox[n].key {
        CrowdedMailbox(p, s, n, m);
      }
      OneKeyMailbox(p, t, t.mailbox[n].key, build, now);
    }
  }

  // ---------------------------------------------------------------------------
  // The order through every transaction

  /** The starts so far are in order, and the shard is settled. */
  ghost predicate OrderOk(p: Limits, s: Shard) {
    InOrder(s.starts, s.mailbox) && StartsNumbered(s.starts, s.nextSequence) && Settled(p, s)
  }

  /** Nothing that decides the order of starts changed. */
  ghost predicate Calm(s: Shard, t: Shard) {
    && t.mailbox == s.mailbox && t.starts == s.starts && t.nextSequence == s.nextSequence
    && t.activeKeys == s.activeKeys && t.running == s.running && Total(t) == Total(s)
  }

  lemma CalmOrder(p: Limits, s: Shard, t: Shard)
    requires OrderOk(p, s) && Calm(s, t)
    ensures OrderOk(p, t)
  {
  }

  lemma WindowStarts(p: Limits, s: Shard)
    ensures WindowRest(Window(p, s), s.mailbox, s.activeKeys)
  {
    WindowShape(p, s);
    var w := Window(p, s);
    assert forall i :: 0 <= i < |w| ==> w[i] in w;
  }

  lemma DispatchKeepsStarts(p: Limits, s: Shard, build: Name, now: real)
    requires GoodLimits(p) && Inv(p, s) && InOrder(s.starts, s.mailbox) && StartsNumbered(s.starts, s.nextSequence)
    ensures var t := Dispatch(p, s, build, now);
            InOrder(t.starts, t.mailbox) && StartsNumbered(t.starts, t.nextSequence)
  {
    WindowStarts(p, s);
    DispatchInOrder(p, s, Window(p, s), build, now);
  }

  lemma FreedOrder(p: Limits, s: Shard, t: Shard, build: Name, now: real)
    requires GoodLimits(p) && Orderly(p) && Inv(p, s) && Inv(p, t) && OrderOk(p, s) && Freed(s, t)
    ensures OrderOk(p, Dispatch(p, t, build, now))
  {
    FreedSettles(p, s, t, build, now);
    DispatchKeepsStarts(p, t, build, now);
  }

  /** In a settled shard a newly admitted event that starts at once overtakes nothing. */
  lemma NewStartInOrder(starts: seq<Record>, mailbox: map<nat, Record>, active: set<Name>, next: nat, r: Record)
    requires InOrder(starts, mailbox) && StartsNumbered(starts, next) && next < r.sequence
    requires r.key !in active && forall n: nat :: Waits(n, mailbox, active)
    ensures InOrder(starts + [r], mailbox) && StartsNumbered(starts + [r], r.sequence)
  {
    var starts' := starts + [r];
    forall i: nat, j: nat ensures StartsRise(i, j, starts') {
      assert StartsRise(i, j, starts) && StartKnown(i, starts, next);
    }
    forall n: nat, i: nat ensures NotOvertaken(n, i, mailbox, starts') {
      assert NotOvertaken(n, i, mailbox, starts) && Waits(n, mailbox, active);
    }
    forall i: nat ensures StartKnown(i, starts', r.sequence) {
      assert StartKnown(i, starts, next);
    }
  }

  lemma NewWaitInOrder(starts: seq<Record>, mailbox: map<nat, Record>, next: nat, r: Record)
    requires InOrder(starts, mailbox) && StartsNumbered(starts, next) && next < r.sequence
    ensures InOrder(starts, mailbox[r.sequence := r]) && StartsNumbered(starts, r.sequence)
  {
    var mailbox' := mailbox[r.sequence := r];
    forall n: nat, i: nat ensures NotOvertaken(n, i, mailbox', starts) {
      assert NotOvertaken(n, i, mailbox, starts) && StartKnown(i, starts, next);
    }
    forall i: nat ensures StartKnown(i, starts, r.sequence) {
      assert StartKnown(i, starts, next);
    }
  }

  lemma AdmitWaits(p: Limits, running: nat, mailbox: map<nat, Record>, active: set<Name>, r: Record)
    requires AllWait(p, running, mailbox, active)
    ensures AllWait(p, running + 1, mailbox, active + {r.key})
    ensures running >= p.concurrency || r.key in active ==> AllWait(p, running, mailbox[r.sequence := r], active)
  {
    var more, mailbox' := active + {r.key}, mailbox[r.sequence := r];
    if running < p.concurrency {
      forall n: nat ensures Waits(n, mailbox, more) && (r.key in active ==> Waits(n, mailbox', active)) {
        assert Waits(n, mailbox, active);
      }
    }
  }

  lemma AdmitOneOrder(p: Limits, s: Shard, q: Request, build: Name, now: real)
    requires GoodLimits(p) && Inv(p, s) && OrderOk(p, s) && AdmitOne(p, s, q, build, now).Ok?
    requires (q.key, q.eventId) !in s.dedup ==> Total(s) < p.capacity
    ensures OrderOk(p, AdmitOne(p, s, q, build, now).value)
  {
    AdmitOneSteps(p, s, q, build, now);
    if (q.key, q.eventId) !in s.dedup {
      var r := Numbered(s, q);
      var t := Recorded(s, r, Unstarted(r));
      RecordedFrame(s, r, Unstarted(r));
      assert AllWait(p, s.running, s.mailbox, s.activeKeys);
      AdmitWaits(p, s.running, s.mailbox, s.activeKeys, r);
      if s.running < p.concurrency && q.key !in s.activeKeys {
        NewStartInOrder(s.starts, s.mailbox, s.activeKeys, s.nextSequence, r);
        StartFrame(t, r, build, now);
      } else {
        NewWaitInOrder(s.starts, s.mailbox, s.nextSequence, r);
        EnqueueFrame(t, r);
      }
    }
  }

  lemma {:induction false} AdmitAllOrder(p: Limits, s: Shard, requests: seq<Request>, build: Name, now: real)
    requires GoodLimits(p) && Inv(p, s) && OrderOk(p, s) && Total(s) + |NewEvents(s, requests)| <= p.capacity
    requires AdmitAll(p, s, requests, build, now).Ok?
    ensures OrderOk(p, AdmitAll(p, s, requests, build, now).value)
    decreases |requests|
  {
    if requests != [] {
      var front := requests[..|requests| - 1];
      NewEventsShrink(s, requests);
      AdmitAllKeeps(p, s, front, build, now);
      AdmitAllOrder(p, s, front, build, now);
      RoomForNext(p, s, requests, build, now);
      AdmitOneOrder(p, AdmitAll(p, s, front, build, now).value, requests[|requests| - 1], build, now);
    }
  }

  lemma AdmitOrder(p: Limits, s: Shard, requests: seq<Request>, build: Name, now: real)
    requires GoodLimits(p) && Orderly(p) && Inv(p, s) && OrderOk(p, s) && Admit(p, s, requests, build, now).Ok?
    ensures OrderOk(p, Admit(p, s, requests, build, now).value)
  {
    var t := AdmitAll(p, s, requests, build, now).value;
    AdmitAllKeeps(p, s, requests, build, now);
    AdmitAllOrder(p, s, requests, build, now);
    FreedOrder(p, t, t, build, now);
  }

  lemma {:induction false} AdmitBatchesOrder(p: Limits, s: Shard, batches: seq<seq<Request>>, build: Name, now: real)
    requires GoodLimits(p) && Orderly(p) && Inv(p, s) && OrderOk(p, s) && AdmitBatches(p, s, batches, build, now).Ok?
    ensures OrderOk(p, AdmitBatches(p, s, batches, build, now).value)
    decreases |batches|
  {
    if batches != [] {
      AdmitKeeps(p, s, batches[0], build, now);
      AdmitOrder(p, s, batches[0], build, now);
      AdmitBatchesOrder(p, Admit(p, s, batches[0], build, now).value, batches[1..], build, now);
    }
  }

  lemma CommitFreed(s: Shard, e: Execution, next: StateValue, emit: Option<Payload>)
    requires Commit(s, e, next, emit).Ok?
    ensures Freed(s, Commit(s, e, next, emit).value)
  {
  }

  lemma RetryFreed(p: Limits, s: Shard, e: Execution, now: real)
    requires RetryOrQuarantine(p, s, e, now).Ok?
    ensures Freed(s, RetryOrQuarantine(p, s, e, now).value)
  {
    if e.attempt + 1 >= p.maxAttempts {
    } else {
    }
  }

  lemma FinishOneFreed(p: Limits, s: Shard, token: Name, item: Item, now: real)
    requires LeaseStored(s, token) && s.leases[token].members != [] && FinishOne(p, s, token, item, now).Ok?
    ensures Freed(s, FinishOne(p, s, token, item, now).value)
  {
    var e := s.leased[s.leases[token].members[0]].execution;
    if item.Failure? {
      RetryFreed(p, TakeFirst(s, token), e, now);
    } else {
      CommitFreed(TakeFirst(s, token), e, item.next, item.emit);
    }
  }

  lemma {:induction false} FinishAllFreed(p: Limits, s: Shard, token: Name, items: seq<Item>, now: real)
    requires LeaseStored(s, token) && |s.leases[token].members| == |items| && FinishAll(p, s, token, items, now).Ok?
    ensures Freed(s, FinishAll(p, s, token, items, now).value)
    decreases |items|
  {
    if items != [] {
      FinishOneFreed(p, s, token, items[0], now);
      FinishKeepsLease(p, s, token, items[0], now);
      FinishAllFreed(p, FinishOne(p, s, token, items[0], now).value, token, items[1..], now);
    }
  }

  lemma CompleteOrder(p: Limits, s: Shard, token: Name, items: seq<Item>, build: Name, now: real)
    requires GoodLimits(p) && Orderly(p) && Inv(p, s) && OrderOk(p, s)
    requires LeaseStored(s, token) && CompleteLease(p, s, token, items, build, now).Ok?
    ensures OrderOk(p, CompleteLease(p, s, token, items, build, now).value)
  {
    var t := FinishAll(p, s, token, items, now).value;
    FinishAllFreed(p, s, token, items, now);
    FinishAllKeeps(p, s, token, items, now);
    FinishAllEmpties(p, s, token, items, now);
    CloseKeeps(p, t, token);
    FreedOrder(p, s, CloseLease(t, token), build, now);
  }

  lemma {:induction false} RecoverOrder(p: Limits, s: Shard, epoch: nat, orphans: bool, tokens: seq<Name>, build: Name, now: real)
    requires GoodLimits(p) && Orderly(p) && Inv(p, s) && OrderOk(p, s)
    ensures OrderOk(p, RecoverLeases(p, s, epoch, orphans, tokens, build, now))
    decreases |tokens|
  {
    if tokens != [] {
      var token := tokens[0];
      if token in s.leases && (s.leases[token].expires <= now || (orphans && s.leases[token].epoch != epoch)) {
        LeaseIsStored(p, s, token);
        LoseKeeps(p, s, token, build, now);
        CompleteOrder(p, s, token, seq(|s.leases[token].members|, _ => Failure("lost")), build, now);
        RecoverOrder(p, LoseLease(p, s, token, build, now).value, epoch, orphans, tokens[1..], build, now);
      } else {
        RecoverOrder(p, s, epoch, orphans, tokens[1..], build, now);
      }
    }
  }

  lemma ReturnFirstCalm(p: Limits, s: Shard, token: Name)
    requires Inv(p, s) && LeaseStored(s, token) && s.leases[token].members != []
    ensures Calm(s, ReturnFirst(s, token))
  {
    var e := s.leased[s.leases[token].members[0]].execution;
    var t := TakeFirst(s, token);
    TakeKeeps(p, s, token);
    TakeFrame(s, token);
    MovedPlaces(t.nextSequence, t.mailbox.Keys, t.ready.Keys, t.leased.Keys, t.quarantine.Keys, Done(t.history), e.record.sequence);
    PutBackFrame(t, e);
  }

  lemma {:induction false} ReturnAllOrder(p: Limits, s: Shard, token: Name)
    requires Inv(p, s) && OrderOk(p, s) && LeaseStored(s, token)
    ensures OrderOk(p, ReturnAll(s, token))
    decreases |s.leases[token].members|
  {
    if s.leases[token].members == [] {
      CalmOrder(p, s, CloseLease(s, token));
    } else {
      ReturnFirstCalm(p, s, token);
      CalmOrder(p, s, ReturnFirst(s, token));
      ReturnFirstKeeps(p, s, token);
      ReturnKeepsLease(s, token);
      ReturnAllOrder(p, ReturnFirst(s, token), token);
    }
  }

  lemma {:induction false} ReturnLeasesOrder(p: Limits, s: Shard, tokens: seq<Name>)
    requires Inv(p, s) && OrderOk(p, s)
    ensures OrderOk(p, ReturnLeases(p, s, tokens))
    decreases |tokens|
  {
    if tokens == [] {
    } else if tokens[0] !in s.leases {
      ReturnLeasesOrder(p, s, tokens[1..]);
    } else {
      LeaseIsStored(p, s, tokens[0]);
      ReturnAllKeeps(p, s, tokens[0]);
      ReturnAllOrder(p, s, tokens[0]);
      ReturnLeasesOrder(p, ReturnAll(s, tokens[0]), tokens[1..]);
    }
  }

  lemma {:induction false} GrantAllOrder(p: Limits, s: Shard, token: Name, selected: seq<nat>)
    requires Inv(p, s) && OrderOk(p, s) && token in s.leases && MayGrant(p, s, selected)
    ensures OrderOk(p, GrantAll(s, token, selected))
    decreases |selected|
  {
    if selected != [] {
      var t := GrantOne(s, token, selected[0]);
      GrantOneKeeps(p, s, token, selected[0]);
      GrantFrame(p, s, token, selected[0]);
      CalmOrder(p, s, t);
      GrantableRest(s, token, selected);
      GrantAllOrder(p, t, token, selected[1..]);
    }
  }

  lemma GrantedOrder(p: Limits, s: Shard, token: Name, epoch: nat, activation: nat, expires: real, selected: seq<nat>)
    requires Inv(p, s) && OrderOk(p, s) && token !in s.leases && MayGrant(p, s, selected)
    ensures OrderOk(p, Granted(s, token, epoch, activation, expires, selected))
  {
    var t := OpenLease(s, token, epoch, activation, expires);
    OpenKeeps(p, s, token, epoch, activation, expires);
    CalmOrder(p, s, t);
    GrantAllOrder(p, t, token, selected);
  }

  lemma PollResultOrder(p: Limits, x: Partition, y: Partition, token: Name, expires: real, selected: seq<nat>)
    requires PartitionInv(p, x) && OrderOk(p, x.shard) && PollResult(p, x, y, token, expires, selected)
    ensures OrderOk(p, y.shard)
  {
    if y.shard != x.shard {
      UnusedToken(p, x, token);
      var o := Bumped(x.owner.value);
      GrantedOrder(p, x.shard, token, o.epoch, o.nextActivation, expires, selected);
    }
  }

  lemma PollOrder(p: Limits, x: Partition, step: Step, y: Partition)
    requires PartitionInv(p, x) && OrderOk(p, x.shard) && step.Poll? && DoPoll(p, x, step) == Ok(y)
    ensures OrderOk(p, y.shard)
  {
    var expires := step.now + step.ttl;
    RetriesBounded(p, x);
    var selected := PollCases(p, x, step, y, expires);
    PollResultOrder(p, x, y, step.token, expires, selected);
  }

  lemma CompleteStepOrder(p: Limits, x: Partition, step: Step, y: Partition)
    requires GoodLimits(p) && Orderly(p) && PartitionInv(p, x) && OrderOk(p, x.shard) && step.Complete? && DoComplete(p, x, step) == Ok(y)
    ensures OrderOk(p, y.shard)
  {
    LeaseIsStored(p, x.shard, step.token);
    CompleteOrder(p, x.shard, step.token, step.items, step.build, step.now);
  }

  lemma TransferOrder(p: Limits, x: Partition, step: Step, y: Partition)
    requires PartitionInv(p, x) && OrderOk(p, x.shard) && DoTransferable(step) && DoTransfer(p, x, step) == Ok(y)
    ensures OrderOk(p, y.shard)
  {
    if step.TransferReturn? {
      ReturnLeasesOrder(p, x.shard, Keys.Sorted(x.shard.leases.Keys));
    }
  }

  predicate DoTransferable(step: Step) {
    step.TransferBegin? || step.TransferReturn? || step.TransferFinish?
  }

  lemma OwnerOrder(p: Limits, x: Partition, step: Step, y: Partition)
    requires GoodLimits(p) && PartitionInv(p, x) && OrderOk(p, x.shard) && Do(p, x, step) == Ok(y) && (step.Acquire? || step.RenewOwner?)
    ensures OrderOk(p, y.shard)
  {
    assert y.shard == x.shard;
  }

  lemma IngressOrder(p: Limits, x: Partition, step: Step, y: Partition)
    requires GoodLimits(p) && Orderly(p) && PartitionInv(p, x) && OrderOk(p, x.shard) && Do(p, x, step) == Ok(y) && step.Ingress?
    ensures OrderOk(p, y.shard)
  {
    AdmitBatchesOrder(p, x.shard, step.batches, step.build, step.now);
  }

  lemma QuietOrder(p: Limits, x: Partition, step: Step, y: Partition)
    requires GoodLimits(p) && PartitionInv(p, x) && OrderOk(p, x.shard) && Do(p, x, step) == Ok(y) && (step.RenewLease? || step.FinalizeKey?)
    ensures OrderOk(p, y.shard)
  {
    CalmOrder(p, x.shard, y.shard);
  }

  lemma RecoverStepOrder(p: Limits, x: Partition, step: Step, y: Partition)
    requires GoodLimits(p) && Orderly(p) && PartitionInv(p, x) && OrderOk(p, x.shard) && Do(p, x, step) == Ok(y) && step.Recover?
    ensures OrderOk(p, y.shard)
  {
    RecoverOrder(p, x.shard, x.owner.value.epoch, step.orphans, step.tokens, step.build, step.now);
  }

  lemma DoOrder(p: Limits, x: Partition, step: Step, y: Partition)
    requires GoodLimits(p) && Orderly(p) && PartitionInv(p, x) && OrderOk(p, x.shard) && Do(p, x, step) == Ok(y)
    ensures OrderOk(p, y.shard)
  {
    match step
    case Acquire(_, _, _, _) => OwnerOrder(p, x, step, y);
    case RenewOwner(_, _, _) => OwnerOrder(p, x, step, y);
    case Ingress(_, _, _, _) => IngressOrder(p, x, step, y);
    case Poll(_, _, _, _, _, _) => PollOrder(p, x, step, y);
    case Complete(_, _, _, _, _, _, _) => CompleteStepOrder(p, x, step, y);
    case RenewLease(_, _, _, _, _, _) => QuietOrder(p, x, step, y);
    case Recover(_, _, _, _, _) => RecoverStepOrder(p, x, step, y);
    case FinalizeKey(_, _, _) => QuietOrder(p, x, step, y);
    case TransferBegin(_, _, _, _, _) => TransferOrder(p, x, step, y);
    case TransferReturn(_) => TransferOrder(p, x, step, y);
    case TransferFinish(_, _, _, _, _) => TransferOrder(p, x, step, y);
  }

  lemma {:induction false} RunOrder(p: Limits, x: Partition, steps: seq<Step>)
    requires GoodLimits(p) && Orderly(p) && PartitionInv(p, x) && OrderOk(p, x.shard)
    ensures OrderOk(p, Run(p, x, steps).shard)
    decreases |steps|
  {
    if steps != [] {
      NextOk(p, x, steps[0]);
      if Do(p, x, steps[0]).Ok? {
        DoOrder(p, x, steps[0], Next(p, x, steps[0]));
      }
      RunOrder(p, Next(p, x, steps[0]), steps[1..]);
    }
  }

  /** No event of a key started, or will start, before an older one. */
  ghost predicate Fair(s: Shard) {
    InOrder(s.starts, s.mailbox)
  }

  lemma RunInOrder(p: Limits, x: Partition, steps: seq<Step>)
    requires GoodLimits(p) && Orderly(p) && PartitionInv(p, x) && OrderOk(p, x.shard)
    ensures Fair(Run(p, x, steps).shard)
  {
    RunOrder(p, x, steps);
  }

  lemma UnassignedOrder(p: Limits)
    ensures OrderOk(p, UNASSIGNED.shard)
  {
    NothingStarted(p, UNASSIGNED.shard);
  }

  lemma NothingStarted(p: Limits, s: Shard)
    requires s.starts == [] && s.mailbox == map[]
    ensures OrderOk(p, s)
  {
  }

  /** Within the limits, in every run each key's events start in admission order and none is overtaken. */
  lemma AlwaysInOrder(p: Limits, steps: seq<Step>)
    requires GoodLimits(p) && Orderly(p)
    ensures PartitionInv(p, UNASSIGNED) && Fair(Run(p, UNASSIGNED, steps).shard)
  {
    UnassignedHolds(p);
    UnassignedOrder(p);
    RunInOrder(p, UNASSIGNED, steps);
  }
}
