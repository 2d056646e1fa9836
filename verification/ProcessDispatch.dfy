/** Which waiting events a dispatch starts and why the others wait, told by the mailbox and the active keys. */
module ProcessDispatch {
  import opened Wrappers
  import opened Sequences
  import opened ProcessShard
  import opened ProcessInvariant
  import opened ProcessPolling
  import opened ProcessResults

  type Mail = map<nat, Record>

  /** A started event left the mailbox for ready, as a first attempt from its key's committed state. */
  ghost predicate StartedAt(s: Shard, t: Shard, n: nat, build: Name, now: real)
    requires n in s.mailbox
  {
    && s.mailbox[n].key !in s.activeKeys && s.mailbox[n].key in t.activeKeys
    && Find(t.ready, n) == Some(Execution(s.mailbox[n], Find(s.states, s.mailbox[n].key), build, 0, false, now))
  }

  ghost predicate Starts(s: Shard, t: Shard, n: nat) {
    n in s.mailbox && n !in t.mailbox
  }

  /** What happened to the waiting event `n` of a window. */
  ghost predicate Dispatched(p: Limits, s: Shard, t: Shard, window: seq<nat>, build: Name, now: real, n: nat, m: nat) {
    && (n in t.mailbox ==> n in s.mailbox && t.mailbox[n] == s.mailbox[n])
    && (Starts(s, t, n) ==> n in window && StartedAt(s, t, n, build, now))
    && (Starts(s, t, n) && m in window && m in s.mailbox && m < n ==> s.mailbox[m].key != s.mailbox[n].key)
    && (n in window && n in s.mailbox && !Starts(s, t, n) ==> t.running >= p.concurrency || s.mailbox[n].key in t.activeKeys)
    && (n in window && n in s.mailbox && !Starts(s, t, n) && s.mailbox[n].key !in t.activeKeys && Starts(s, t, m) ==> m < n)
    && s.activeKeys <= t.activeKeys && t.states == s.states
  }

  lemma StartOneFields(s: Shard, h: nat, build: Name, now: real, u: Shard)
    requires h in s.mailbox && s.mailbox[h].sequence == h && u == StartRecord(Dequeue(s, h), s.mailbox[h], build, now)
    ensures u.mailbox == s.mailbox - {h} && u.activeKeys == s.activeKeys + {s.mailbox[h].key} && u.states == s.states
    ensures Find(u.ready, h) == Some(Execution(s.mailbox[h], Find(s.states, s.mailbox[h].key), build, 0, false, now))
  {
  }

  lemma NothingStarts(p: Limits, s: Shard, window: seq<nat>, build: Name, now: real, n: nat, m: nat)
    requires window == [] || s.running >= p.concurrency
    ensures Dispatched(p, s, s, window, build, now, n, m)
  {
  }

  lemma HeadWaits(p: Limits, s: Shard, t: Shard, window: seq<nat>, build: Name, now: real, n: nat, m: nat)
    requires window != [] && Increasing(window) && window[0] in s.mailbox && s.mailbox[window[0]].key in s.activeKeys
    requires Dispatched(p, s, t, window[1..], build, now, n, m) && Dispatched(p, s, t, window[1..], build, now, window[0], m)
    ensures Dispatched(p, s, t, window, build, now, n, m)
  {
    assert window == [window[0]] + window[1..];
  }

  lemma HeadStarts(p: Limits, s: Shard, u: Shard, t: Shard, window: seq<nat>, build: Name, now: real, n: nat, m: nat)
    requires window != [] && Increasing(window) && window[0] in s.mailbox && s.mailbox[window[0]].key !in s.activeKeys
    requires u.mailbox == s.mailbox - {window[0]} && u.activeKeys == s.activeKeys + {s.mailbox[window[0]].key} && u.states == s.states
    requires Find(u.ready, window[0]) == Some(Execution(s.mailbox[window[0]], Find(s.states, s.mailbox[window[0]].key), build, 0, false, now))
    requires ReadyKept(window[0], u.ready, t.ready)
    requires Dispatched(p, u, t, window[1..], build, now, n, m) && Dispatched(p, u, t, window[1..], build, now, window[0], m)
    ensures Dispatched(p, s, t, window, build, now, n, m)
  {
    var h := window[0];
    assert window == [h] + window[1..];
    forall k | k in window[1..] ensures h < k {
      var i :| 0 <= i < |window[1..]| && window[1..][i] == k;
      assert window[i + 1] == k;
    }
  }

  /** Every entry of the window is waiting. */
  ghost predicate Waits(window: seq<nat>, mailbox: Mail) {
    forall i :: 0 <= i < |window| ==> window[i] in mailbox
  }

  lemma RestWaits(window: seq<nat>, mailbox: Mail)
    requires window != [] && Increasing(window) && Waits(window, mailbox)
    ensures Increasing(window[1..]) && Waits(window[1..], mailbox) && Waits(window[1..], mailbox - {window[0]})
  {
    assert forall i :: 0 <= i < |window[1..]| ==> window[1..][i] == window[i + 1];
  }

  lemma StartsHead(p: Limits, s: Shard, h: nat, build: Name, now: real, u: Shard)
    requires GoodLimits(p) && Inv(p, s) && h in s.mailbox && s.running < p.concurrency && s.mailbox[h].key !in s.activeKeys
    requires u == StartRecord(Dequeue(s, h), s.mailbox[h], build, now)
    ensures Inv(p, u) && u.mailbox == s.mailbox - {h} && u.activeKeys == s.activeKeys + {s.mailbox[h].key} && u.states == s.states
    ensures Find(u.ready, h) == Some(Execution(s.mailbox[h], Find(s.states, s.mailbox[h].key), build, 0, false, now))
  {
    StartsOne(p, s, h, build, now, u);
    MailNotReady(p, s, h);
    StartOneFields(s, h, build, now, u);
  }

  lemma ReadyStays(p: Limits, u: Shard, window: seq<nat>, build: Name, now: real, t: Shard, h: nat)
    requires GoodLimits(p) && Inv(p, u) && t == DispatchWindow(p, u, window, build, now)
    ensures ReadyKept(h, u.ready, t.ready)
  {
    DispatchOnlyStarts(p, u, window, build, now, t);
  }

  lemma {:induction false} WindowDispatched(p: Limits, s: Shard, window: seq<nat>, build: Name, now: real, t: Shard, n: nat, m: nat)
    requires GoodLimits(p) && Inv(p, s) && Increasing(window) && Waits(window, s.mailbox)
    requires t == DispatchWindow(p, s, window, build, now)
    ensures Dispatched(p, s, t, window, build, now, n, m)
    decreases |window|
  {
    if window == [] || s.running >= p.concurrency {
      NothingStarts(p, s, window, build, now, n, m);
    } else {
      var h, rest := window[0], window[1..];
      RestWaits(window, s.mailbox);
      if s.mailbox[h].key in s.activeKeys {
        WindowDispatched(p, s, rest, build, now, t, n, m);
        WindowDispatched(p, s, rest, build, now, t, h, m);
        HeadWaits(p, s, t, window, build, now, n, m);
      } else {
        var u := StartRecord(Dequeue(s, h), s.mailbox[h], build, now);
        StartsHead(p, s, h, build, now, u);
        WindowDispatched(p, u, rest, build, now, t, n, m);
        WindowDispatched(p, u, rest, build, now, t, h, m);
        ReadyStays(p, u, rest, build, now, t, h);
        HeadStarts(p, s, u, t, window, build, now, n, m);
      }
    }
  }

  /**
   A dispatch, exactly. It looks at the oldest waiting events, as many as the shard may run at once. Of those it starts only
   the oldest of a key that nothing is running for, as a first attempt from the key's committed state; and one is left
   waiting only if the shard is full, with nothing younger started, or its key is busy.
   */
  lemma DispatchesExactly(p: Limits, s: Shard, build: Name, now: real, t: Shard, n: nat, m: nat)
    requires GoodLimits(p) && Inv(p, s) && t == Dispatch(p, s, build, now)
    ensures n in t.mailbox ==> n in s.mailbox && t.mailbox[n] == s.mailbox[n]
    ensures n in s.mailbox && n !in t.mailbox ==>
              && |Lower(s.mailbox.Keys, n)| < p.concurrency && s.mailbox[n].key !in s.activeKeys
              && Find(t.ready, n) == Some(Execution(s.mailbox[n], Find(s.states, s.mailbox[n].key), build, 0, false, now))
              && (m in s.mailbox && m < n ==> s.mailbox[m].key != s.mailbox[n].key)
    ensures n in t.mailbox && |Lower(s.mailbox.Keys, n)| < p.concurrency ==>
              || s.mailbox[n].key in t.activeKeys
              || (t.running >= p.concurrency && (m in s.mailbox && m !in t.mailbox ==> m < n))
  {
    var all := Ascend(s.mailbox.Keys);
    var k := Min2(p.concurrency, |all|);
    var window := Window(p, s);
    AscendIncreases(s.mailbox.Keys);
    forall i | 0 <= i < |window| ensures window[i] in s.mailbox {
      assert all[i] in all;
    }
    WindowDispatched(p, s, window, build, now, t, n, m);
    if n in s.mailbox { InWindow(p, s, n); }
    if m in s.mailbox { InWindow(p, s, m); }
    if m in s.mailbox && m < n {
      LowerGrows(s.mailbox.Keys, m, n);
    }
  }

  lemma InWindow(p: Limits, s: Shard, n: nat)
    requires n in s.mailbox
    ensures n in Window(p, s) <==> |Lower(s.mailbox.Keys, n)| < p.concurrency
  {
    var all := Ascend(s.mailbox.Keys);
    InScan(s.mailbox.Keys, Min2(p.concurrency, |all|), n);
    SmallRank(s.mailbox.Keys, n);
  }
}
