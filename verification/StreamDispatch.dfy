/** Dispatch of a stream-fed process: every event waits in the mailbox first, so order never depends on the limits. */
module StreamDispatch {
  import opened Wrappers
  import opened Sequences
  import opened ProcessShard
  import opened ProcessOrder

  /** An execution between its start and its finish, and the attempts charged to it. */
  datatype Active = Active(record: Record, attempt: nat)

  datatype Mailbox = Mailbox(
    next: nat,
    pending: nat,
    running: nat,
    retrying: nat,
    mailbox: map<nat, Record>,
    active: map<Name, Active>,
    starts: seq<Record>)

  const NOTHING := Mailbox(0, 0, 0, 0, map[], map[], [])

  function Started(s: Mailbox, n: nat): Mailbox
    requires n in s.mailbox
  {
    var r := s.mailbox[n];
    s.(mailbox := s.mailbox - {n},
       active := s.active[r.key := Active(r, 0)],
       starts := s.starts + [r],
       pending := Monus(s.pending, 1),
       running := s.running + 1)
  }

  /** Walks the window, passing over keys seen before, busy keys and events whose time has not come. */
  function DispatchRest(max: nat, s: Mailbox, window: seq<nat>, seen: set<Name>, eligible: set<nat>): Mailbox
    decreases |window|
  {
    if window == [] || s.running >= max || window[0] !in s.mailbox then s
    else
      var r := s.mailbox[window[0]];
      if r.key in seen || r.key in s.active || window[0] !in eligible then DispatchRest(max, s, window[1..], seen + {r.key}, eligible)
      else DispatchRest(max, Started(s, window[0]), window[1..], seen + {r.key}, eligible)
  }

  function Front(max: nat, mailbox: map<nat, Record>): seq<nat> {
    var all := Ascend(mailbox.Keys);
    all[..Min2(max, |all|)]
  }

  function Dispatched(max: nat, s: Mailbox, eligible: set<nat>): Mailbox {
    DispatchRest(max, s, Front(max, s.mailbox), {}, eligible)
  }

  function Arrived(max: nat, s: Mailbox, r: Record, eligible: set<nat>): Mailbox {
    var t := s.(next := r.sequence, mailbox := s.mailbox[r.sequence := r], pending := s.pending + 1);
    if t.running < max then Dispatched(max, t, eligible) else t
  }

  /** A finished execution frees its key; a batch of completions dispatches only once, after the last. */
  function Finished(max: nat, s: Mailbox, key: Name, eligible: set<nat>, deferred: bool): Mailbox {
    if key !in s.active then s
    else
      var first := s.active[key].attempt == 0;
      var t := s.(active := s.active - {key},
                  running := if first then Monus(s.running, 1) else s.running,
                  retrying := if first then s.retrying else Monus(s.retrying, 1));
      if deferred then t else Dispatched(max, t, eligible)
  }

  /** A charged attempt moves an execution from the running to the retrying ones; its key stays busy. */
  function Charged(s: Mailbox, key: Name): Mailbox {
    if key !in s.active then s
    else
      var a := s.active[key];
      s.(active := s.active[key := a.(attempt := a.attempt + 1)],
         running := if a.attempt == 0 then Monus(s.running, 1) else s.running,
         retrying := if a.attempt == 0 then s.retrying + 1 else s.retrying)
  }

  /** Dispatching the rest of the window leads to `goal`. */
  ghost predicate Ahead(max: nat, s: Mailbox, window: seq<nat>, i: nat, seen: set<Name>, eligible: set<nat>, goal: Mailbox) {
    i <= |window| && DispatchRest(max, s, window[i..], seen, eligible) == goal
  }

  lemma AheadNext(max: nat, s: Mailbox, window: seq<nat>, i: nat, seen: set<Name>, eligible: set<nat>, goal: Mailbox, next: nat)
    requires Ahead(max, s, window, i, seen, eligible, goal) && i < |window| && next == i + 1
    requires s.running < max && window[i] in s.mailbox
    ensures var r := s.mailbox[window[i]];
            if r.key in seen || r.key in s.active || window[i] !in eligible then Ahead(max, s, window, next, seen + {r.key}, eligible, goal)
            else Ahead(max, Started(s, window[i]), window, next, seen + {r.key}, eligible, goal)
  {
    var rest := window[i..];
    assert rest[0] == window[i] && rest[1..] == window[next..];
  }

  lemma AheadDone(max: nat, s: Mailbox, window: seq<nat>, i: nat, seen: set<Name>, eligible: set<nat>, goal: Mailbox)
    requires Ahead(max, s, window, i, seen, eligible, goal) && (i == |window| || s.running >= max)
    ensures s == goal
  {
  }

  class StreamProcess {
    var state: Mailbox

    constructor ()
      ensures state == NOTHING
    {
      state := NOTHING;
    }

    method Dispatch(max: nat, eligible: set<nat>)
      modifies this
      ensures state == Dispatched(max, old(state), eligible)
    {
      var all := Ascend(state.mailbox.Keys);
      AscendIncreases(state.mailbox.Keys);
      var window := all[..Min2(max, |all|)];
      var seen: set<Name> := {};
      var i := 0;
      ghost var goal := Dispatched(max, state, eligible);
      assert window[0..] == window;
      while i < |window|
        invariant 0 <= i <= |window|
        invariant forall j :: i <= j < |window| ==> window[j] in state.mailbox
        invariant Ahead(max, state, window, i, seen, eligible, goal)
      {
        if state.running >= max { break; }
        var n := window[i];
        ghost var was := i;
        i := i + 1;
        AheadNext(max, state, window, was, seen, eligible, goal, i);
        var item := state.mailbox[n];
        var first := item.key !in seen;
        seen := seen + {item.key};
        if !first || item.key in state.active || n !in eligible { continue; }
        StartNext(n);
      }
      AheadDone(max, state, window, i, seen, eligible, goal);
    }

    method StartNext(n: nat)
      requires n in state.mailbox
      modifies this
      ensures state == Started(old(state), n)
    {
      var item := state.mailbox[n];
      state := state.(active := state.active[item.key := Active(item, 0)], starts := state.starts + [item]);
      state := state.(mailbox := state.mailbox - {n});
      state := state.(pending := Monus(state.pending, 1), running := state.running + 1);
    }

    /** An appended stream record enters the mailbox before anything is dispatched. */
    method Arrive(max: nat, r: Record, eligible: set<nat>)
      modifies this
      ensures state == Arrived(max, old(state), r, eligible)
    {
      state := state.(next := r.sequence, mailbox := state.mailbox[r.sequence := r], pending := state.pending + 1);
      if state.running < max {
        Dispatch(max, eligible);
      }
    }

    method Finish(max: nat, key: Name, eligible: set<nat>, deferred: bool)
      modifies this
      ensures state == Finished(max, old(state), key, eligible, deferred)
    {
      if key !in state.active { return; }
      var execution := state.active[key];
      state := state.(active := state.active - {key});
      if execution.attempt == 0 {
        state := state.(running := Monus(state.running, 1));
      } else {
        state := state.(retrying := Monus(state.retrying, 1));
      }
      if !deferred {
        Dispatch(max, eligible);
      }
    }
  }

  // ---------------------------------------------------------------------------
  // Order in every run

  datatype Step =
    | Arrival(record: Record, eligible: set<nat>)
    | Finish(key: Name, eligible: set<nat>, deferred: bool)
    | Refresh(eligible: set<nat>)
    | Charge(key: Name)

  /** A stream numbers its records in the order it appends them. */
  predicate Enabled(s: Mailbox, step: Step) {
    step.Arrival? ==> step.record.sequence > s.next
  }

  function Apply(max: nat, s: Mailbox, step: Step): Mailbox {
    match step
    case Arrival(r, eligible) => Arrived(max, s, r, eligible)
    case Finish(key, eligible, deferred) => Finished(max, s, key, eligible, deferred)
    case Refresh(eligible) => if s.running < max then Dispatched(max, s, eligible) else s
    case Charge(key) => Charged(s, key)
  }

  ghost predicate MailNumber(n: nat, mailbox: map<nat, Record>, next: nat) {
    n in mailbox ==> mailbox[n].sequence == n <= next
  }

  ghost predicate MailNumbered(mailbox: map<nat, Record>, next: nat) {
    forall n: nat :: MailNumber(n, mailbox, next)
  }

  /** Starts of a key follow the stream, and nothing that started is newer than anything of its key that waits. */
  ghost predicate OrderOk(starts: seq<Record>, mailbox: map<nat, Record>, next: nat) {
    InOrder(starts, mailbox) && StartsNumbered(starts, next) && MailNumbered(mailbox, next)
  }

  ghost predicate Passed(n: nat, window: seq<nat>, mailbox: map<nat, Record>, seen: set<Name>) {
    n in mailbox && n !in window && window != [] && n < window[0] ==> mailbox[n].key in seen
  }

  ghost predicate Beyond(n: nat, i: nat, window: seq<nat>, mailbox: map<nat, Record>) {
    n in mailbox && n !in window && i < |window| && window[0] < n ==> window[i] < n
  }

  /** The rest of a window: every older event still waiting has a key seen before. */
  ghost predicate RestOk(window: seq<nat>, mailbox: map<nat, Record>, seen: set<Name>) {
    && Increasing(window)
    && (forall i :: 0 <= i < |window| ==> window[i] in mailbox)
    && (forall n: nat :: Passed(n, window, mailbox, seen))
    && (forall n: nat, i: nat :: Beyond(n, i, window, mailbox))
  }

  lemma RestNext(window: seq<nat>, mailbox: map<nat, Record>, seen: set<Name>, started: bool)
    requires RestOk(window, mailbox, seen) && window != []
    ensures RestOk(window[1..], if started then mailbox - {window[0]} else mailbox, seen + {mailbox[window[0]].key})
  {
    var rest, mailbox', seen' := window[1..], if started then mailbox - {window[0]} else mailbox, seen + {mailbox[window[0]].key};
    assert window == [window[0]] + rest;
    assert forall i :: 0 <= i < |rest| ==> rest[i] == window[i + 1];
    forall n: nat ensures Passed(n, rest, mailbox', seen') {
      assert Passed(n, window, mailbox, seen);
      assert Beyond(n, 1, window, mailbox);
    }
    forall n: nat, i: nat ensures Beyond(n, i, rest, mailbox') {
      var k: nat := i + 1;
      assert Beyond(n, k, window, mailbox);
    }
  }

  lemma OldestUnseen(window: seq<nat>, mailbox: map<nat, Record>, seen: set<Name>, n: nat)
    requires RestOk(window, mailbox, seen) && window != [] && mailbox[window[0]].key !in seen
    requires n in mailbox && n != window[0] && mailbox[n].key == mailbox[window[0]].key
    ensures window[0] < n
  {
    if n in window {
      var i :| 0 <= i < |window| && window[i] == n;
    } else {
      assert Passed(n, window, mailbox, seen);
    }
  }

  lemma {:induction false} RestInOrder(max: nat, s: Mailbox, window: seq<nat>, seen: set<Name>, eligible: set<nat>)
    requires RestOk(window, s.mailbox, seen) && OrderOk(s.starts, s.mailbox, s.next)
    ensures var t := DispatchRest(max, s, window, seen, eligible); OrderOk(t.starts, t.mailbox, t.next) && t.next == s.next
    decreases |window|
  {
    if window != [] && s.running < max {
      var n := window[0];
      var r := s.mailbox[n];
      if r.key in seen || r.key in s.active || n !in eligible {
        RestNext(window, s.mailbox, seen, false);
        RestInOrder(max, s, window[1..], seen + {r.key}, eligible);
      } else {
        RestNext(window, s.mailbox, seen, true);
        StartOldest(s.starts, s.mailbox, s.next, window, seen);
        RestInOrder(max, Started(s, n), window[1..], seen + {r.key}, eligible);
      }
    }
  }

  lemma StartOldest(starts: seq<Record>, mailbox: map<nat, Record>, next: nat, window: seq<nat>, seen: set<Name>)
    requires RestOk(window, mailbox, seen) && window != [] && mailbox[window[0]].key !in seen && OrderOk(starts, mailbox, next)
    ensures OrderOk(starts + [mailbox[window[0]]], mailbox - {window[0]}, next)
  {
    var n := window[0];
    assert MailNumber(n, mailbox, next);
    forall m | m in mailbox && m != n && mailbox[m].key == mailbox[n].key ensures n < m {
      OldestUnseen(window, mailbox, seen, m);
    }
    StartInOrder(starts, mailbox, n);
    StartNumbered(starts, mailbox[n], next);
    var rest := mailbox - {n};
    forall m: nat ensures MailNumber(m, rest, next) {
      assert MailNumber(m, mailbox, next);
    }
  }

  lemma FrontOk(max: nat, mailbox: map<nat, Record>)
    ensures RestOk(Front(max, mailbox), mailbox, {})
  {
    var all, w := Ascend(mailbox.Keys), Front(max, mailbox);
    AscendIncreases(mailbox.Keys);
    forall i | 0 <= i < |w| ensures w[i] in mailbox {
      assert all[i] in all;
    }
    forall n: nat ensures Passed(n, w, mailbox, {}) {
      if n in mailbox && n !in w { OutsideFront(all, w, n); }
    }
    forall n: nat, i: nat ensures Beyond(n, i, w, mailbox) {
      if n in mailbox && n !in w { OutsideFront(all, w, n); }
    }
  }

  lemma OutsideFront(all: seq<nat>, w: seq<nat>, n: nat)
    requires Increasing(all) && w <= all && n in all && n !in w
    ensures forall i :: 0 <= i < |w| ==> w[i] < n
  {
    var k :| 0 <= k < |all| && all[k] == n;
    assert forall i :: 0 <= i < |w| ==> w[i] in w && w[i] == all[i];
  }

  lemma DispatchedInOrder(max: nat, s: Mailbox, eligible: set<nat>)
    requires OrderOk(s.starts, s.mailbox, s.next)
    ensures var t := Dispatched(max, s, eligible); OrderOk(t.starts, t.mailbox, t.next)
  {
    FrontOk(max, s.mailbox);
    RestInOrder(max, s, Front(max, s.mailbox), {}, eligible);
  }

  lemma ArrivalInOrder(starts: seq<Record>, mailbox: map<nat, Record>, next: nat, r: Record)
    requires OrderOk(starts, mailbox, next) && next < r.sequence
    ensures OrderOk(starts, mailbox[r.sequence := r], r.sequence)
  {
    NewWaitInOrder(starts, mailbox, next, r);
    var mailbox' := mailbox[r.sequence := r];
    forall n: nat ensures MailNumber(n, mailbox', r.sequence) {
      assert MailNumber(n, mailbox, next);
    }
  }

  lemma StepInOrder(max: nat, s: Mailbox, step: Step)
    requires OrderOk(s.starts, s.mailbox, s.next) && Enabled(s, step)
    ensures var t := Apply(max, s, step); OrderOk(t.starts, t.mailbox, t.next)
  {
    match step
    case Arrival(r, eligible) =>
      ArrivalInOrder(s.starts, s.mailbox, s.next, r);
      DispatchedInOrder(max, s.(next := r.sequence, mailbox := s.mailbox[r.sequence := r], pending := s.pending + 1), eligible);
    case Finish(key, eligible, _) =>
      if key in s.active {
        DispatchedInOrder(max, Finished(max, s, key, eligible, true), eligible);
      }
    case Refresh(eligible) => DispatchedInOrder(max, s, eligible);
    case Charge(_) =>
  }

  predicate Runs(max: nat, s: Mailbox, steps: seq<Step>)
    decreases |steps|
  {
    steps != [] ==> Enabled(s, steps[0]) && Runs(max, Apply(max, s, steps[0]), steps[1..])
  }

  function Run(max: nat, s: Mailbox, steps: seq<Step>): Mailbox
    decreases |steps|
  {
    if steps == [] then s else Run(max, Apply(max, s, steps[0]), steps[1..])
  }

  /** In every run, at any concurrency and whatever is eligible when, each key's events start in stream order. */
  lemma {:induction false} AlwaysInStreamOrder(max: nat, s: Mailbox, steps: seq<Step>)
    requires OrderOk(s.starts, s.mailbox, s.next) && Runs(max, s, steps)
    ensures var t := Run(max, s, steps); InOrder(t.starts, t.mailbox)
    decreases |steps|
  {
    if steps != [] {
      StepInOrder(max, s, steps[0]);
      AlwaysInStreamOrder(max, Apply(max, s, steps[0]), steps[1..]);
    }
  }

  lemma NothingInOrder()
    ensures OrderOk(NOTHING.starts, NOTHING.mailbox, NOTHING.next)
  {
  }

  // ---------------------------------------------------------------------------
  // What one dispatch starts

  /** An older event of the same key in the window, or the event itself, was not eligible and still waits. */
  ghost predicate HeldBack(mailbox: map<nat, Record>, left: map<nat, Record>, window: seq<nat>, eligible: set<nat>, n: nat) {
    n in mailbox && exists k :: k in window && k <= n && k in left && k in mailbox && k !in eligible && mailbox[k].key == mailbox[n].key
  }

  /** What a walk over the window makes of the event `n`. */
  ghost predicate Walked(max: nat, s: Mailbox, t: Mailbox, window: seq<nat>, seen: set<Name>, eligible: set<nat>, n: nat, m: nat) {
    && (n in t.mailbox ==> n in s.mailbox && t.mailbox[n] == s.mailbox[n])
    && (n in s.mailbox && n !in t.mailbox ==>
          && n in window && n in eligible && s.mailbox[n].key !in s.active && s.mailbox[n].key !in seen
          && s.mailbox[n].key in t.active && t.active[s.mailbox[n].key] == Active(s.mailbox[n], 0)
          && (m in window && m in s.mailbox && m < n ==> s.mailbox[m].key != s.mailbox[n].key))
    && (n in window && n in t.mailbox ==>
          t.running >= max || s.mailbox[n].key in t.active || s.mailbox[n].key in seen || HeldBack(s.mailbox, t.mailbox, window, eligible, n))
    && (forall key :: key in s.active ==> key in t.active && t.active[key] == s.active[key])
  }

  lemma WalkedOver(max: nat, s: Mailbox, t: Mailbox, window: seq<nat>, seen: set<Name>, eligible: set<nat>, n: nat, m: nat)
    requires window != [] && Increasing(window) && window[0] in s.mailbox
    requires var r := s.mailbox[window[0]]; r.key in seen || r.key in s.active || window[0] !in eligible
    requires var seen' := seen + {s.mailbox[window[0]].key};
             Walked(max, s, t, window[1..], seen', eligible, n, m) && Walked(max, s, t, window[1..], seen', eligible, window[0], m)
    ensures Walked(max, s, t, window, seen, eligible, n, m)
  {
    var h, rest := window[0], window[1..];
    assert window == [h] + rest;
    forall k | k in rest ensures h < k {
      var i :| 0 <= i < |rest| && rest[i] == k;
      assert window[i + 1] == k;
    }
    assert h in window;
  }

  lemma WalkedStart(max: nat, s: Mailbox, u: Mailbox, t: Mailbox, window: seq<nat>, seen: set<Name>, eligible: set<nat>, n: nat, m: nat)
    requires window != [] && Increasing(window) && window[0] in s.mailbox && u == Started(s, window[0])
    requires var r := s.mailbox[window[0]]; r.key !in seen && r.key !in s.active && window[0] in eligible
    requires var seen' := seen + {s.mailbox[window[0]].key};
             Walked(max, u, t, window[1..], seen', eligible, n, m) && Walked(max, u, t, window[1..], seen', eligible, window[0], m)
    ensures Walked(max, s, t, window, seen, eligible, n, m)
  {
    var h, rest := window[0], window[1..];
    assert window == [h] + rest;
    forall k | k in rest ensures h < k {
      var i :| 0 <= i < |rest| && rest[i] == k;
      assert window[i + 1] == k;
    }
    assert s.mailbox[h].key in u.active;
  }

  lemma {:induction false} RestWalked(max: nat, s: Mailbox, window: seq<nat>, seen: set<Name>, eligible: set<nat>, t: Mailbox, n: nat, m: nat)
    requires Increasing(window) && (forall i :: 0 <= i < |window| ==> window[i] in s.mailbox)
    requires t == DispatchRest(max, s, window, seen, eligible)
    ensures Walked(max, s, t, window, seen, eligible, n, m)
    decreases |window|
  {
    if window != [] && s.running < max {
      var h, rest := window[0], window[1..];
      var r := s.mailbox[h];
      assert forall i :: 0 <= i < |rest| ==> rest[i] == window[i + 1];
      if r.key in seen || r.key in s.active || h !in eligible {
        RestWalked(max, s, rest, seen + {r.key}, eligible, t, n, m);
        RestWalked(max, s, rest, seen + {r.key}, eligible, t, h, m);
        WalkedOver(max, s, t, window, seen, eligible, n, m);
      } else {
        RestWalked(max, Started(s, h), rest, seen + {r.key}, eligible, t, n, m);
        RestWalked(max, Started(s, h), rest, seen + {r.key}, eligible, t, h, m);
        WalkedStart(max, s, Started(s, h), t, window, seen, eligible, n, m);
      }
    }
  }

  /**
   A dispatch, exactly. Of the oldest waiting events, as many as may run at once, it starts only eligible ones, each the
   oldest of a key that is not busy, as a first attempt; and one of them waits only if the process is full, its key is busy,
   or an event of its key, not younger than it, is not eligible.
   */
  lemma DispatchesExactly(max: nat, s: Mailbox, eligible: set<nat>, t: Mailbox, n: nat, m: nat)
    requires t == Dispatched(max, s, eligible)
    ensures n in t.mailbox ==> n in s.mailbox && t.mailbox[n] == s.mailbox[n]
    ensures n in s.mailbox && n !in t.mailbox ==>
              && |Lower(s.mailbox.Keys, n)| < max && n in eligible && s.mailbox[n].key !in s.active
              && s.mailbox[n].key in t.active && t.active[s.mailbox[n].key] == Active(s.mailbox[n], 0)
              && (m in s.mailbox && m < n ==> s.mailbox[m].key != s.mailbox[n].key)
    ensures n in t.mailbox && |Lower(s.mailbox.Keys, n)| < max ==>
              || t.running >= max || s.mailbox[n].key in t.active
              || exists k :: k in t.mailbox && k <= n && k in s.mailbox && k !in eligible && s.mailbox[k].key == s.mailbox[n].key
  {
    var window := Front(max, s.mailbox);
    FrontOk(max, s.mailbox);
    RestWalked(max, s, window, {}, eligible, t, n, m);
    InFront(max, s.mailbox, n);
    InFront(max, s.mailbox, m);
    if m < n {
      LowerGrows(s.mailbox.Keys, m, n);
    }
  }

  lemma InFront(max: nat, mailbox: map<nat, Record>, n: nat)
    ensures n in Front(max, mailbox) <==> n in mailbox && |Lower(mailbox.Keys, n)| < max
  {
    var all := Ascend(mailbox.Keys);
    InScan(mailbox.Keys, Min2(max, |all|), n);
    if n in mailbox {
      SmallRank(mailbox.Keys, n);
    }
  }

  lemma {:induction false} NewFromMail(max: nat, s: Mailbox, window: seq<nat>, seen: set<Name>, eligible: set<nat>, t: Mailbox, key: Name)
    requires (forall i :: 0 <= i < |window| ==> window[i] in s.mailbox) && Increasing(window)
    requires t == DispatchRest(max, s, window, seen, eligible) && key !in s.active && key in t.active
    ensures exists n :: n in s.mailbox && n !in t.mailbox && s.mailbox[n].key == key && t.active[key] == Active(s.mailbox[n], 0)
    decreases |window|
  {
    var h, rest := window[0], window[1..];
    var r := s.mailbox[h];
    assert forall i :: 0 <= i < |rest| ==> rest[i] == window[i + 1];
    if r.key in seen || r.key in s.active || h !in eligible {
      NewFromMail(max, s, rest, seen + {r.key}, eligible, t, key);
    } else if r.key == key {
      RestWalked(max, Started(s, h), rest, seen + {r.key}, eligible, t, h, h);
    } else {
      NewFromMail(max, Started(s, h), rest, seen + {r.key}, eligible, t, key);
    }
  }

  /** A finished execution leaves: its key is free, or busy with a waiting event that started at once; every other execution goes on. */
  lemma FinishFrees(max: nat, s: Mailbox, key: Name, other: Name, eligible: set<nat>, deferred: bool)
    requires key in s.active
    ensures var t := Finished(max, s, key, eligible, deferred);
            && (deferred ==> t.active == s.active - {key} && t.mailbox == s.mailbox)
            && (other in s.active && other != key ==> other in t.active && t.active[other] == s.active[other])
            && (key in t.active ==> exists n :: n in s.mailbox && n !in t.mailbox && s.mailbox[n].key == key && t.active[key] == Active(s.mailbox[n], 0))
  {
    var freed := Finished(max, s, key, eligible, true);
    var t := Dispatched(max, freed, eligible);
    var window := Front(max, freed.mailbox);
    FrontOk(max, freed.mailbox);
    RestWalked(max, freed, window, {}, eligible, t, 0, 0);
    if key in t.active {
      NewFromMail(max, freed, window, {}, eligible, t, key);
    }
  }
}
