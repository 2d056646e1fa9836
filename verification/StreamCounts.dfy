/** The counters of a stream-fed process are exact in every run, so subtracting from them never stops at zero. */
module StreamCounts {
  import opened Wrappers
  import opened Sequences
  import opened ProcessShard
  import opened StreamDispatch

  function Untried(active: map<Name, Active>): set<Name> {
    set k | k in active.Keys && active[k].attempt == 0
  }

  function Tried(active: map<Name, Active>): set<Name> {
    set k | k in active.Keys && active[k].attempt > 0
  }

  /** Each counter is the number of what it stands for, and no more run first attempts than may. */
  ghost predicate CountsTrue(max: nat, s: Mailbox) {
    && s.pending == |s.mailbox.Keys|
    && s.running == |Untried(s.active)| <= max
    && s.retrying == |Tried(s.active)|
  }

  lemma OneLess<T>(s: set<T>, x: T)
    ensures |s - {x}| == |s| - if x in s then 1 else 0
  {
    if x !in s { assert s - {x} == s; }
  }

  lemma OneMore<T>(s: set<T>, x: T)
    requires x !in s
    ensures |s + {x}| == |s| + 1
  {
  }

  lemma Without(active: map<Name, Active>, key: Name)
    ensures Untried(active - {key}) == Untried(active) - {key} && Tried(active - {key}) == Tried(active) - {key}
  {
  }

  lemma With(active: map<Name, Active>, key: Name, a: Active)
    ensures Untried(active[key := a]) == if a.attempt == 0 then Untried(active) + {key} else Untried(active) - {key}
    ensures Tried(active[key := a]) == if a.attempt == 0 then Tried(active) - {key} else Tried(active) + {key}
  {
  }

  /** Starting a waiting event takes one from the pending ones. */
  lemma StartedExact(max: nat, s: Mailbox, n: nat)
    requires CountsTrue(max, s) && n in s.mailbox && s.mailbox[n].key !in s.active && s.running < max
    ensures s.pending >= 1 && Started(s, n).pending == s.pending - 1
    ensures CountsTrue(max, Started(s, n))
  {
    var key := s.mailbox[n].key;
    OneLess(s.mailbox.Keys, n);
    assert (s.mailbox - {n}).Keys == s.mailbox.Keys - {n};
    With(s.active, key, Active(s.mailbox[n], 0));
    OneMore(Untried(s.active), key);
    OneLess(Tried(s.active), key);
  }

  lemma {:induction false} RestExact(max: nat, s: Mailbox, window: seq<nat>, seen: set<Name>, eligible: set<nat>)
    requires CountsTrue(max, s)
    ensures CountsTrue(max, DispatchRest(max, s, window, seen, eligible))
    decreases |window|
  {
    if window != [] && s.running < max && window[0] in s.mailbox {
      var n := window[0];
      var r := s.mailbox[n];
      if r.key in seen || r.key in s.active || n !in eligible {
        RestExact(max, s, window[1..], seen + {r.key}, eligible);
      } else {
        StartedExact(max, s, n);
        RestExact(max, Started(s, n), window[1..], seen + {r.key}, eligible);
      }
    }
  }

  /** A finished execution frees the slot it was counted in. */
  lemma FinishedExact(max: nat, s: Mailbox, key: Name, eligible: set<nat>)
    requires CountsTrue(max, s) && key in s.active
    ensures s.active[key].attempt == 0 ==> s.running >= 1
    ensures s.active[key].attempt > 0 ==> s.retrying >= 1
    ensures CountsTrue(max, Finished(max, s, key, eligible, true))
  {
    Without(s.active, key);
    OneLess(Untried(s.active), key);
    OneLess(Tried(s.active), key);
  }

  /** A first charge moves an execution from the running to the retrying ones. */
  lemma ChargedExact(max: nat, s: Mailbox, key: Name)
    requires CountsTrue(max, s) && key in s.active
    ensures s.active[key].attempt == 0 ==> s.running >= 1
    ensures CountsTrue(max, Charged(s, key))
  {
    var a := s.active[key];
    RetriedCounts(s.active, key, a.(attempt := a.attempt + 1));
  }

  /** One execution becomes, or stays, a retry. */
  lemma RetriedCounts(active: map<Name, Active>, key: Name, a: Active)
    requires key in active && a.attempt > 0
    ensures |Untried(active[key := a])| == |Untried(active)| - if active[key].attempt == 0 then 1 else 0
    ensures |Tried(active[key := a])| == |Tried(active)| + if active[key].attempt == 0 then 1 else 0
  {
    With(active, key, a);
    OneLess(Untried(active), key);
    if active[key].attempt == 0 {
      OneMore(Tried(active), key);
    } else {
      assert Tried(active) + {key} == Tried(active);
    }
  }

  lemma NotWaiting(mailbox: map<nat, Record>, next: nat, n: nat)
    requires MailNumbered(mailbox, next) && n > next
    ensures n !in mailbox
  {
    assert MailNumber(n, mailbox, next);
  }

  lemma OneWaits(mailbox: map<nat, Record>, n: nat, r: Record)
    requires n !in mailbox
    ensures |mailbox[n := r].Keys| == |mailbox.Keys| + 1
  {
    assert mailbox[n := r].Keys == mailbox.Keys + {n};
  }

  lemma ArrivedExact(max: nat, s: Mailbox, r: Record)
    requires CountsTrue(max, s) && MailNumbered(s.mailbox, s.next) && r.sequence > s.next
    ensures CountsTrue(max, s.(next := r.sequence, mailbox := s.mailbox[r.sequence := r], pending := s.pending + 1))
  {
    NotWaiting(s.mailbox, s.next, r.sequence);
    OneWaits(s.mailbox, r.sequence, r);
  }

  lemma StepExact(max: nat, s: Mailbox, step: Step)
    requires CountsTrue(max, s) && OrderOk(s.starts, s.mailbox, s.next) && Enabled(s, step)
    ensures CountsTrue(max, Apply(max, s, step))
  {
    match step
    case Arrival(r, eligible) =>
      ArrivedExact(max, s, r);
      var t := s.(next := r.sequence, mailbox := s.mailbox[r.sequence := r], pending := s.pending + 1);
      RestExact(max, t, Front(max, t.mailbox), {}, eligible);
    case Finish(key, eligible, _) =>
      if key in s.active {
        FinishedExact(max, s, key, eligible);
        var t := Finished(max, s, key, eligible, true);
        RestExact(max, t, Front(max, t.mailbox), {}, eligible);
      }
    case Refresh(eligible) => RestExact(max, s, Front(max, s.mailbox), {}, eligible);
    case Charge(key) => if key in s.active { ChargedExact(max, s, key); }
  }

  /** In every run the counters are exact. */
  lemma {:induction false} AlwaysExact(max: nat, s: Mailbox, steps: seq<Step>)
    requires CountsTrue(max, s) && OrderOk(s.starts, s.mailbox, s.next) && Runs(max, s, steps)
    ensures CountsTrue(max, Run(max, s, steps))
    decreases |steps|
  {
    if steps != [] {
      StepExact(max, s, steps[0]);
      StepInOrder(max, s, steps[0]);
      AlwaysExact(max, Apply(max, s, steps[0]), steps[1..]);
    }
  }
}
