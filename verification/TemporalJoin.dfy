/** The temporal join: probes wait for the frontier, take the version as of their time, and versions are compacted behind it. */
module TemporalJoin {
  import opened Wrappers
  import opened Keys
  import opened FloatOrder
  import opened CandidateKeys

  type Name = string
  type Payload = string

  /** A change of a versioned key; a removal hides the key from its time on. */
  datatype Version = Version(key: Name, time: real, sequence: nat, addition: bool, value: Payload)

  datatype Probe = Probe(id: nat, key: Name, time: real, value: Payload)

  datatype Output = Output(probe: Probe, version: Option<Version>)

  /** How far both inputs are complete: not at all, up to a time, or for good. */
  datatype Frontier = Unknown | Until(time: real) | Forever

  type Versions = map<nat, Version>

  predicate Reaches(f: Frontier, t: real) {
    f.Forever? || (f.Until? && t <= f.time)
  }

  predicate Advances(f: Frontier, g: Frontier) {
    f.Unknown? || g.Forever? || (f.Until? && g.Until? && f.time <= g.time)
  }

  /** Later time first; within a time the later record. */
  predicate Newer(a: Version, b: Version) {
    a.time > b.time || (a.time == b.time && a.sequence > b.sequence)
  }

  predicate Eligible(v: Version, key: Name, t: real) {
    v.key == key && v.time <= t
  }

  /** `n` is the version of a key that is current as of `t`. */
  ghost predicate IsLatest(versions: Versions, key: Name, t: real, n: nat) {
    && n in versions && Eligible(versions[n], key, t)
    && forall m :: m in versions && Eligible(versions[m], key, t) && m != n ==> Newer(versions[n], versions[m])
  }

  ghost predicate NoneEligible(versions: Versions, key: Name, t: real) {
    forall m :: m in versions ==> !Eligible(versions[m], key, t)
  }

  /** Every version is stored under its own sequence number. */
  ghost predicate Numbered(versions: Versions) {
    forall n :: n in versions ==> versions[n].sequence == n
  }

  /** What a probe sees: the current version unless it is a removal. */
  ghost predicate AsOf(versions: Versions, key: Name, t: real, found: Option<Version>) {
    if NoneEligible(versions, key, t) then found.None?
    else exists n :: IsLatest(versions, key, t, n) && found == if versions[n].addition then Some(versions[n]) else None
  }

  /**
   What a probe sees, exactly: an addition of its key, not after its time, such that no other version of the key up to that
   time is later, nor equally late and later recorded; and nothing exactly if there is no version, or the latest is a removal.
   */
  lemma SeesExactly(versions: Versions, key: Name, t: real, found: Option<Version>)
    requires Numbered(versions) && AsOf(versions, key, t, found)
    ensures found.Some? ==>
              && found.value.sequence in versions && versions[found.value.sequence] == found.value
              && found.value.key == key && found.value.time <= t && found.value.addition
              && forall m :: m in versions && versions[m].key == key && versions[m].time <= t ==>
                   versions[m].time < found.value.time || (versions[m].time == found.value.time && m <= found.value.sequence)
    ensures found.None? <==>
              forall n :: n in versions && versions[n].key == key && versions[n].time <= t && versions[n].addition ==>
                exists m :: m in versions && versions[m].key == key && versions[m].time <= t
                         && (versions[m].time > versions[n].time || (versions[m].time == versions[n].time && m > n))
  {
    if !NoneEligible(versions, key, t) {
      var n :| IsLatest(versions, key, t, n) && found == if versions[n].addition then Some(versions[n]) else None;
      forall m | m in versions && versions[m].key == key && versions[m].time <= t && m != n ensures Newer(versions[n], versions[m]) {
        assert Eligible(versions[m], key, t);
      }
    }
  }

  lemma LatestUnique(versions: Versions, key: Name, t: real, n: nat, m: nat)
    requires Numbered(versions) && IsLatest(versions, key, t, n) && IsLatest(versions, key, t, m)
    ensures n == m
  {
  }

  lemma {:induction false} LatestExists(versions: Versions, key: Name, t: real) returns (n: nat)
    requires Numbered(versions) && !NoneEligible(versions, key, t)
    ensures IsLatest(versions, key, t, n)
    decreases |versions|
  {
    var m :| m in versions && Eligible(versions[m], key, t);
    var rest := versions - {m};
    if NoneEligible(rest, key, t) {
      n := m;
      assert forall k :: k in versions && k != m ==> k in rest;
    } else {
      var k := LatestExists(rest, key, t);
      n := if Newer(versions[m], versions[k]) then m else k;
      forall j | j in versions && Eligible(versions[j], key, t) && j != n ensures Newer(versions[n], versions[j]) {
        if j != m { assert j in rest; }
      }
    }
  }

  lemma AsOfUnique(versions: Versions, key: Name, t: real, a: Option<Version>, b: Option<Version>)
    requires Numbered(versions) && AsOf(versions, key, t, a) && AsOf(versions, key, t, b)
    ensures a == b
  {
    if !NoneEligible(versions, key, t) {
      var n :| IsLatest(versions, key, t, n) && a == if versions[n].addition then Some(versions[n]) else None;
      var m :| IsLatest(versions, key, t, m) && b == if versions[m].addition then Some(versions[m]) else None;
      LatestUnique(versions, key, t, n, m);
    }
  }

  // ---------------------------------------------------------------------------
  // Compaction

  /** A version stays if it is newer than the frontier, or current at it. */
  ghost predicate Stays(versions: Versions, f: Frontier, n: nat) {
    && n in versions && !f.Forever?
    && (f.Until? && versions[n].time <= f.time ==> IsLatest(versions, versions[n].key, f.time, n))
  }

  ghost function Compacted(versions: Versions, f: Frontier): Versions {
    map n | n in versions && Stays(versions, f, n) :: versions[n]
  }

  /**
   What compaction keeps, exactly: what is newer than the frontier, and of the older versions of each key the one that no
   other older version outdates; everything without a frontier, and nothing past the end.
   */
  lemma CompactedExactly(versions: Versions, f: Frontier, n: nat)
    ensures n in Compacted(versions, f) <==>
              && n in versions && !f.Forever?
              && (f.Until? && versions[n].time <= f.time ==>
                    forall m :: m in versions && m != n && versions[m].key == versions[n].key && versions[m].time <= f.time ==>
                      versions[m].time < versions[n].time
                      || (versions[m].time == versions[n].time && versions[m].sequence < versions[n].sequence))
    ensures n in Compacted(versions, f) ==> Compacted(versions, f)[n] == versions[n]
  {
    if n in versions && f.Until? && versions[n].time <= f.time && IsLatest(versions, versions[n].key, f.time, n) {
      forall m | m in versions && m != n && versions[m].key == versions[n].key && versions[m].time <= f.time ensures Newer(versions[n], versions[m]) {
        assert Eligible(versions[m], versions[n].key, f.time);
      }
    }
  }

  /** Two stores answer alike at every time the frontier has not passed, and at the frontier itself. */
  ghost predicate AgreeAt(a: Versions, b: Versions, key: Name, t: real) {
    forall n :: IsLatest(a, key, t, n) <==> IsLatest(b, key, t, n)
  }

  ghost predicate Beyond(f: Frontier, t: real) {
    f.Unknown? || (f.Until? && f.time <= t)
  }

  ghost predicate Agree(stored: Versions, history: Versions, f: Frontier) {
    && (forall n :: n in stored ==> n in history && stored[n] == history[n])
    && (forall key, t :: Beyond(f, t) ==> AgreeAt(stored, history, key, t))
    && (forall key, t :: Beyond(f, t) ==> (NoneEligible(stored, key, t) <==> NoneEligible(history, key, t)))
  }

  lemma CompactionAgrees(versions: Versions, f: Frontier, key: Name, t: real)
    requires Numbered(versions) && Beyond(f, t)
    ensures AgreeAt(Compacted(versions, f), versions, key, t)
    ensures NoneEligible(Compacted(versions, f), key, t) <==> NoneEligible(versions, key, t)
  {
    var small := Compacted(versions, f);
    if !NoneEligible(versions, key, t) {
      var n := LatestExists(versions, key, t);
      if f.Until? && versions[n].time <= f.time {
        assert IsLatest(versions, key, f.time, n);
      }
      assert n in small;
      assert IsLatest(small, key, t, n);
      forall m ensures IsLatest(small, key, t, m) <==> IsLatest(versions, key, t, m) {
        if IsLatest(small, key, t, m) { LatestUnique(small, key, t, n, m); }
        if IsLatest(versions, key, t, m) { LatestUnique(versions, key, t, n, m); }
      }
    }
  }

  /** Compacting what already agrees keeps agreeing at later times. */
  lemma CompactAgain(stored: Versions, history: Versions, f: Frontier, g: Frontier)
    requires Numbered(history) && Agree(stored, history, f) && Advances(f, g)
    ensures Agree(Compacted(stored, g), history, g)
  {
    var small := Compacted(stored, g);
    forall key, t | Beyond(g, t) ensures AgreeAt(small, history, key, t) && (NoneEligible(small, key, t) <==> NoneEligible(history, key, t)) {
      CompactionAgrees(stored, g, key, t);
      assert Beyond(f, t);
      assert AgreeAt(stored, history, key, t);
    }
  }

  /** A version that arrives beyond the frontier joins both. */
  lemma ArrivalAgrees(stored: Versions, history: Versions, f: Frontier, v: Version)
    requires Numbered(history) && Agree(stored, history, f) && v.sequence !in history && !Reaches(f, v.time)
    ensures Numbered(history[v.sequence := v]) && Agree(stored[v.sequence := v], history[v.sequence := v], f)
  {
    var a, b := stored[v.sequence := v], history[v.sequence := v];
    forall key, t | Beyond(f, t)
      ensures AgreeAt(a, b, key, t) && (NoneEligible(a, key, t) <==> NoneEligible(b, key, t))
    {
      assert AgreeAt(stored, history, key, t);
      assert NoneEligible(stored, key, t) <==> NoneEligible(history, key, t);
      ArrivalAt(stored, history, v, key, t);
    }
  }

  lemma ArrivalAt(stored: Versions, history: Versions, v: Version, key: Name, t: real)
    requires Numbered(history) && v.sequence !in history && (forall n :: n in stored ==> n in history && stored[n] == history[n])
    requires AgreeAt(stored, history, key, t) && (NoneEligible(stored, key, t) <==> NoneEligible(history, key, t))
    ensures AgreeAt(stored[v.sequence := v], history[v.sequence := v], key, t)
    ensures NoneEligible(stored[v.sequence := v], key, t) <==> NoneEligible(history[v.sequence := v], key, t)
  {
    LatestWith(stored, v, key, t);
    LatestWith(history, v, key, t);
    if !NoneEligible(history, key, t) {
      var n := LatestExists(history, key, t);
      assert IsLatest(stored, key, t, n) && stored[n] == history[n];
    }
    EligibleWith(stored, v, key, t);
    EligibleWith(history, v, key, t);
  }

  lemma EligibleWith(versions: Versions, v: Version, key: Name, t: real)
    requires v.sequence !in versions
    ensures NoneEligible(versions[v.sequence := v], key, t) <==> NoneEligible(versions, key, t) && !Eligible(v, key, t)
  {
    var more := versions[v.sequence := v];
    assert v.sequence in more && more[v.sequence] == v;
    assert forall n :: n in versions ==> n in more && more[n] == versions[n];
  }

  /** The current version after an arrival: the arrival if it is newer, else the one before. */
  lemma LatestWith(versions: Versions, v: Version, key: Name, t: real)
    requires Numbered(versions) && v.sequence !in versions
    ensures var more := versions[v.sequence := v];
            forall n :: IsLatest(more, key, t, n) <==>
              if NoneEligible(versions, key, t) then n == v.sequence && Eligible(v, key, t)
              else if Eligible(v, key, t) && (forall m :: IsLatest(versions, key, t, m) ==> Newer(v, versions[m])) then n == v.sequence
              else IsLatest(versions, key, t, n)
  {
    var more := versions[v.sequence := v];
    assert forall n :: n in versions ==> n in more && more[n] == versions[n];
    if !NoneEligible(versions, key, t) {
      var k := LatestExists(versions, key, t);
      forall m | IsLatest(versions, key, t, m) ensures m == k {
        LatestUnique(versions, key, t, m, k);
      }
    }
  }

  // ---------------------------------------------------------------------------
  // The operator

  class TemporalJoinOperator {
    const left: bool
    var versions: Versions
    var probes: map<nat, Probe>
    var outputs: map<nat, Output>
    var changes: seq<Output>
    var frontier: Frontier
    ghost var history: Versions
    ghost var arrived: map<nat, Probe>
    ghost var withdrawn: set<nat>

    /**
     Every probe that arrived is emitted once the frontier reaches it, with the version that all versions ever received give
     it, unless it was withdrawn before; what is stored still answers every later probe as the whole history would; and
     the change log holds exactly the outputs that downstream is to see, each once.
     */
    ghost predicate Valid()
      reads this
    {
      && Numbered(history) && Agree(versions, history, frontier)
      && Placed(outputs, probes, arrived, withdrawn, history, frontier, frontier)
      && Logged(left, outputs, changes)
    }

    constructor (left: bool)
      ensures Valid() && this.left == left && history == map[] && arrived == map[] && frontier == Unknown
      ensures outputs == map[] && changes == []
    {
      this.left := left;
      versions, probes, outputs, changes, frontier := map[], map[], map[], [], Unknown;
      history, arrived, withdrawn := map[], map[], {};
    }

    /** A version beyond the frontier. */
    method IndexVersion(v: Version)
      requires Valid() && v.sequence !in history && !Reaches(frontier, v.time)
      modifies this`versions, this`history
      ensures Valid() && history == old(history)[v.sequence := v]
    {
      ArrivalAgrees(versions, history, frontier, v);
      forall n | n in outputs ensures Emitted(n, outputs, arrived, history[v.sequence := v], frontier) {
        LateArrival(history, v, outputs[n], frontier);
      }
      versions := versions[v.sequence := v];
      history := history[v.sequence := v];
    }

    /** A probe beyond the frontier waits. */
    method IndexProbe(p: Probe)
      requires Valid() && p.id !in arrived && p.id !in probes && p.id !in outputs && p.id !in withdrawn && !Reaches(frontier, p.time)
      modifies this`probes, this`arrived
      ensures Valid() && arrived == old(arrived)[p.id := p]
    {
      probes := probes[p.id := p];
      arrived := arrived[p.id := p];
    }

    /** A retraction withdraws a waiting probe of the same key, time and value, if there is one. */
    method RetractProbe(key: Name, time: real, value: Payload) returns (found: Option<nat>)
      requires Valid()
      modifies this`probes, this`withdrawn
      ensures Valid()
      ensures found.None? ==>
                && probes == old(probes)
                && forall n :: n in probes ==> probes[n].key != key || probes[n].time != time || probes[n].value != value
      ensures found.Some? ==>
                && found.value in old(probes) && probes == old(probes) - {found.value}
                && old(probes)[found.value] == Probe(old(probes)[found.value].id, key, time, value)
      ensures withdrawn == old(withdrawn) + (if found.Some? then {found.value} else {})
    {
      var todo := probes.Keys;
      found := None;
      while todo != {}
        invariant todo <= probes.Keys && forall n :: n in probes && n !in todo ==> !Matches(probes[n], key, time, value)
        decreases |todo|
      {
        var n :| n in todo;
        todo := todo - {n};
        if Matches(probes[n], key, time, value) {
          probes := probes - {n};
          withdrawn := withdrawn + {n};
          return Some(n);
        }
      }
    }

    /** The current version of a key as of a time, among what is stored. */
    method LatestVersion(key: Name, t: real) returns (found: Option<Version>)
      requires Numbered(versions)
      ensures AsOf(versions, key, t, found)
    {
      var best: Option<nat> := None;
      var todo := versions.Keys;
      while todo != {}
        invariant todo <= versions.Keys
        invariant best.None? ==> forall m :: m in versions && m !in todo ==> !Eligible(versions[m], key, t)
        invariant best.Some? ==> best.value in versions && Eligible(versions[best.value], key, t)
        invariant best.Some? ==> forall m :: m in versions && m !in todo && Eligible(versions[m], key, t) && m != best.value ==> Newer(versions[best.value], versions[m])
        decreases |todo|
      {
        var n :| n in todo;
        todo := todo - {n};
        if Eligible(versions[n], key, t) && (best.None? || Newer(versions[n], versions[best.value])) {
          best := Some(n);
        }
      }
      if best.None? { return None; }
      assert IsLatest(versions, key, t, best.value);
      return if versions[best.value].addition then Some(versions[best.value]) else None;
    }

    /** Emits every probe the new frontier reaches, then compacts the versions behind it. */
    method Refresh(f: Frontier)
      requires Valid() && Advances(frontier, f)
      modifies this
      ensures Valid() && frontier == f && history == old(history) && arrived == old(arrived) && withdrawn == old(withdrawn)
      ensures forall n :: n in old(probes) ==>
                if f.Forever? || (f.Until? && old(probes)[n].time <= f.time) then n in outputs else n in probes
      ensures forall n :: n in outputs ==> n in old(outputs) || n in old(probes)
      ensures Kept(old(outputs), outputs) && old(changes) <= changes
    {
      EmitDue(f);
      AgreeNumbered(versions, history, frontier);
      CompactAgain(versions, history, frontier, f);
      Cleanup(f);
      frontier := f;
    }

    /** Emits each waiting probe that `f` reaches, once, and leaves the others waiting. */
    method EmitDue(f: Frontier)
      requires Valid() && Advances(frontier, f)
      modifies this`probes, this`outputs, this`changes
      ensures Placed(outputs, probes, arrived, withdrawn, history, frontier, f) && Logged(left, outputs, changes)
      ensures Emptied(old(probes), old(outputs), old(changes), probes, outputs, changes, f)
      ensures forall n :: n in probes ==> !Reaches(f, probes[n].time)
    {
      var due := set n | n in probes && Reaches(f, probes[n].time);
      AgreeNumbered(versions, history, frontier);
      PlacedLater(outputs, probes, arrived, withdrawn, history, frontier, f);
      while due != {}
        invariant due <= probes.Keys
        invariant Placed(outputs, probes, arrived, withdrawn, history, frontier, f) && Logged(left, outputs, changes)
        invariant Emptied(old(probes), old(outputs), old(changes), probes, outputs, changes, f)
        invariant forall n :: n in due <==> n in probes && Reaches(f, probes[n].time)
        decreases |due|
      {
        var n :| n in due;
        due := due - {n};
        ghost var probes0, outputs0, changes0 := probes, outputs, changes;
        EmitProbe(n, f);
        EmptiesProbe(n, outputs[n], old(probes), old(outputs), old(changes), probes0, outputs0, changes0, changes, f);
      }
    }

    method EmitProbe(n: nat, f: Frontier)
      requires Numbered(history) && Numbered(versions) && Agree(versions, history, frontier)
      requires Placed(outputs, probes, arrived, withdrawn, history, frontier, f) && Logged(left, outputs, changes)
      requires n in probes && Reaches(f, probes[n].time)
      modifies this`probes, this`outputs, this`changes
      ensures Placed(outputs, probes, arrived, withdrawn, history, frontier, f) && Logged(left, outputs, changes)
      ensures n !in old(outputs)
      ensures probes == old(probes) - {n}
      ensures n in outputs && outputs == old(outputs)[n := outputs[n]] && outputs[n].probe == old(probes)[n]
      ensures AsOf(history, outputs[n].probe.key, outputs[n].probe.time, outputs[n].version)
      ensures changes == if left || outputs[n].version.Some? then old(changes) + [outputs[n]] else old(changes)
    {
      var probe := probes[n];
      var version := LatestVersion(probe.key, probe.time);
      AgreeAnswers(versions, history, frontier, probe.key, probe.time, version);
      var output := Output(probe, version);
      ghost var outputs0, changes0 := outputs, changes;
      PlacesOutput(n, output, outputs, probes, arrived, withdrawn, history, frontier, f);
      outputs := outputs[n := output];
      if left || version.Some? {
        changes := changes + [output];
      }
      LogsOutput(left, n, output, outputs0, changes0, outputs, changes);
      probes := probes - {n};
    }

    /** Per key, keeps what is newer than the frontier and the one version current at it; past the end it keeps nothing. */
    method Cleanup(f: Frontier)
      requires Numbered(versions)
      modifies this`versions
      ensures versions == Compacted(old(versions), f)
    {
      if f.Forever? {
        versions := map[];
        return;
      }
      if f.Unknown? {
        assert Compacted(versions, f) == versions;
        return;
      }
      ghost var all := versions;
      var keys := set n | n in versions :: versions[n].key;
      var kept := versions;
      while keys != {}
        invariant versions == all && forall n :: n in kept ==> n in all && kept[n] == all[n]
        invariant forall n :: n in all ==> (n in kept <==> all[n].key in keys || Stays(all, f, n))
        decreases |keys|
      {
        var key :| key in keys;
        keys := keys - {key};
        var retain := Retained(key, f.time);
        kept := map n | n in kept && !(kept[n].key == key && kept[n].time <= f.time && n != retain) :: kept[n];
      }
      versions := kept;
    }

    /** The last version of a key at or before the frontier. */
    method Retained(key: Name, t: real) returns (n: nat)
      requires Numbered(versions)
      ensures !NoneEligible(versions, key, t) ==> IsLatest(versions, key, t, n)
      ensures forall m :: m in versions && Eligible(versions[m], key, t) ==> (IsLatest(versions, key, t, m) <==> m == n)
    {
      n := 0;
      var found := false;
      var todo := versions.Keys;
      while todo != {}
        invariant todo <= versions.Keys
        invariant !found ==> forall m :: m in versions && m !in todo ==> !Eligible(versions[m], key, t)
        invariant found ==> n in versions && Eligible(versions[n], key, t)
        invariant found ==> forall m :: m in versions && m !in todo && Eligible(versions[m], key, t) && m != n ==> Newer(versions[n], versions[m])
        decreases |todo|
      {
        var m :| m in todo;
        todo := todo - {m};
        if Eligible(versions[m], key, t) && (!found || Newer(versions[m], versions[n])) {
          n, found := m, true;
        }
      }
      if found {
        assert IsLatest(versions, key, t, n);
        forall m | IsLatest(versions, key, t, m) ensures m == n {
          LatestUnique(versions, key, t, m, n);
        }
      }
    }
  }

  predicate Matches(p: Probe, key: Name, time: real, value: Payload) {
    p.key == key && p.time == time && p.value == value
  }

  ghost predicate Waiting(n: nat, probes: map<nat, Probe>, arrived: map<nat, Probe>, f: Frontier) {
    n in probes ==> n in arrived && arrived[n] == probes[n] && probes[n].id == n && !Reaches(f, probes[n].time)
  }

  /** Each probe is in one place, and each emitted one is reached by `f` and answered by the whole history. */
  ghost predicate Placed(outputs: map<nat, Output>, probes: map<nat, Probe>, arrived: map<nat, Probe>, withdrawn: set<nat>,
                         history: Versions, frontier: Frontier, f: Frontier)
  {
    && (forall n :: n in outputs ==> Emitted(n, outputs, arrived, history, f))
    && (forall n :: n in probes ==> Waiting(n, probes, arrived, frontier))
    && (forall n :: n in arrived ==> n in outputs || n in probes || n in withdrawn)
    && outputs.Keys !! probes.Keys && outputs.Keys !! withdrawn && probes.Keys !! withdrawn
  }

  lemma PlacedLater(outputs: map<nat, Output>, probes: map<nat, Probe>, arrived: map<nat, Probe>, withdrawn: set<nat>,
                    history: Versions, frontier: Frontier, f: Frontier)
    requires Placed(outputs, probes, arrived, withdrawn, history, frontier, frontier) && Advances(frontier, f)
    ensures Placed(outputs, probes, arrived, withdrawn, history, frontier, f)
  {
    forall n | n in outputs ensures Emitted(n, outputs, arrived, history, f) {
      assert Emitted(n, outputs, arrived, history, frontier);
    }
  }

  lemma PlacesOutput(n: nat, o: Output, outputs: map<nat, Output>, probes: map<nat, Probe>, arrived: map<nat, Probe>,
                     withdrawn: set<nat>, history: Versions, frontier: Frontier, f: Frontier)
    requires Placed(outputs, probes, arrived, withdrawn, history, frontier, f)
    requires n in probes && o.probe == probes[n] && Reaches(f, o.probe.time) && AsOf(history, o.probe.key, o.probe.time, o.version)
    ensures Placed(outputs[n := o], probes - {n}, arrived, withdrawn, history, frontier, f)
  {
    assert Waiting(n, probes, arrived, frontier);
    forall m | m in outputs ensures Emitted(m, outputs[n := o], arrived, history, f) {
      assert Emitted(m, outputs, arrived, history, f);
    }
    forall m | m in probes - {n} ensures Waiting(m, probes - {n}, arrived, frontier) {
      assert Waiting(m, probes, arrived, frontier);
    }
  }

  /** From the first state to the second only waiting probes that `f` reaches became outputs, and the log only grew. */
  ghost predicate Emptied(probes0: map<nat, Probe>, outputs0: map<nat, Output>, changes0: seq<Output>,
                          probes: map<nat, Probe>, outputs: map<nat, Output>, changes: seq<Output>, f: Frontier)
  {
    && (forall n :: n in probes ==> n in probes0 && probes[n] == probes0[n])
    && (forall n :: n in probes0 ==> n in probes || (n in outputs && Reaches(f, probes0[n].time)))
    && (forall n :: n in outputs ==> n in outputs0 || n in probes0)
    && Kept(outputs0, outputs) && changes0 <= changes
  }

  lemma EmptiesProbe(n: nat, o: Output, probes0: map<nat, Probe>, outputs0: map<nat, Output>, changes0: seq<Output>,
                     probes: map<nat, Probe>, outputs: map<nat, Output>, changes: seq<Output>, changes': seq<Output>, f: Frontier)
    requires Emptied(probes0, outputs0, changes0, probes, outputs, changes, f) && changes <= changes'
    requires n in probes && n !in outputs && Reaches(f, probes[n].time)
    ensures Emptied(probes0, outputs0, changes0, probes - {n}, outputs[n := o], changes', f)
  {
    assert forall m :: m in outputs ==> m in outputs[n := o];
  }

  /** No output is lost or rewritten. */
  ghost predicate Kept(before: map<nat, Output>, after: map<nat, Output>) {
    forall n :: n in before ==> n in after && after[n] == before[n]
  }

  /**
   The change log lists, each exactly once, the outputs of a left join, or those of an inner join that found a version,
   and nothing else.
   */
  ghost predicate Logged(left: bool, outputs: map<nat, Output>, changes: seq<Output>) {
    && (forall n :: n in outputs ==> outputs[n].probe.id == n)
    && (forall n :: n in outputs && (left || outputs[n].version.Some?) ==> outputs[n] in changes)
    && (forall i :: 0 <= i < |changes| ==> InLog(left, outputs, changes[i]))
    && (forall i, j :: 0 <= i < j < |changes| ==> changes[i].probe.id != changes[j].probe.id)
  }

  ghost predicate InLog(left: bool, outputs: map<nat, Output>, o: Output) {
    o.probe.id in outputs && outputs[o.probe.id] == o && (left || o.version.Some?)
  }

  lemma LogsOutput(left: bool, n: nat, o: Output, outputs: map<nat, Output>, changes: seq<Output>, outputs': map<nat, Output>, changes': seq<Output>)
    requires Logged(left, outputs, changes) && n !in outputs && o.probe.id == n
    requires outputs' == outputs[n := o] && changes' == if left || o.version.Some? then changes + [o] else changes
    ensures Logged(left, outputs', changes') && Kept(outputs, outputs') && changes <= changes'
  {
    assert o in changes + [o] by { assert (changes + [o])[|changes|] == o; }
    forall m | m in outputs' && (left || outputs'[m].version.Some?) ensures outputs'[m] in changes' {
      if m != n { assert outputs[m] in changes; }
    }
    forall i | 0 <= i < |changes'| ensures InLog(left, outputs', changes'[i]) {
      if i < |changes| { assert InLog(left, outputs, changes[i]); }
    }
    forall i, j | 0 <= i < j < |changes'| ensures changes'[i].probe.id != changes'[j].probe.id {
      assert InLog(left, outputs, changes[i]);
    }
  }

  ghost predicate Emitted(n: nat, outputs: map<nat, Output>, arrived: map<nat, Probe>, history: Versions, f: Frontier) {
    n in outputs ==>
      && n in arrived && outputs[n].probe == arrived[n] && Reaches(f, outputs[n].probe.time)
      && AsOf(history, outputs[n].probe.key, outputs[n].probe.time, outputs[n].version)
  }

  lemma AgreeNumbered(stored: Versions, history: Versions, f: Frontier)
    requires Numbered(history) && Agree(stored, history, f)
    ensures Numbered(stored)
  {
  }

  /** Where two stores agree they answer a probe alike. */
  lemma AgreeAnswers(stored: Versions, history: Versions, f: Frontier, key: Name, t: real, found: Option<Version>)
    requires Numbered(history) && Agree(stored, history, f) && !Reaches(f, t) && AsOf(stored, key, t, found)
    ensures AsOf(history, key, t, found)
  {
    assert Beyond(f, t);
    assert AgreeAt(stored, history, key, t);
  }

  /** A version that arrives beyond the frontier changes no answer the frontier has reached. */
  lemma LateArrival(history: Versions, v: Version, o: Output, f: Frontier)
    requires Numbered(history) && v.sequence !in history && !Reaches(f, v.time) && Reaches(f, o.probe.time)
    requires AsOf(history, o.probe.key, o.probe.time, o.version)
    ensures AsOf(history[v.sequence := v], o.probe.key, o.probe.time, o.version)
  {
    var key, t := o.probe.key, o.probe.time;
    var more := history[v.sequence := v];
    EligibleWith(history, v, key, t);
    LatestWith(history, v, key, t);
    if !NoneEligible(history, key, t) {
      var n :| IsLatest(history, key, t, n) && o.version == if history[n].addition then Some(history[n]) else None;
      assert IsLatest(more, key, t, n) && more[n] == history[n];
    }
  }

  // ---------------------------------------------------------------------------
  // The stored order of versions

  /** Ten is the base of the sequence part, written with a fixed number of digits. */
  function DecimalNumber(v: nat, width: nat): (s: string)
    ensures |s| == width
  {
    if width == 0 then "" else DecimalNumber(v / 10, width - 1) + [Digit(v % 10)]
  }

  function Power10(n: nat): nat {
    if n == 0 then 1 else 10 * Power10(n - 1)
  }

  lemma {:induction false} DecimalOrder(a: nat, b: nat, width: nat)
    requires a < b < Power10(width)
    ensures Below1(DecimalNumber(a, width), DecimalNumber(b, width))
    decreases width
  {
    if a / 10 < b / 10 {
      DecimalOrder(a / 10, b / 10, width - 1);
      BelowStays(DecimalNumber(a / 10, width - 1), DecimalNumber(b / 10, width - 1), [Digit(a % 10)], [Digit(b % 10)]);
    } else {
      DigitOrder(a % 10, b % 10);
      BelowAfter(DecimalNumber(a / 10, width - 1), [Digit(a % 10)], [Digit(b % 10)]);
    }
  }

  /** A version's key: sixteen digits for its time, a slash, twenty digits for its sequence. */
  function VersionKey(prefix: string, time: nat, sequence: nat): Key
    requires time <= ALL
  {
    OrderedIsInjective(time, time);
    prefix + (HexNumber(OrderedBits(time), 16) + ("/" + DecimalNumber(sequence, 20)))
  }

  lemma TwentyDigits()
    ensures Power10(20) > ALL
  {
    assert Power10(5) == 100000;
    assert Power10(10) == 10000000000;
    assert Power10(15) == 1000000000000000;
  }

  /** The stored order of one key's versions is by time, in the order of floating-point numbers, and then by sequence. */
  lemma VersionKeyOrder(prefix: string, s: nat, m: nat, t: nat, n: nat)
    requires s <= ALL && t <= ALL && m <= ALL && n <= ALL
    ensures Less(VersionKey(prefix, s, m), VersionKey(prefix, t, n)) <==> TotalLess(s, t) || (s == t && m < n)
  {
    OrderedIsTotalOrder(s, t);
    OrderedIsTotalOrder(t, s);
    OrderedIsInjective(s, t);
    OrderedIsInjective(t, s);
    SixteenDigits();
    TwentyDigits();
    var x, y := HexNumber(OrderedBits(s), 16), HexNumber(OrderedBits(t), 16);
    var i, j := DecimalNumber(m, 20), DecimalNumber(n, 20);
    LessAfterPrefix(prefix, x + ("/" + i), y + ("/" + j));
    if OrderedBits(s) < OrderedBits(t) {
      HexOrder(OrderedBits(s), OrderedBits(t), 16);
      BelowStays(x, y, "/" + i, "/" + j);
    } else if OrderedBits(t) < OrderedBits(s) {
      HexOrder(OrderedBits(t), OrderedBits(s), 16);
      BelowStays(y, x, "/" + j, "/" + i);
      LessAsymmetric(y + ("/" + j), x + ("/" + i));
    } else {
      LessAfterPrefix(x, "/" + i, "/" + j);
      LessAfterPrefix("/", i, j);
      SequenceOrder(m, n);
    }
  }

  lemma SequenceOrder(m: nat, n: nat)
    requires m <= ALL && n <= ALL
    ensures Less(DecimalNumber(m, 20), DecimalNumber(n, 20)) <==> m < n
  {
    TwentyDigits();
    var i, j := DecimalNumber(m, 20), DecimalNumber(n, 20);
    if m < n {
      DecimalOrder(m, n, 20);
      BelowStays(i, j, "", "");
      assert i + "" == i && j + "" == j;
    } else if n < m {
      DecimalOrder(n, m, 20);
      BelowStays(j, i, "", "");
      assert i + "" == i && j + "" == j;
      LessAsymmetric(j, i);
    } else {
      LessIrreflexive(i);
    }
  }
}
