/** Certain detection: drift that persists is confirmed by one sweep and one confirm cycle, and a
    repaired key leaves with its episode closed once. */
module Detection {
  import opened Events
  import opened Counting
  import opened OracleShard
  import opened Differ
  import opened Sweepers

  ghost predicate DistinctKeys(q: seq<Candidate>) {
    forall i, j :: 0 <= i < j < |q| ==> q[i].Key() != q[j].Key()
  }

  /** What the mutex keeps true between critical sections. */
  ghost predicate Sane(s: Core, max: nat) {
    && |s.queue| <= max
    && s.queued == KeysIn(s.queue)
    && DistinctKeys(s.queue)
    && (forall k :: k in s.confirmed ==> s.confirmed[k].key == k)
  }

  /** Nothing about key k differs between two states. */
  ghost predicate SameFor(k: Key, a: Core, b: Core) {
    && (k in a.queued <==> k in b.queued)
    && (forall c: Candidate :: c.Key() == k ==> (c in a.queue <==> c in b.queue))
    && (k in a.confirmed <==> k in b.confirmed)
    && (k in a.confirmed ==> a.confirmed[k] == b.confirmed[k])
  }

  /** The sweep compares k under a held fence, trusts its expectation, and sees it differ. */
  predicate Disagrees(k: Key, g: Glimpse, opts: Options, now: Time) {
    Comparable(g) && !g.fenced.value.flag.Suspect? && CompareRead(k, g.fenced.value, g.read, opts, now).Some?
  }

  predicate Agrees(k: Key, g: Glimpse, opts: Options, now: Time) {
    Comparable(g) && CompareRead(k, g.fenced.value, g.read, opts, now).None?
  }

  lemma CompareKey(k: Key, e: Record, read: Read, opts: Options, now: Time)
    requires !read.Failed?
    ensures var f := CompareRead(k, e, read, opts, now); f.Some? ==>
      f.value.key == k && f.value.oracleVersion == e.version && f.value.trust == e.flag
  {
  }

  lemma KeysInAppend(q: seq<Candidate>, c: Candidate)
    ensures KeysIn(q + [c]) == KeysIn(q) + {c.Key()}
  {
  }

  /** The sweep would queue k: it sees k differ, and k is neither waiting nor in an episode. */
  predicate Raises(s: Core, k: Key, g: Glimpse, opts: Options, now: Time) {
    k !in s.queued && k !in s.confirmed && Disagrees(k, g, opts, now)
  }

  /** One key of a sweep touches no other key, and adds a candidate only if it raises one. */
  lemma SweepKeyFrame(s: Core, max: nat, j: Key, g: Glimpse, opts: Options, now: Time, w: int)
    requires Sane(s, max)
    ensures var s' := SweepKey(s, max, j, g, opts, now, w);
      Sane(s', max) && forall k :: k != j ==> SameFor(k, s, s')
  {
    if Comparable(g) {
      CompareKey(j, g.fenced.value, g.read, opts, now);
      var f := CompareRead(j, g.fenced.value, g.read, opts, now);
      if f.Some? {
        KeysInAppend(s.queue, Candidate(f.value.(firstSeenAt := now), g.fenced.value.version, now, w));
      }
    }
  }

  lemma SweepKeyGrows(s: Core, max: nat, j: Key, g: Glimpse, opts: Options, now: Time, w: int)
    ensures |SweepKey(s, max, j, g, opts, now, w).queue| <= |s.queue| + One(Raises(s, j, g, opts, now))
  {
    if Comparable(g) {
      CompareKey(j, g.fenced.value, g.read, opts, now);
    }
  }

  lemma {:induction false} SweepKeysFrame(s: Core, max: nat, keys: seq<Key>, see: Key -> Glimpse, opts: Options,
      now: Time, w: int, k: Key)
    requires Sane(s, max) && k !in keys
    ensures var s' := SweepKeys(s, max, keys, see, opts, now, w); Sane(s', max) && SameFor(k, s, s')
    decreases |keys|
  {
    if keys != [] {
      SweepKeyFrame(s, max, keys[0], see(keys[0]), opts, now, w);
      SweepKeysFrame(SweepKey(s, max, keys[0], see(keys[0]), opts, now, w), max, keys[1..], see, opts, now, w, k);
    }
  }

  /** The keys a sweep would queue. Only these take room. */
  ghost function Raised(s: Core, keys: seq<Key>, see: Key -> Glimpse, opts: Options, now: Time): set<Key> {
    set k | k in keys && Raises(s, k, see(k), opts, now)
  }

  lemma RaisedSplit(s: Core, s': Core, keys: seq<Key>, see: Key -> Glimpse, opts: Options, now: Time)
    requires keys != [] && Distinct(keys) && forall k :: k != keys[0] ==> SameFor(k, s, s')
    ensures |Raised(s, keys, see, opts, now)| ==
            |Raised(s', keys[1..], see, opts, now)| + One(Raises(s, keys[0], see(keys[0]), opts, now))
  {
    var k, rest := keys[0], Raised(s', keys[1..], see, opts, now);
    assert forall x :: x in keys <==> x == k || x in keys[1..];
    forall x | x in keys[1..]
      ensures x != k && (Raises(s, x, see(x), opts, now) <==> Raises(s', x, see(x), opts, now))
    {
      var i :| 0 <= i < |keys[1..]| && keys[1..][i] == x;
      assert keys[0] != keys[i + 1];
      assert SameFor(x, s, s');
    }
    assert Raised(s, keys, see, opts, now) == rest + if Raises(s, k, see(k), opts, now) then {k} else {};
  }

  /** A sweep treats k as if it were the only key: some state reached with k untouched, one
      SweepKey on k, and k untouched again. By then only raised keys have joined the queue. */
  lemma {:induction false} SweepReaches(
    s: Core, max: nat, keys: seq<Key>, see: Key -> Glimpse, opts: Options, now: Time, w: int, k: Key)
    returns (mid: Core)
    requires Sane(s, max) && Distinct(keys) && k in keys && forall j :: j in keys ==> !Aborts(see(j))
    ensures Sane(mid, max) && SameFor(k, s, mid)
    ensures |mid.queue| + One(Raises(s, k, see(k), opts, now)) <= |s.queue| + |Raised(s, keys, see, opts, now)|
    ensures SameFor(k, SweepKey(mid, max, k, see(k), opts, now, w), SweepKeys(s, max, keys, see, opts, now, w))
    ensures Sane(SweepKeys(s, max, keys, see, opts, now, w), max)
    decreases |keys|
  {
    if keys[0] == k {
      mid := s;
      SweepKeyFrame(s, max, k, see(k), opts, now, w);
      SweepKeysFrame(SweepKey(s, max, k, see(k), opts, now, w), max, keys[1..], see, opts, now, w, k);
      RaisedIncludes(s, keys, see, opts, now, k);
    } else {
      SweepFirst(s, max, keys, see, opts, now, w, k);
      mid := SweepReaches(SweepKey(s, max, keys[0], see(keys[0]), opts, now, w), max, keys[1..], see, opts, now, w, k);
    }
  }

  lemma RaisedIncludes(s: Core, keys: seq<Key>, see: Key -> Glimpse, opts: Options, now: Time, k: Key)
    requires k in keys
    ensures One(Raises(s, k, see(k), opts, now)) <= |Raised(s, keys, see, opts, now)|
  {
    assert Raises(s, k, see(k), opts, now) ==> k in Raised(s, keys, see, opts, now);
  }

  /** The first key of a sweep leaves k alone and uses up no room meant for the others. */
  lemma SweepFirst(
    s: Core, max: nat, keys: seq<Key>, see: Key -> Glimpse, opts: Options, now: Time, w: int, k: Key)
    requires Sane(s, max) && Distinct(keys) && keys != [] && keys[0] != k
    ensures var s' := SweepKey(s, max, keys[0], see(keys[0]), opts, now, w);
      && Sane(s', max) && SameFor(k, s, s')
      && |s'.queue| + |Raised(s', keys[1..], see, opts, now)| <= |s.queue| + |Raised(s, keys, see, opts, now)|
  {
    SweepKeyFrame(s, max, keys[0], see(keys[0]), opts, now, w);
    SweepKeyGrows(s, max, keys[0], see(keys[0]), opts, now, w);
    RaisedSplit(s, SweepKey(s, max, keys[0], see(keys[0]), opts, now, w), keys, see, opts, now);
  }

  /** A disagreement a sweep sees becomes a candidate stamped with that sweep, if there is room for
      the keys the sweep raises, however many keys it walks. */
  lemma SweepRaises(
    s: Core, max: nat, keys: seq<Key>, see: Key -> Glimpse, opts: Options, now: Time, w: int, k: Key)
    requires Sane(s, max) && Distinct(keys) && k in keys && forall j :: j in keys ==> !Aborts(see(j))
    requires Raises(s, k, see(k), opts, now) && |s.queue| + |Raised(s, keys, see, opts, now)| <= max
    ensures var s', e := SweepKeys(s, max, keys, see, opts, now, w), see(k).fenced.value;
      var f := CompareRead(k, e, see(k).read, opts, now).value.(firstSeenAt := now);
      Sane(s', max) && k !in s'.confirmed && Candidate(f, e.version, now, w) in s'.queue
  {
    var e := see(k).fenced.value;
    CompareKey(k, e, see(k).read, opts, now);
    var f := CompareRead(k, e, see(k).read, opts, now).value.(firstSeenAt := now);
    var mid := SweepReaches(s, max, keys, see, opts, now, w, k);
    assert Candidate(f, e.version, now, w) in SweepKey(mid, max, k, see(k), opts, now, w).queue;
    assert Candidate(f, e.version, now, w).Key() == k;
  }

  // ---------------------------------------------------------------- the confirm cycle

  lemma {:induction false} DueMembers(q: seq<Candidate>, now: Time)
    ensures forall c :: c in Due(q, now) <==> c in q && c.DueAt() <= now
    ensures forall c :: c in NotDue(q, now) <==> c in q && c.DueAt() > now
    ensures |Due(q, now)| + |NotDue(q, now)| == |q|
    ensures multiset(q) == multiset(Due(q, now)) + multiset(NotDue(q, now))
  {
    if q != [] {
      DueMembers(q[1..], now);
      assert q == [q[0]] + q[1..];
    }
  }

  lemma {:induction false} DueOrder(q: seq<Candidate>, now: Time)
    requires DistinctKeys(q)
    ensures DistinctKeys(Due(q, now)) && DistinctKeys(NotDue(q, now))
  {
    if q != [] {
      DueOrder(q[1..], now);
      DueMembers(q[1..], now);
      forall c | c in q[1..]
        ensures c.Key() != q[0].Key()
      {
        var i :| 0 <= i < |q[1..]| && q[1..][i] == c;
        assert q[i + 1] == c;
      }
      DistinctCons(q[0], Due(q[1..], now));
      DistinctCons(q[0], NotDue(q[1..], now));
    }
  }

  lemma DistinctCons(c: Candidate, q: seq<Candidate>)
    ensures DistinctKeys(q) && (forall x :: x in q ==> x.Key() != c.Key()) ==> DistinctKeys([c] + q)
  {
  }

  lemma TakeDueSane(s: Core, max: nat, now: Time)
    requires Sane(s, max)
    ensures Sane(TakeDue(s, now), max)
    ensures KeysIn(Due(s.queue, now)) !! TakeDue(s, now).queued
  {
    DueMembers(s.queue, now);
    DueOrder(s.queue, now);
    var d, n := Due(s.queue, now), NotDue(s.queue, now);
    forall a, b | a in d && b in n
      ensures a.Key() != b.Key()
    {
      var i :| 0 <= i < |s.queue| && s.queue[i] == a;
      var j :| 0 <= j < |s.queue| && s.queue[j] == b;
    }
    assert KeysIn(s.queue) == KeysIn(d) + KeysIn(n);
  }

  lemma ConfirmOneFrame(s: Core, max: nat, c: Candidate, look: Look, opts: Options, now: Time)
    requires Sane(s, max)
    ensures var s' := ConfirmOne(s, c, look, opts, now);
      Sane(s', max) && s'.queue == s.queue && s'.queued == s.queued && forall k :: k != c.Key() ==> SameFor(k, s, s')
  {
  }

  lemma {:induction false} ConfirmAllFrame(s: Core, max: nat, cs: seq<Candidate>, look: Key -> Look, opts: Options,
      now: Time, k: Key)
    requires Sane(s, max) && forall c :: c in cs ==> c.Key() != k
    ensures var s' := ConfirmAll(s, cs, look, opts, now); Sane(s', max) && SameFor(k, s, s')
    decreases |cs|
  {
    if cs != [] {
      ConfirmOneFrame(s, max, cs[0], look(cs[0].Key()), opts, now);
      ConfirmAllFrame(ConfirmOne(s, cs[0], look(cs[0].Key()), opts, now), max, cs[1..], look, opts, now, k);
    }
  }

  /** The cycle decides c as if it were the only candidate. */
  lemma {:induction false} ConfirmReaches(s: Core, max: nat, cs: seq<Candidate>, look: Key -> Look, opts: Options,
      now: Time, c: Candidate)
    returns (mid: Core)
    requires Sane(s, max) && c in cs && DistinctKeys(cs)
    ensures Sane(mid, max) && SameFor(c.Key(), s, mid)
    ensures SameFor(c.Key(), ConfirmOne(mid, c, look(c.Key()), opts, now), ConfirmAll(s, cs, look, opts, now))
    ensures Sane(ConfirmAll(s, cs, look, opts, now), max)
    decreases |cs|
  {
    var s' := ConfirmOne(s, cs[0], look(cs[0].Key()), opts, now);
    ConfirmOneFrame(s, max, cs[0], look(cs[0].Key()), opts, now);
    if cs[0] == c {
      mid := s;
      ConfirmAllFrame(s', max, cs[1..], look, opts, now, c.Key());
    } else {
      mid := ConfirmReaches(s', max, cs[1..], look, opts, now, c);
    }
  }

  /** The re-read sees the same version, trusts it, and still disagrees. */
  predicate StillDisagrees(k: Key, version: nat, look: Look, opts: Options, now: Time) {
    && look.version == Some(version) && !look.read.Failed?
    && look.entry.Some? && look.entry.value.version == version && !look.entry.value.flag.Suspect?
    && CompareRead(k, look.entry.value, look.read, opts, now).Some?
  }

  /** Detection: a trusted key that disagrees at the sweep and again, at the same version, at a
      confirm cycle at least a window later is in Confirmed() after that cycle, with an episode
      that starts at the sweep. */
  lemma PersistentDriftIsConfirmed(
    s0: Core, max: nat, keys: seq<Key>, see: Key -> Glimpse, opts: Options, at: Time, w: int,
    now: Time, look: Key -> Look, version: Key -> Option<nat>, k: Key)
    requires Sane(s0, max) && Distinct(keys) && k in keys && forall j :: j in keys ==> !Aborts(see(j))
    requires Raises(s0, k, see(k), opts, at) && |s0.queue| + |Raised(s0, keys, see, opts, at)| <= max
    requires now >= at + w
    requires StillDisagrees(k, see(k).fenced.value.version, look(k), opts, now)
    requires version(k) == Some(see(k).fenced.value.version)
    ensures var s1 := SweepKeys(s0, max, keys, see, opts, at, w);
      var s2 := ConfirmAll(TakeDue(s1, now), Due(s1.queue, now), look, opts, now);
      var s3 := Prune(s2, version);
      && Sane(s3, max) && k !in s3.queued && k in s3.confirmed
      && s3.confirmed[k].firstSeenAt == at && s3.confirmed[k].confirmedAt == now && s3.confirmed[k].window == w
      && s3.confirmed[k].finding.confirmed && s3.confirmed[k].finding.oracleVersion == see(k).fenced.value.version
  {
    SweepRaises(s0, max, keys, see, opts, at, w, k);
    var s1, e := SweepKeys(s0, max, keys, see, opts, at, w), see(k).fenced.value;
    CompareKey(k, e, see(k).read, opts, at);
    var c := Candidate(CompareRead(k, e, see(k).read, opts, at).value.(firstSeenAt := at), e.version, at, w);
    TakeDueSane(s1, max, now);
    DueMembers(s1.queue, now);
    DueOrder(s1.queue, now);
    CompareKey(k, look(k).entry.value, look(k).read, opts, now);
    assert c.Key() == k && c in Due(s1.queue, now) && k in KeysIn(Due(s1.queue, now));
    var mid := ConfirmReaches(TakeDue(s1, now), max, Due(s1.queue, now), look, opts, now, c);
    assert k in ConfirmOne(mid, c, look(k), opts, now).confirmed;
  }

  /** What a sweep sees of an oracle that stands still while it runs. */
  function SeeAll(records: map<Key, Record>, target: Key -> Read): Key -> Glimpse {
    k => Glimpse(Lookup(records, k), target(k), Lookup(records, k))
  }

  function Versions(records: map<Key, Record>): Key -> Option<nat> {
    k => if k in records then Some(records[k].version) else None
  }

  function LookAll(records: map<Key, Record>, target: Key -> Read): Key -> Look {
    k => Look(Versions(records)(k), target(k), Lookup(records, k))
  }

  /** Detection from the oracle's own answers: a trusted key quiet past its window, untouched since,
      that disagrees at the sweep over the settled keys and at a confirm cycle a window later, is
      confirmed after it. */
  lemma SettledDriftIsDetected(
    s0: Core, max: nat, opts: Options, w: nat, never: nat, k: Key,
    records: map<Key, Record>, target: Key -> Read, keys: seq<Key>, at: Time,
    later: map<Key, Record>, target': Key -> Read, now: Time)
    requires Sane(s0, max) && k !in s0.queued && k !in s0.confirmed
    requires |s0.queue| + |Raised(s0, keys, SeeAll(records, target), opts, at)| <= max
    requires Distinct(keys) && forall j :: j in keys <==> j in records && Settled(records[j], at, w, never)
    requires k in records && records[k].flag.Complete? && records[k].lastEventAt < at - w
    requires k in later && later[k] == records[k] && now >= at + w
    requires (forall j :: !target(j).Failed?) && !target'(k).Failed?
    requires CompareRead(k, records[k], target(k), opts, at).Some?
    requires CompareRead(k, records[k], target'(k), opts, now).Some?
    ensures var s1 := SweepKeys(s0, max, keys, SeeAll(records, target), opts, at, w);
      var s2 := Prune(ConfirmAll(TakeDue(s1, now), Due(s1.queue, now), LookAll(later, target'), opts, now),
        Versions(later));
      k in s2.confirmed && s2.confirmed[k].firstSeenAt == at && s2.confirmed[k].confirmedAt == now
  {
    var see, look := SeeAll(records, target), LookAll(later, target');
    assert Disagrees(k, see(k), opts, at) && StillDisagrees(k, records[k].version, look(k), opts, now);
    PersistentDriftIsConfirmed(s0, max, keys, see, opts, at, w, now, look, Versions(later), k);
  }

  // ---------------------------------------------------------------- repair

  /** Sweeps that keep disagreeing leave the episode open and its start unchanged. */
  lemma DriftStaysOpen(s: Core, max: nat, keys: seq<Key>, see: Key -> Glimpse, opts: Options, now: Time, w: int, k: Key)
    requires Sane(s, max) && Distinct(keys) && k in keys && forall j :: j in keys ==> !Aborts(see(j))
    requires k in s.confirmed && Disagrees(k, see(k), opts, now)
    ensures var s' := SweepKeys(s, max, keys, see, opts, now, w);
      k in s'.confirmed && s'.confirmed[k].firstSeenAt == s.confirmed[k].firstSeenAt &&
      s'.confirmed[k].confirmedAt == s.confirmed[k].confirmedAt && s'.confirmed[k].window == s.confirmed[k].window
  {
    CompareKey(k, see(k).fenced.value, see(k).read, opts, now);
    var mid := SweepReaches(s, max, keys, see, opts, now, w, k);
    assert k in SweepKey(mid, max, k, see(k), opts, now, w).confirmed;
  }

  /** The keys whose episodes a sweep closes: confirmed, and seen to agree. */
  ghost function Repaired(s: Core, keys: seq<Key>, see: Key -> Glimpse, opts: Options, now: Time): set<Key> {
    set k | k in keys && k in s.confirmed && Agrees(k, see(k), opts, now)
  }

  /** One key of a sweep closes its own episode, if it agrees, and no other. */
  lemma SweepKeyCloses(s: Core, max: nat, k: Key, g: Glimpse, opts: Options, now: Time, w: int)
    ensures var s', closed := SweepKey(s, max, k, g, opts, now, w), k in s.confirmed && Agrees(k, g, opts, now);
      && s'.confirmed.Keys == s.confirmed.Keys - (if closed then {k} else {})
      && s'.stats.driftResolved == s.stats.driftResolved + One(closed)
  {
  }

  /** A sweep closes exactly the episodes of the keys it sees agree, counting each once. */
  lemma {:induction false} RepairIsCountedOnce(
    s: Core, max: nat, keys: seq<Key>, see: Key -> Glimpse, opts: Options, now: Time, w: int)
    requires Sane(s, max) && Distinct(keys) && forall j :: j in keys ==> !Aborts(see(j))
    ensures var s' := SweepKeys(s, max, keys, see, opts, now, w);
      && s'.stats.driftResolved == s.stats.driftResolved + |Repaired(s, keys, see, opts, now)|
      && s'.confirmed.Keys == s.confirmed.Keys - Repaired(s, keys, see, opts, now)
    decreases |keys|
  {
    if keys == [] {
      assert Repaired(s, keys, see, opts, now) == {};
    } else {
      var k := keys[0];
      var s' := SweepKey(s, max, k, see(k), opts, now, w);
      SweepKeyFrame(s, max, k, see(k), opts, now, w);
      SweepKeyCloses(s, max, k, see(k), opts, now, w);
      RepairedSplit(s, s', keys, see, opts, now);
      RepairIsCountedOnce(s', max, keys[1..], see, opts, now, w);
    }
  }

  lemma RepairedSplit(s: Core, s': Core, keys: seq<Key>, see: Key -> Glimpse, opts: Options, now: Time)
    requires keys != [] && Distinct(keys) && forall k :: k != keys[0] ==> SameFor(k, s, s')
    ensures var k, rest := keys[0], Repaired(s', keys[1..], see, opts, now);
      && k !in rest
      && Repaired(s, keys, see, opts, now) ==
           rest + (if k in s.confirmed && Agrees(k, see(k), opts, now) then {k} else {})
  {
    var k, rest := keys[0], Repaired(s', keys[1..], see, opts, now);
    assert forall x :: x in keys <==> x == k || x in keys[1..];
    forall x | x in keys[1..]
      ensures x != k && (x in s.confirmed <==> x in s'.confirmed)
    {
      var i :| 0 <= i < |keys[1..]| && keys[1..][i] == x;
      assert keys[0] != keys[i + 1];
      assert SameFor(x, s, s');
    }
  }
}
