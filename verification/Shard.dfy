/** One lock domain of the oracle (pkg/oracle/shard.go, settle.go, evict.go).

    Three representation tricks live here: a time-bucket index that answers "which keys are
    settled" without a scan, a generation floor that makes every key suspect in constant time,
    and trust cardinalities that are patched rather than recounted. `View` is what they stand
    for: one naive record per key. Every operation is specified on `View` alone. */
module OracleShard {
  import opened Events
  import opened Counting

  datatype Action = Nothing | Upsert(value: Value) | Delete

  datatype Mutation = Mutation(key: Key, action: Action, truncated: bool)

  /** The stored entry. `gen` and `bucket` serve the floor and the index. */
  datatype Entry = Entry(
    value: Value, version: nat, trust: Trust, lastEventAt: Time,
    lastValueChangeAt: Option<Time>, truncated: bool, createdAt: Time,
    gen: nat, bucket: int)

  /** The naive entry: an explicit trust flag, no generation, no bucket. */
  datatype Record = Record(
    value: Value, version: nat, flag: Trust, lastEventAt: Time,
    lastValueChangeAt: Option<Time>, truncated: bool, createdAt: Time)

  // ---------------------------------------------------------------- the naive specification

  /** What an applied mutation leaves behind, given what was there before. */
  function Written(prev: Option<Record>, m: Mutation, now: Time, trust: Trust): Record
    requires !m.action.Nothing?
  {
    var value := if m.action.Upsert? then m.action.value else Absent;
    var changed := prev.None? || !prev.value.value.Equal(value);
    Record(
      value, if prev.Some? then prev.value.version + 1 else 1, trust, now,
      if changed then Some(now) else prev.value.lastValueChangeAt,
      m.truncated, if prev.Some? then prev.value.createdAt else now)
  }

  /** What adopting a value read from the target leaves behind. */
  function AdoptedRecord(prev: Option<Record>, value: Value, at: Time): Record {
    Record(
      value, if prev.Some? then prev.value.version + 1 else 1, Adopted, at,
      if prev.Some? then prev.value.lastValueChangeAt else None,
      if prev.Some? then prev.value.truncated else false,
      if prev.Some? then prev.value.createdAt else at)
  }

  function Marked(r: Record): Record { if r.flag.Complete? then r.(flag := Suspect) else r }

  function Cleared(r: Record): Record { if r.flag.Suspect? then r.(flag := Complete) else r }

  /** The empty pattern. */
  predicate EveryKey(k: Key) { true }

  /** Suspicion as a per-key rewrite of every matching record. */
  function MarkRecords(v: map<Key, Record>, matches: Key -> bool): map<Key, Record> {
    map k | k in v :: if matches(k) then Marked(v[k]) else v[k]
  }

  function ClearRecords(v: map<Key, Record>, matches: Key -> bool): map<Key, Record> {
    map k | k in v :: if matches(k) then Cleared(v[k]) else v[k]
  }

  /** Eligibility for comparison: quiet for longer than w, or unchanged for the whole threshold. */
  predicate IsSettled(lastEventAt: Time, lastValueChangeAt: Option<Time>, now: Time, w: int, never: int) {
    lastEventAt < now - w || (lastValueChangeAt.Some? && lastValueChangeAt.value < now - never)
  }

  predicate Settled(r: Record, now: Time, w: int, never: int) {
    IsSettled(r.lastEventAt, r.lastValueChangeAt, now, w, never)
  }

  function Lookup<V>(m: map<Key, V>, k: Key): Option<V> { if k in m then Some(m[k]) else None }

  function Without<V>(m: map<Key, V>, victim: Option<Key>): map<Key, V> {
    if victim.Some? then m - {victim.value} else m
  }

  // ---------------------------------------------------------------- representation

  /** Integer division truncating toward zero, as the source's language divides. */
  function TruncDiv(a: int, b: int): int
    requires b > 0
    decreases if a >= 0 then a else -a
  {
    if a >= b then TruncDiv(a - b, b) + 1
    else if a <= -b then TruncDiv(a + b, b) - 1
    else 0
  }

  /** The recursion above is the quotient: the remainder it leaves is smaller than the divisor
      and does not exceed the dividend in magnitude or change its sign. */
  lemma {:induction false} TruncDivIsDivision(a: int, b: int)
    requires b > 0
    ensures var r := a - TruncDiv(a, b) * b;
            -b < r < b && (a >= 0 ==> r >= 0) && (a <= 0 ==> r <= 0)
    decreases if a >= 0 then a else -a
  {
    if a >= b {
      TruncDivIsDivision(a - b, b);
      OneMoreTime(TruncDiv(a - b, b), b);
    } else if a <= -b {
      TruncDivIsDivision(a + b, b);
      OneMoreTime(TruncDiv(a + b, b), b);
    }
  }

  lemma OneMoreTime(q: int, b: int)
    ensures (q + 1) * b == q * b + b && (q - 1) * b == q * b - b
  {
  }

  lemma {:induction false} TruncDivSign(a: int, b: int)
    requires b > 0
    ensures a >= 0 ==> TruncDiv(a, b) >= 0
    ensures a <= 0 ==> TruncDiv(a, b) <= 0
    decreases if a >= 0 then a else -a
  {
    if a >= b {
      TruncDivSign(a - b, b);
    } else if a <= -b {
      TruncDivSign(a + b, b);
    }
  }

  lemma {:induction false} TruncDivMonotone(a: int, a': int, b: int)
    requires b > 0 && a <= a'
    ensures TruncDiv(a, b) <= TruncDiv(a', b)
    decreases (if a >= 0 then a else -a) + (if a' >= 0 then a' else -a')
  {
    if a >= b {
      TruncDivMonotone(a - b, a' - b, b);
    } else if a' <= -b {
      TruncDivMonotone(a + b, a' + b, b);
    } else {
      TruncDivSign(a - b, b);
      TruncDivSign(a' + b, b);
      TruncDivSign(a, b);
      TruncDivSign(a', b);
    }
  }

  function CeilDiv(a: int, b: int): nat
    requires b > 0
    decreases a
  {
    if a <= 0 then 0 else CeilDiv(a - b, b) + 1
  }

  /** Stepping back by m crosses at most CeilDiv(m, b) bucket boundaries. */
  lemma {:induction false} TruncDivSpan(a: int, m: int, b: int)
    requires m >= 0 && b > 0
    ensures TruncDiv(a, b) - TruncDiv(a - m, b) <= CeilDiv(m, b)
    decreases m
  {
    if m > b {
      TruncDivSpan(a - b, m - b, b);
      OneBucket(a, b);
    } else if m > 0 {
      OneBucket(a, b);
      TruncDivMonotone(a - b, a - m, b);
    }
  }

  lemma OneBucket(a: int, b: int)
    requires b > 0
    ensures TruncDiv(a, b) - 1 <= TruncDiv(a - b, b) <= TruncDiv(a, b)
  {
    if a < 0 {
      assert TruncDiv(a - b, b) == TruncDiv(a, b) - 1;
    }
  }

  lemma IntervalCardinality(s: set<int>, lo: int, hi: int)
    requires lo <= hi && forall x :: x in s ==> lo <= x <= hi
    ensures |s| <= hi - lo + 1
    decreases hi - lo
  {
    if lo == hi {
      assert forall x :: x in s ==> x == lo;
      SubsetCardinality(s, {lo});
    } else {
      IntervalCardinality(s - {hi}, lo, hi - 1);
      assert s <= (s - {hi}) + {hi};
      SubsetCardinality(s, (s - {hi}) + {hi});
    }
  }

  lemma SubsetCardinality<T>(a: set<T>, b: set<T>)
    requires a <= b
    ensures |a| <= |b|
  {
    assert b == a + (b - a);
  }

  function EffectiveTrust(e: Entry, floor: nat): Trust {
    if e.trust.Complete? && e.gen < floor then Suspect else e.trust
  }

  function MarkEntry(e: Entry): Entry { if e.trust.Complete? then e.(trust := Suspect) else e }

  function ClearEntry(e: Entry, gen: nat): Entry {
    if e.trust.Adopted? then e else e.(trust := Complete, gen := gen)
  }

  /** A created entry before its first write: zero values throughout. */
  function Blank(at: Time): Entry {
    Entry(Absent, 0, Complete, 0, None, false, at, 0, 0)
  }

  function RecordOf(e: Entry, floor: nat): Record {
    Record(e.value, e.version, EffectiveTrust(e, floor), e.lastEventAt, e.lastValueChangeAt, e.truncated, e.createdAt)
  }

  /** The entry an applied mutation stores. */
  function WrittenEntry(prev: Option<Entry>, m: Mutation, now: Time, trust: Trust, gen: nat): Entry
    requires !m.action.Nothing?
  {
    var e := if prev.Some? then prev.value else Blank(now);
    var value := if m.action.Upsert? then m.action.value else Absent;
    e.(version := e.version + 1, gen := gen, trust := trust, lastEventAt := now, truncated := m.truncated,
      value := value,
      lastValueChangeAt := if prev.None? || !e.value.Equal(value) then Some(now) else e.lastValueChangeAt)
  }

  /** The entry an adoption stores. */
  function AdoptedEntry(prev: Option<Entry>, value: Value, at: Time, gen: nat): Entry {
    var e := if prev.Some? then prev.value else Blank(at);
    e.(version := e.version + 1, gen := gen, trust := Adopted, value := value, lastEventAt := at)
  }

  ghost function ViewOf(es: map<Key, Entry>, floor: nat): map<Key, Record> {
    map k | k in es :: RecordOf(es[k], floor)
  }

  lemma ViewStored(es: map<Key, Entry>, victim: Option<Key>, k: Key, e: Entry, floor: nat)
    ensures ViewOf(Without(es, victim)[k := e], floor) == Without(ViewOf(es, floor), victim)[k := RecordOf(e, floor)]
  {
  }

  /** Marking or clearing entry by entry is marking or clearing record by record. */
  lemma ViewMarked(es: map<Key, Entry>, matches: Key -> bool, floor: nat)
    ensures ViewOf(MarkedWhere(es, matches), floor) == MarkRecords(ViewOf(es, floor), matches)
  {
  }

  lemma ViewCleared(es: map<Key, Entry>, matches: Key -> bool, floor: nat, floor': nat, gen: nat)
    requires floor' <= gen && (floor' == floor || (floor' == 0 && forall k :: matches(k)))
    ensures ViewOf(ClearedWhere(es, matches, gen), floor') == ClearRecords(ViewOf(es, floor), matches)
  {
  }

  ghost function MarkedWhere(es: map<Key, Entry>, matches: Key -> bool): map<Key, Entry> {
    map k | k in es :: if matches(k) then MarkEntry(es[k]) else es[k]
  }

  ghost function ClearedWhere(es: map<Key, Entry>, matches: Key -> bool, gen: nat): map<Key, Entry> {
    map k | k in es :: if matches(k) then ClearEntry(es[k], gen) else es[k]
  }

  // ---------------------------------------------------------------- trust cardinalities

  /** What a shard keeps a running count of, and what it derives from those counts. */
  datatype Class = Fresh(floor: nat) | IsAdopted | IsMarked | IsTruncated | IsSuspect(floor: nat)
  {
    predicate Holds(e: Entry) {
      match this
      case Fresh(floor) => e.trust.Complete? && e.gen >= floor
      case IsAdopted => e.trust.Adopted?
      case IsMarked => e.trust.Suspect?
      case IsTruncated => e.truncated
      case IsSuspect(floor) => EffectiveTrust(e, floor).Suspect?
    }
  }

  ghost function KeysOf(es: map<Key, Entry>, c: Class): set<Key> { set k | k in es && c.Holds(es[k]) }

  ghost function Tally(es: map<Key, Entry>, c: Class): nat { |KeysOf(es, c)| }

  lemma TallyRemove(es: map<Key, Entry>, k: Key, c: Class)
    requires k in es
    ensures Tally(es, c) == Tally(es - {k}, c) + One(c.Holds(es[k]))
  {
    assert KeysOf(es - {k}, c) == KeysOf(es, c) - {k};
  }

  /** The cached cardinalities of a shard. */
  datatype Counts = Counts(unswept: int, adopted: int, marked: int, truncated: int)
  {
    /** The cache agrees with a full scan. */
    ghost predicate Agree(es: map<Key, Entry>, floor: nat) {
      && unswept == Tally(es, Fresh(floor))
      && adopted == Tally(es, IsAdopted)
      && marked == Tally(es, IsMarked)
      && truncated == Tally(es, IsTruncated)
    }

    function Forget(e: Entry, floor: nat): Counts {
      var c := match e.trust
        case Adopted => this.(adopted := adopted - 1)
        case Suspect => this.(marked := marked - 1)
        case Complete => if e.gen >= floor then this.(unswept := unswept - 1) else this;
      if e.truncated then c.(truncated := c.truncated - 1) else c
    }

    function Remember(e: Entry, floor: nat): Counts {
      var c := match e.trust
        case Adopted => this.(adopted := adopted + 1)
        case Suspect => this.(marked := marked + 1)
        case Complete => if e.gen >= floor then this.(unswept := unswept + 1) else this;
      if e.truncated then c.(truncated := c.truncated + 1) else c
    }

    /** Derived: whatever is neither adopted, marked nor fresh was swept up by the floor. */
    function SuspectCount(total: int): int {
      marked + (total - adopted - marked - unswept)
    }
  }

  lemma ForgetAgrees(c: Counts, es: map<Key, Entry>, k: Key, floor: nat)
    requires k in es && c.Agree(es, floor)
    ensures c.Forget(es[k], floor).Agree(es - {k}, floor)
  {
    TallyRemove(es, k, Fresh(floor));
    TallyRemove(es, k, IsAdopted);
    TallyRemove(es, k, IsMarked);
    TallyRemove(es, k, IsTruncated);
  }

  lemma RememberAgrees(c: Counts, es: map<Key, Entry>, k: Key, e: Entry, floor: nat)
    requires k !in es && c.Agree(es, floor)
    ensures c.Remember(e, floor).Agree(es[k := e], floor)
  {
    assert es[k := e] - {k} == es;
    TallyRemove(es[k := e], k, Fresh(floor));
    TallyRemove(es[k := e], k, IsAdopted);
    TallyRemove(es[k := e], k, IsMarked);
    TallyRemove(es[k := e], k, IsTruncated);
  }

  lemma RewriteAgrees(c: Counts, es: map<Key, Entry>, k: Key, e: Entry, floor: nat)
    requires k in es && c.Agree(es, floor)
    ensures c.Forget(es[k], floor).Remember(e, floor).Agree(es[k := e], floor)
  {
    ForgetAgrees(c, es, k, floor);
    RememberAgrees(c.Forget(es[k], floor), es - {k}, k, e, floor);
    assert (es - {k})[k := e] == es[k := e];
  }

  /** Once the floor has passed every generation, nothing is fresh and nothing else moved. */
  lemma SweepAgrees(c: Counts, es: map<Key, Entry>, floor: nat, gen: nat)
    requires c.Agree(es, floor) && GenerationsUpTo(es, gen)
    ensures c.(unswept := 0).Agree(es, gen + 1)
  {
    assert KeysOf(es, Fresh(gen + 1)) == {};
  }

  /** Every entry is fresh, adopted or effectively suspect, and only one of them. */
  lemma SuspectCountAgrees(c: Counts, es: map<Key, Entry>, floor: nat)
    requires c.Agree(es, floor)
    ensures c.SuspectCount(|es|) == Tally(es, IsSuspect(floor))
  {
    SuspectKeys(es, floor);
    PartsOfSet(es.Keys, KeysOf(es, Fresh(floor)), KeysOf(es, IsAdopted));
  }

  lemma SuspectKeys(es: map<Key, Entry>, floor: nat)
    ensures KeysOf(es, IsSuspect(floor)) == es.Keys - (KeysOf(es, Fresh(floor)) + KeysOf(es, IsAdopted))
  {
  }

  // ---------------------------------------------------------------- the settlement index

  datatype Index = Index(buckets: map<int, set<Key>>, settled: set<Key>)
  {
    predicate Filed(k: Key, b: int) { b in buckets && k in buckets[b] }

    /** Where the index must have k: in the bucket of its last event, or coalesced because that
        event is older than any window can reach. */
    ghost predicate Placed(es: map<Key, Entry>, k: Key, width: int, horizon: Option<Time>)
      requires k in es
    {
      && InBucket(es[k], width)
      && (if k in settled then horizon.Some? && es[k].lastEventAt < horizon.value else Filed(k, es[k].bucket))
    }

    /** The index holds every key, exactly once, and nothing else. */
    ghost predicate Covers(es: map<Key, Entry>, width: int, horizon: Option<Time>) {
      && settled <= es.Keys
      && (forall b :: b in buckets ==> buckets[b] != {})
      && (forall k, b {:trigger Filed(k, b)} :: Filed(k, b) ==> k in es && k !in settled && es[k].bucket == b)
      && (forall k {:trigger Placed(es, k, width, horizon)} :: k in es ==> Placed(es, k, width, horizon))
    }

    function Remove(k: Key, b: int): Index {
      var bs := if b !in buckets then buckets
                else if buckets[b] - {k} == {} then buckets - {b}
                else buckets[b := buckets[b] - {k}];
      Index(bs, settled - {k})
    }

    /** Moves k from the bucket it was last filed under to the bucket of its newest event. */
    function Place(k: Key, was: int, b: int): Index {
      if was == b && Filed(k, b) then
        this
      else
        var ix := Remove(k, was);
        var keys := if b in ix.buckets then ix.buckets[b] else {};
        ix.(buckets := ix.buckets[b := keys + {k}])
    }
  }

  predicate InBucket(e: Entry, width: int) {
    width > 0 && e.bucket == TruncDiv(e.lastEventAt, width)
  }

  /** What covering says of each key, for proofs that look at keys one by one. */
  lemma Locate(ix: Index, es: map<Key, Entry>, width: int, horizon: Option<Time>)
    requires ix.Covers(es, width, horizon)
    ensures forall k :: k in es ==> InBucket(es[k], width) && (k in ix.settled || ix.Filed(k, es[k].bucket))
    ensures forall k :: k in ix.settled ==> k in es && horizon.Some? && es[k].lastEventAt < horizon.value
  {
    forall k | k in es
      ensures InBucket(es[k], width) && (k in ix.settled || ix.Filed(k, es[k].bucket))
      ensures k in ix.settled ==> horizon.Some? && es[k].lastEventAt < horizon.value
    {
      assert ix.Placed(es, k, width, horizon);
    }
  }

  lemma RemoveCovers(ix: Index, es: map<Key, Entry>, k: Key, width: int, horizon: Option<Time>)
    requires k in es && ix.Covers(es, width, horizon)
    ensures ix.Remove(k, es[k].bucket).Covers(es - {k}, width, horizon)
  {
    var r := ix.Remove(k, es[k].bucket);
    Locate(ix, es, width, horizon);
    forall x, b
      ensures r.Filed(x, b) <==> ix.Filed(x, b) && x != k
    {
      assert ix.Filed(x, b) && x != k ==> es[x].bucket == b && x in ix.buckets[b] - {k};
    }
  }

  lemma PlaceCovers(ix: Index, es: map<Key, Entry>, k: Key, e: Entry, width: int, horizon: Option<Time>)
    requires ix.Covers(es, width, horizon) && InBucket(e, width)
    ensures ix.Place(k, if k in es then es[k].bucket else 0, e.bucket).Covers(es[k := e], width, horizon)
  {
    var was := if k in es then es[k].bucket else 0;
    Locate(ix, es, width, horizon);
    if was != e.bucket || !ix.Filed(k, e.bucket) {
      var r := ix.Remove(k, was);
      assert r.Covers(es - {k}, width, horizon) by {
        if k in es {
          RemoveCovers(ix, es, k, width, horizon);
        } else {
          assert es - {k} == es;
          assert !ix.Filed(k, was);
          assert was in ix.buckets ==> ix.buckets[was] - {k} == ix.buckets[was];
          assert r.settled == ix.settled && r.buckets == ix.buckets;
        }
      }
      InsertCovers(r, es - {k}, k, e, width, horizon);
      assert (es - {k})[k := e] == es[k := e];
    }
  }

  lemma InsertCovers(r: Index, es: map<Key, Entry>, k: Key, e: Entry, width: int, horizon: Option<Time>)
    requires k !in es && r.Covers(es, width, horizon) && InBucket(e, width)
    ensures Index(r.buckets[e.bucket := (if e.bucket in r.buckets then r.buckets[e.bucket] else {}) + {k}], r.settled)
              .Covers(es[k := e], width, horizon)
  {
    var ix := Index(r.buckets[e.bucket := (if e.bucket in r.buckets then r.buckets[e.bucket] else {}) + {k}],
      r.settled);
    Locate(r, es, width, horizon);
    assert forall x, b :: ix.Filed(x, b) <==> r.Filed(x, b) || (x == k && b == e.bucket);
    assert forall x :: x in es ==> r.Filed(x, es[x].bucket) ==> ix.Filed(x, es[x].bucket);
  }

  /** Rewriting entries without moving their last event leaves the index right. */
  lemma RetagCovers(ix: Index, es: map<Key, Entry>, es': map<Key, Entry>, width: int, horizon: Option<Time>)
    requires ix.Covers(es, width, horizon) && es.Keys == es'.Keys
    requires forall k :: k in es ==> es[k].bucket == es'[k].bucket && es[k].lastEventAt == es'[k].lastEventAt
    ensures ix.Covers(es', width, horizon)
  {
    Locate(ix, es, width, horizon);
  }

  ghost predicate NoLater(horizon: Option<Time>, at: Time) { horizon.Some? ==> horizon.value <= at }

  /** Folds every bucket wholly past the horizon into the coalesced set. */
  method PromoteIndex(ix: Index, ghost es: map<Key, Entry>, width: int, ghost horizon: Option<Time>, upTo: Time)
    returns (r: Index)
    requires width > 0 && ix.Covers(es, width, horizon) && NoLater(horizon, upTo)
    ensures r.Covers(es, width, Some(upTo))
    ensures forall b :: b in r.buckets ==> TruncDiv(upTo, width) <= b
  {
    r := ix;
    CoversLater(ix, es, width, horizon, upTo);
    var limit := TruncDiv(upTo, width);
    var rest := ix.buckets.Keys;
    while rest != {}
      invariant r.Covers(es, width, Some(upTo)) && rest <= r.buckets.Keys
      invariant forall b :: b in r.buckets && b !in rest ==> limit <= b
      decreases |rest|
    {
      var b := AnyOf(rest);
      rest := rest - {b};
      if b < limit {
        CoalesceCovers(r, es, b, width, upTo);
        r := Index(r.buckets - {b}, r.settled + r.buckets[b]);
      }
    }
  }

  lemma CoalesceCovers(ix: Index, es: map<Key, Entry>, b: int, width: int, upTo: Time)
    requires width > 0 && ix.Covers(es, width, Some(upTo)) && b in ix.buckets && b < TruncDiv(upTo, width)
    ensures Index(ix.buckets - {b}, ix.settled + ix.buckets[b]).Covers(es, width, Some(upTo))
  {
    var r := Index(ix.buckets - {b}, ix.settled + ix.buckets[b]);
    Locate(ix, es, width, Some(upTo));
    forall k | k in ix.buckets[b]
      ensures k in es && es[k].lastEventAt < upTo
    {
      assert ix.Filed(k, b);
      if upTo <= es[k].lastEventAt {
        TruncDivMonotone(upTo, es[k].lastEventAt, width);
      }
    }
    forall x, c | r.Filed(x, c)
      ensures ix.Filed(x, c) && x !in ix.buckets[b] && x !in ix.settled
    {
      assert ix.Filed(x, c) && c != b;
      assert x in ix.buckets[b] ==> ix.Filed(x, b);
    }
    assert forall x :: x in es && ix.Filed(x, es[x].bucket) ==> x in r.settled || r.Filed(x, es[x].bucket);
  }

  predicate EntrySettled(e: Entry, now: Time, w: int, never: int) {
    IsSettled(e.lastEventAt, e.lastValueChangeAt, now, w, never)
  }

  /** Appends the settled keys of one bucket. */
  method AppendSettled(prefix: seq<Key>, keys: set<Key>, es: map<Key, Entry>, now: Time, w: int, never: int)
    returns (dst: seq<Key>)
    requires keys <= es.Keys && Distinct(prefix) && forall k :: k in keys ==> k !in prefix
    ensures Distinct(dst)
    ensures forall k :: k in dst <==> k in prefix || (k in keys && EntrySettled(es[k], now, w, never))
  {
    dst := prefix;
    var rest := keys;
    while rest != {}
      invariant rest <= keys && Distinct(dst)
      invariant forall k :: k in dst <==> k in prefix || (k in keys && k !in rest && EntrySettled(es[k], now, w, never))
      decreases |rest|
    {
      var k :| k in rest;
      rest := rest - {k};
      if EntrySettled(es[k], now, w, never) {
        dst := dst + [k];
      }
    }
  }

  /** Walks the coalesced set and the live buckets; what comes out is what a scan of every
      entry would select, and each key once. */
  method ListSettled(ix: Index, es: map<Key, Entry>, ghost width: int, now: Time, w: int, never: int)
    returns (dst: seq<Key>)
    requires ix.Covers(es, width, Some(now - w))
    ensures Distinct(dst)
    ensures forall k :: k in dst <==>
      && k in es
      && (es[k].lastEventAt < now - w ||
          (es[k].lastValueChangeAt.Some? && es[k].lastValueChangeAt.value < now - never))
  {
    Locate(ix, es, width, Some(now - w));
    dst := [];
    var coalesced := ix.settled;
    while coalesced != {}
      invariant coalesced <= ix.settled && Distinct(dst)
      invariant forall k :: k in dst <==> k in ix.settled && k !in coalesced
      decreases |coalesced|
    {
      var k :| k in coalesced;
      coalesced := coalesced - {k};
      dst := dst + [k];
    }
    var rest := ix.buckets.Keys;
    while rest != {}
      invariant rest <= ix.buckets.Keys && Distinct(dst)
      invariant forall k :: k in dst <==>
        k in es && EntrySettled(es[k], now, w, never) && (k in ix.settled || es[k].bucket !in rest)
      decreases |rest|
    {
      var b := AnyOf(rest);
      rest := rest - {b};
      assert forall k :: k in ix.buckets[b] <==> ix.Filed(k, b);
      dst := AppendSettled(dst, ix.buckets[b], es, now, w, never);
    }
    assert forall k :: k in es && k !in ix.settled ==> ix.Filed(k, es[k].bucket);
  }

  ghost function SettledAmong(keys: set<Key>, es: map<Key, Entry>, now: Time, w: int, never: int): set<Key>
    requires keys <= es.Keys
  {
    set k | k in keys && EntrySettled(es[k], now, w, never)
  }

  ghost function StuckAmong(keys: set<Key>, es: map<Key, Entry>, now: Time, w: int, never: int): set<Key>
    requires keys <= es.Keys
  {
    set k | k in keys && NeverSettled(es[k], now, w, never)
  }

  /** Counts the settled keys, and the keys in flight for so long that nothing has rescued them. */
  method CountSettled(ix: Index, es: map<Key, Entry>, ghost width: int, now: Time, w: int, never: int)
    returns (settled: nat, neverSettled: nat)
    requires ix.Covers(es, width, Some(now - w))
    ensures settled == |SettledAmong(es.Keys, es, now, w, never)|
    ensures neverSettled == |StuckAmong(es.Keys, es, now, w, never)|
  {
    Locate(ix, es, width, Some(now - w));
    settled, neverSettled := |ix.settled|, 0;
    ghost var yes, no := ix.settled, {};
    var rest := ix.buckets.Keys;
    while rest != {}
      invariant rest <= ix.buckets.Keys
      invariant settled == |yes| && neverSettled == |no|
      invariant forall k :: k in yes <==>
        k in es && EntrySettled(es[k], now, w, never) && (k in ix.settled || es[k].bucket !in rest)
      invariant forall k :: k in no <==> k in es && NeverSettled(es[k], now, w, never) && es[k].bucket !in rest
      decreases |rest|
    {
      var b := AnyOf(rest);
      rest := rest - {b};
      assert forall k :: k in ix.buckets[b] <==> ix.Filed(k, b);
      var s, n := CountBucket(ix.buckets[b], es, now, w, never);
      settled, neverSettled := settled + s, neverSettled + n;
      yes := yes + SettledAmong(ix.buckets[b], es, now, w, never);
      no := no + StuckAmong(ix.buckets[b], es, now, w, never);
    }
    assert forall k :: k in es && k !in ix.settled ==> ix.Filed(k, es[k].bucket);
    assert yes == SettledAmong(es.Keys, es, now, w, never) && no == StuckAmong(es.Keys, es, now, w, never);
  }

  predicate NeverSettled(e: Entry, now: Time, w: int, never: int) {
    !EntrySettled(e, now, w, never) && e.createdAt < now - never
  }

  lemma GrowByOne(a: set<Key>, b: set<Key>, k: Key, grows: bool)
    requires k !in a && forall x :: x in b <==> x in a || (grows && x == k)
    ensures |b| == |a| + One(grows)
  {
    assert b == if grows then a + {k} else a;
  }

  /** Looking at one more key adds it to at most one of the two counts. */
  lemma CountOneMore(done: set<Key>, k: Key, es: map<Key, Entry>, now: Time, w: int, never: int)
    requires done <= es.Keys && k in es && k !in done
    ensures |SettledAmong(done + {k}, es, now, w, never)| ==
      |SettledAmong(done, es, now, w, never)| + One(EntrySettled(es[k], now, w, never))
    ensures |StuckAmong(done + {k}, es, now, w, never)| ==
      |StuckAmong(done, es, now, w, never)| + One(NeverSettled(es[k], now, w, never))
  {
    GrowByOne(SettledAmong(done, es, now, w, never), SettledAmong(done + {k}, es, now, w, never), k,
      EntrySettled(es[k], now, w, never));
    GrowByOne(StuckAmong(done, es, now, w, never), StuckAmong(done + {k}, es, now, w, never), k,
      NeverSettled(es[k], now, w, never));
  }

  method CountBucket(keys: set<Key>, es: map<Key, Entry>, now: Time, w: int, never: int)
    returns (settled: nat, neverSettled: nat)
    requires keys <= es.Keys
    ensures settled == |SettledAmong(keys, es, now, w, never)|
    ensures neverSettled == |StuckAmong(keys, es, now, w, never)|
  {
    settled, neverSettled := 0, 0;
    var rest := keys;
    ghost var done: set<Key> := {};
    assert SettledAmong(done, es, now, w, never) == {} && StuckAmong(done, es, now, w, never) == {};
    while rest != {}
      invariant rest <= keys && done == keys - rest
      invariant settled == |SettledAmong(done, es, now, w, never)|
      invariant neverSettled == |StuckAmong(done, es, now, w, never)|
      decreases |rest|
    {
      var k :| k in rest;
      CountOneMore(done, k, es, now, w, never);
      rest, done := rest - {k}, done + {k};
      if EntrySettled(es[k], now, w, never) {
        settled := settled + 1;
      } else if es[k].createdAt < now - never {
        neverSettled := neverSettled + 1;
      }
    }
    assert done == keys;
  }

  /** The live buckets lie between the horizon and now, so uptime does not add any. */
  lemma BucketsBounded(ix: Index, es: map<Key, Entry>, width: int, horizon: Option<Time>, now: Time, window: int)
    requires width > 0 && window >= 0 && ix.Covers(es, width, horizon)
    requires forall b :: b in ix.buckets ==> TruncDiv(now - window, width) <= b
    requires forall k :: k in es ==> es[k].lastEventAt <= now
    ensures |ix.buckets| <= CeilDiv(window, width) + 1
  {
    Locate(ix, es, width, horizon);
    var lo, hi := TruncDiv(now - window, width), TruncDiv(now, width);
    forall b | b in ix.buckets
      ensures lo <= b <= hi
    {
      var k :| k in ix.buckets[b];
      assert ix.Filed(k, b);
      TruncDivMonotone(es[k].lastEventAt, now, width);
    }
    TruncDivMonotone(now - window, now, width);
    IntervalCardinality(ix.buckets.Keys, lo, hi);
    TruncDivSpan(now, window, width);
  }

  /** A victim comes from the coalesced set, or else from the smallest live bucket. */
  ghost predicate Stalest(es: map<Key, Entry>, k: Key, horizon: Option<Time>)
    requires k in es
  {
    || (horizon.Some? && es[k].lastEventAt < horizon.value)
    || (forall x :: x in es ==> es[k].bucket <= es[x].bucket)
  }

  /** The index covers the entries, so a shard that holds anything always has a victim to offer;
      the source's fallback to an arbitrary entry finds nothing left to pick. */
  method OldestIndexed(ix: Index, ghost es: map<Key, Entry>, ghost width: int, ghost horizon: Option<Time>)
    returns (victim: Option<Key>)
    requires ix.Covers(es, width, horizon)
    ensures victim.Some? <==> es != map[]
    ensures victim.Some? ==> victim.value in es && Stalest(es, victim.value, horizon)
    ensures victim.Some? ==> if ix.settled != {} then victim.value in ix.settled
                             else forall x :: x in es ==> es[victim.value].bucket <= es[x].bucket
  {
    Locate(ix, es, width, horizon);
    if ix.settled != {} {
      var k :| k in ix.settled;
      return Some(k);
    }
    victim := None;
    var oldest := 0;
    var rest := ix.buckets.Keys;
    while rest != {}
      invariant rest <= ix.buckets.Keys
      invariant victim.None? ==> rest == ix.buckets.Keys
      invariant victim.Some? ==> ix.Filed(victim.value, oldest)
      invariant victim.Some? ==> forall b :: b in ix.buckets && b !in rest ==> oldest <= b
      decreases |rest|
    {
      var b := AnyOf(rest);
      rest := rest - {b};
      if victim.None? || b <= oldest {
        var k :| k in ix.buckets[b];
        victim, oldest := Some(k), b;
      }
    }
    assert forall k :: k in es ==> ix.Filed(k, es[k].bucket);
    assert victim.None? ==> es.Keys == {};
  }

  // ---------------------------------------------------------------- the shard

  ghost predicate GenerationsUpTo(es: map<Key, Entry>, gen: nat) {
    forall k :: k in es ==> es[k].gen <= gen
  }

  lemma ClearedShape(ix: Index, es: map<Key, Entry>, matches: Key -> bool, gen: nat, width: int, horizon: Option<Time>)
    requires ix.Covers(es, width, horizon) && GenerationsUpTo(es, gen)
    ensures ix.Covers(ClearedWhere(es, matches, gen), width, horizon)
    ensures GenerationsUpTo(ClearedWhere(es, matches, gen), gen)
    ensures |ClearedWhere(es, matches, gen)| == |es|
  {
    var r := ClearedWhere(es, matches, gen);
    RetagCovers(ix, es, r, width, horizon);
    assert r.Keys == es.Keys;
  }

  datatype Shard = Shard(entries: map<Key, Entry>, index: Index, counts: Counts, evictions: nat, maxKeys: nat,
    bucketWidth: int)
  {
    /** `horizon` is the instant before which the last query coalesced everything. */
    ghost predicate Valid(floor: nat, gen: nat, horizon: Option<Time>) {
      && bucketWidth > 0
      && floor <= gen && GenerationsUpTo(entries, gen)
      && 1 <= maxKeys && |entries| <= maxKeys
      && index.Covers(entries, bucketWidth, horizon)
      && counts.Agree(entries, floor)
    }

    ghost predicate SameShape(o: Shard) { maxKeys == o.maxKeys && bucketWidth == o.bucketWidth }

    /** What the representation stands for: one naive record per key. */
    ghost function View(floor: nat): map<Key, Record> { ViewOf(entries, floor) }

    method EvictOne(floor: nat, ghost gen: nat, ghost horizon: Option<Time>) returns (s: Shard, victim: Option<Key>)
      requires Valid(floor, gen, horizon)
      ensures s.Valid(floor, gen, horizon) && s.SameShape(this)
      ensures victim.Some? <==> entries != map[]
      ensures victim.Some? ==> victim.value in entries && Stalest(entries, victim.value, horizon)
      ensures victim.Some? && index.settled != {} ==> victim.value in index.settled
      ensures s.entries == Without(entries, victim) && s.evictions == evictions + One(victim.Some?)
    {
      victim := OldestIndexed(index, entries, bucketWidth, horizon);
      s := this;
      if victim.Some? {
        var k := victim.value;
        ForgetAgrees(counts, entries, k, floor);
        RemoveCovers(index, entries, k, bucketWidth, horizon);
        s := Shard(entries - {k}, index.Remove(k, entries[k].bucket), counts.Forget(entries[k], floor), evictions + 1,
          maxKeys, bucketWidth);
      }
    }

    /** Makes room if the shard is at its share. */
    method MakeRoom(k: Key, floor: nat, ghost gen: nat, ghost horizon: Option<Time>)
        returns (s: Shard, evicted: Option<Key>)
      requires Valid(floor, gen, horizon) && k !in entries
      ensures s.Valid(floor, gen, horizon) && s.SameShape(this) && |s.entries| < maxKeys
      ensures evicted.Some? <==> |entries| == maxKeys
      ensures evicted.Some? ==> evicted.value in entries && Stalest(entries, evicted.value, horizon)
      ensures s.entries == Without(entries, evicted) && s.evictions == evictions + One(evicted.Some?)
    {
      s, evicted := this, None;
      if |entries| >= maxKeys {
        s, evicted := EvictOne(floor, gen, horizon);
      }
    }

    /** Writes the entry of k and keeps the counters and the index in step. */
    method Store(k: Key, e: Entry, floor: nat, ghost gen: nat, ghost horizon: Option<Time>) returns (s: Shard)
      requires Valid(floor, gen, horizon) && e.gen <= gen && (k in entries || |entries| < maxKeys)
      ensures s.Valid(floor, gen, horizon) && s.SameShape(this) && s.evictions == evictions
      ensures s.entries == entries[k := e.(bucket := TruncDiv(e.lastEventAt, bucketWidth))]
    {
      var stored := e.(bucket := TruncDiv(e.lastEventAt, bucketWidth));
      PlaceCovers(index, entries, k, stored, bucketWidth, horizon);
      var c := counts;
      if k in entries {
        RewriteAgrees(counts, entries, k, stored, floor);
        c := c.Forget(entries[k], floor);
      } else {
        RememberAgrees(counts, entries, k, stored, floor);
      }
      c := c.Remember(stored, floor);
      s := this.(entries := entries[k := stored], counts := c,
                 index := index.Place(k, if k in entries then entries[k].bucket else 0, stored.bucket));
    }

    method Apply(m: Mutation, now: Time, trust: Trust, floor: nat, gen: nat, ghost horizon: Option<Time>)
      returns (s: Shard, evicted: Option<Key>)
      requires Valid(floor, gen, horizon) && !m.action.Nothing?
      ensures s.Valid(floor, gen, horizon) && s.SameShape(this)
      ensures evicted.Some? <==> m.key !in entries && |entries| == maxKeys
      ensures evicted.Some? ==> evicted.value in entries && Stalest(entries, evicted.value, horizon)
      ensures s.evictions == evictions + One(evicted.Some?)
      ensures s.View(floor) ==
        Without(View(floor), evicted)[m.key := Written(Lookup(View(floor), m.key), m, now, trust)]
    {
      var prev := Lookup(entries, m.key);
      s, evicted := this, None;
      if prev.None? {
        s, evicted := MakeRoom(m.key, floor, gen, horizon);
      }
      s := s.Store(m.key, WrittenEntry(prev, m, now, trust, gen), floor, gen, horizon);
      ViewStored(entries, evicted, m.key, s.entries[m.key], floor);
    }

    /** Loads one key read from the target at bootstrap. */
    method Adopt(k: Key, value: Value, at: Time, floor: nat, gen: nat, ghost horizon: Option<Time>)
      returns (s: Shard, evicted: Option<Key>)
      requires Valid(floor, gen, horizon)
      ensures s.Valid(floor, gen, horizon) && s.SameShape(this)
      ensures evicted.Some? <==> k !in entries && |entries| == maxKeys
      ensures evicted.Some? ==> evicted.value in entries && Stalest(entries, evicted.value, horizon)
      ensures s.evictions == evictions + One(evicted.Some?)
      ensures s.View(floor) == Without(View(floor), evicted)[k := AdoptedRecord(Lookup(View(floor), k), value, at)]
    {
      var prev := Lookup(entries, k);
      s, evicted := this, None;
      if prev.None? {
        s, evicted := MakeRoom(k, floor, gen, horizon);
      }
      s := s.Store(k, AdoptedEntry(prev, value, at, gen), floor, gen, horizon);
      ViewStored(entries, evicted, k, s.entries[k], floor);
    }

    /** The floor has just risen past every stored generation: nothing is fresh any more. */
    method MarkAll(ghost floor: nat, ghost gen: nat, ghost horizon: Option<Time>) returns (s: Shard)
      requires Valid(floor, gen, horizon)
      ensures s.Valid(gen + 1, gen + 1, horizon) && s.SameShape(this)
      ensures s.View(gen + 1) == MarkRecords(View(floor), EveryKey)
    {
      s := this.(counts := counts.(unswept := 0));
      SweepAgrees(counts, entries, floor, gen);
    }

    method MarkMatching(matches: Key -> bool, floor: nat, ghost gen: nat, ghost horizon: Option<Time>)
        returns (s: Shard)
      requires Valid(floor, gen, horizon)
      ensures s.Valid(floor, gen, horizon) && s.SameShape(this)
      ensures s.View(floor) == MarkRecords(View(floor), matches)
    {
      ViewMarked(entries, matches, floor);
      var es, c := MarkEntries(entries, counts, matches, floor);
      RetagCovers(index, entries, es, bucketWidth, horizon);
      assert |es.Keys| == |entries.Keys|;
      s := this.(entries := es, counts := c);
    }

    /** Clears the marks of the matching entries and lifts them past the floor, then recounts.
        Clearing everything also resets the floor to zero. */
    method ClearMatching(matches: Key -> bool, ghost floor: nat, floor': nat, gen: nat, ghost horizon: Option<Time>)
        returns (s: Shard)
      requires Valid(floor, gen, horizon)
      requires floor' == floor || (floor' == 0 && forall k :: matches(k))
      ensures s.Valid(floor', gen, horizon) && s.SameShape(this)
      ensures s.View(floor') == ClearRecords(View(floor), matches)
    {
      ViewCleared(entries, matches, floor, floor', gen);
      ClearedShape(index, entries, matches, gen, bucketWidth, horizon);
      var es := ClearEntries(entries, matches, gen);
      var c := Recount(es, floor');
      s := this.(entries := es, counts := c);
    }

    /** Coalesces what no window can reach any more; uptime then adds no live buckets. */
    method Promote(now: Time, maxWindow: nat, ghost floor: nat, ghost gen: nat, ghost horizon: Option<Time>)
        returns (s: Shard)
      requires Valid(floor, gen, horizon) && NoLater(horizon, now - maxWindow)
      ensures s.Valid(floor, gen, Some(now - maxWindow)) && s.SameShape(this) && s.entries == entries
      ensures (forall k :: k in entries ==> entries[k].lastEventAt <= now) ==>
        |s.index.buckets| <= CeilDiv(maxWindow, bucketWidth) + 1
    {
      var ix := PromoteIndex(index, entries, bucketWidth, horizon, now - maxWindow);
      if forall k :: k in entries ==> entries[k].lastEventAt <= now {
        BucketsBounded(ix, entries, bucketWidth, Some(now - maxWindow), now, maxWindow);
      }
      s := this.(index := ix);
    }

    /** What is stored under a key, with its effective trust. */
    method Find(k: Key, floor: nat) returns (r: Option<Record>)
      ensures r == Lookup(View(floor), k)
    {
      r := if k in entries then Some(RecordOf(entries[k], floor)) else None;
    }

    method SettledKeys(now: Time, w: nat, never: int, ghost floor: nat, ghost gen: nat, ghost horizon: Time)
        returns (dst: seq<Key>)
      requires Valid(floor, gen, Some(horizon)) && horizon <= now - w
      ensures Distinct(dst)
      ensures var v := View(floor); forall k :: k in dst <==>
        && k in v
        && (v[k].lastEventAt < now - w ||
            (v[k].lastValueChangeAt.Some? && v[k].lastValueChangeAt.value < now - never))
    {
      CoversLater(index, entries, bucketWidth, Some(horizon), now - w);
      dst := ListSettled(index, entries, bucketWidth, now, w, never);
    }

    method Report(now: Time, w: nat, never: int, ghost floor: nat, ghost gen: nat, ghost horizon: Time)
        returns (t: Totals)
      requires Valid(floor, gen, Some(horizon)) && horizon <= now - w
      ensures t == Scan(View(floor), now, w, never)
    {
      CoversLater(index, entries, bucketWidth, Some(horizon), now - w);
      var settled, stuck := CountSettled(index, entries, bucketWidth, now, w, never);
      CachedTotals(entries, counts, floor, now, w, never, SettledAmong(entries.Keys, entries, now, w, never),
        StuckAmong(entries.Keys, entries, now, w, never));
      t := Totals(|entries|, settled, stuck, counts.truncated, counts.unswept, counts.adopted,
        counts.SuspectCount(|entries|));
    }
  }

  function NewShard(maxKeys: nat, bucketWidth: int): Shard {
    Shard(map[], Index(map[], {}), Counts(0, 0, 0, 0), 0, maxKeys, bucketWidth)
  }

  lemma CoversLater(ix: Index, es: map<Key, Entry>, width: int, horizon: Option<Time>, at: Time)
    requires ix.Covers(es, width, horizon) && NoLater(horizon, at)
    ensures ix.Covers(es, width, Some(at))
  {
    Locate(ix, es, width, horizon);
  }

  /** What a metrics report counts, as properties of one naive record. */
  datatype Tag = AnyKey | FlagIs(trust: Trust) | Truncated | SettledAt(now: Time, w: int, never: int) |
    StuckAt(now: Time, w: int, never: int)
  {
    predicate Holds(r: Record) {
      match this
      case AnyKey => true
      case FlagIs(trust) => r.flag == trust
      case Truncated => r.truncated
      case SettledAt(now, w, never) => Settled(r, now, w, never)
      case StuckAt(now, w, never) => !Settled(r, now, w, never) && r.createdAt < now - never
    }
  }

  ghost function Tagged(v: map<Key, Record>, t: Tag): set<Key> { set k | k in v && t.Holds(v[k]) }

  datatype Totals = Totals(total: int, settled: int, neverSettled: int, truncated: int, complete: int, adopted: int,
    suspect: int)
  {
    function Plus(o: Totals): Totals {
      Totals(total + o.total, settled + o.settled, neverSettled + o.neverSettled, truncated + o.truncated,
             complete + o.complete, adopted + o.adopted, suspect + o.suspect)
    }
  }

  /** The totals a scan of every record would give. */
  ghost function Scan(v: map<Key, Record>, now: Time, w: int, never: int): Totals {
    Totals(|Tagged(v, AnyKey)|, |Tagged(v, SettledAt(now, w, never))|, |Tagged(v, StuckAt(now, w, never))|,
      |Tagged(v, Truncated)|, |Tagged(v, FlagIs(Complete))|, |Tagged(v, FlagIs(Adopted))|, |Tagged(v, FlagIs(Suspect))|)
  }

  lemma TagIsClass(es: map<Key, Entry>, floor: nat, t: Tag, c: Class)
    requires forall e: Entry :: t.Holds(RecordOf(e, floor)) == c.Holds(e)
    ensures Tagged(ViewOf(es, floor), t) == KeysOf(es, c)
  {
  }

  /** The cached counters and the index walk give the totals of a scan. */
  lemma CachedTotals(es: map<Key, Entry>, c: Counts, floor: nat, now: Time, w: int, never: int, yes: set<Key>,
      no: set<Key>)
    requires c.Agree(es, floor)
    requires forall k :: k in yes <==> k in es && EntrySettled(es[k], now, w, never)
    requires forall k :: k in no <==> k in es && NeverSettled(es[k], now, w, never)
    ensures Scan(ViewOf(es, floor), now, w, never) ==
      Totals(|es|, |yes|, |no|, c.truncated, c.unswept, c.adopted, c.SuspectCount(|es|))
  {
    WalkedTotals(es, floor, now, w, never, yes, no);
    TagIsClass(es, floor, Truncated, IsTruncated);
    TagIsClass(es, floor, FlagIs(Complete), Fresh(floor));
    TagIsClass(es, floor, FlagIs(Adopted), IsAdopted);
    TagIsClass(es, floor, FlagIs(Suspect), IsSuspect(floor));
    SuspectCountAgrees(c, es, floor);
  }

  lemma WalkedTotals(es: map<Key, Entry>, floor: nat, now: Time, w: int, never: int, yes: set<Key>, no: set<Key>)
    requires forall k :: k in yes <==> k in es && EntrySettled(es[k], now, w, never)
    requires forall k :: k in no <==> k in es && NeverSettled(es[k], now, w, never)
    ensures Tagged(ViewOf(es, floor), AnyKey) == es.Keys
    ensures Tagged(ViewOf(es, floor), SettledAt(now, w, never)) == yes
    ensures Tagged(ViewOf(es, floor), StuckAt(now, w, never)) == no
  {
  }

  /** Marks the matching entries one by one, moving each between the cached cardinalities. */
  method MarkEntries(es: map<Key, Entry>, counts: Counts, matches: Key -> bool, floor: nat)
    returns (r: map<Key, Entry>, c: Counts)
    requires counts.Agree(es, floor)
    ensures r == MarkedWhere(es, matches) && c.Agree(r, floor)
  {
    r, c := es, counts;
    var rest := es.Keys;
    while rest != {}
      invariant rest <= es.Keys && r.Keys == es.Keys && c.Agree(r, floor)
      invariant forall k :: k in es ==> r[k] == (if k !in rest && matches(k) then MarkEntry(es[k]) else es[k])
      decreases |rest|
    {
      var k :| k in rest;
      rest := rest - {k};
      if r[k].trust.Complete? && matches(k) {
        RewriteAgrees(c, r, k, r[k].(trust := Suspect), floor);
        c := c.Forget(r[k], floor);
        r := r[k := r[k].(trust := Suspect)];
        c := c.Remember(r[k], floor);
      }
    }
  }

  method ClearEntries(es: map<Key, Entry>, matches: Key -> bool, gen: nat) returns (r: map<Key, Entry>)
    ensures r == ClearedWhere(es, matches, gen)
  {
    r := es;
    var rest := es.Keys;
    while rest != {}
      invariant rest <= es.Keys && r.Keys == es.Keys
      invariant forall k :: k in es ==> r[k] == (if k !in rest && matches(k) then ClearEntry(es[k], gen) else es[k])
      decreases |rest|
    {
      var k :| k in rest;
      rest := rest - {k};
      if matches(k) {
        var e := r[k];
        if e.trust.Suspect? {
          e := e.(trust := Complete);
        }
        if e.trust.Complete? {
          e := e.(gen := gen);
        }
        r := r[k := e];
      }
    }
  }

  /** Rebuilds the counters by walking the entries. */
  method Recount(es: map<Key, Entry>, floor: nat) returns (c: Counts)
    ensures c.Agree(es, floor)
  {
    c := Counts(0, 0, 0, 0);
    var rest := es.Keys;
    assert es - rest == map[];
    while rest != {}
      invariant rest <= es.Keys && c.Agree(es - rest, floor)
      decreases |rest|
    {
      var k :| k in rest;
      RememberAgrees(c, es - rest, k, es[k], floor);
      assert es - (rest - {k}) == (es - rest)[k := es[k]];
      c := c.Remember(es[k], floor);
      rest := rest - {k};
    }
    assert es - rest == es;
  }
}
