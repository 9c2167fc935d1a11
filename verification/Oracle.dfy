/** The oracle (pkg/oracle/oracle.go): sharded, budgeted, and marked suspect by generation. */
module Oracles {
  import opened Events
  import opened Counting
  import opened OracleShard

  // ---------------------------------------------------------------- the key budget

  /** Shard i's share of the budget. */
  function Share(budget: nat, shards: nat, i: nat): nat
    requires shards >= 1
  {
    budget / shards + One(i < budget % shards)
  }

  function ShareSum(budget: nat, shards: nat, n: nat): nat
    requires shards >= 1
  {
    if n == 0 then 0 else ShareSum(budget, shards, n - 1) + Share(budget, shards, n - 1)
  }

  lemma {:induction false} ShareSumClosed(budget: nat, shards: nat, n: nat)
    requires shards >= 1
    ensures ShareSum(budget, shards, n) == n * (budget / shards) + (if n < budget % shards then n else budget % shards)
  {
    if n > 0 {
      ShareSumClosed(budget, shards, n - 1);
      assert n * (budget / shards) == (n - 1) * (budget / shards) + budget / shards;
    }
  }

  /** The shares give away the whole budget and no more, and no shard is left without one. */
  lemma SharesPartitionBudget(budget: nat, shards: nat)
    requires 1 <= shards <= budget
    ensures ShareSum(budget, shards, shards) == budget
    ensures forall i: nat :: i < shards ==> Share(budget, shards, i) >= 1
    ensures forall i: nat, j: nat :: i <= j < shards ==>
      Share(budget, shards, j) <= Share(budget, shards, i) <= Share(budget, shards, j) + 1
  {
    ShareSumClosed(budget, shards, shards);
    AtLeastOne(budget, shards);
  }

  lemma AtLeastOne(budget: nat, shards: nat)
    requires 1 <= shards <= budget
    ensures budget / shards >= 1
  {
  }

  // ---------------------------------------------------------------- sharding

  /** The records of the keys that hash to shard i. */
  ghost function Part(r: map<Key, Record>, route: Key -> nat, i: nat): map<Key, Record> {
    map k | k in r && route(k) == i :: r[k]
  }

  /** The records of the keys that hash to a shard below n. */
  ghost function Below(r: map<Key, Record>, route: Key -> nat, n: nat): map<Key, Record> {
    map k | k in r && route(k) < n :: r[k]
  }

  lemma PartWritten(r: map<Key, Record>, route: Key -> nat, i: nat, victim: Option<Key>, k: Key, x: Record)
    requires victim.Some? ==> route(victim.value) == route(k)
    ensures Part(Without(r, victim)[k := x], route, i) ==
      if i == route(k) then Without(Part(r, route, i), victim)[k := x] else Part(r, route, i)
  {
  }

  lemma PartMarked(r: map<Key, Record>, route: Key -> nat, i: nat, matches: Key -> bool)
    ensures Part(MarkRecords(r, matches), route, i) == MarkRecords(Part(r, route, i), matches)
    ensures Part(ClearRecords(r, matches), route, i) == ClearRecords(Part(r, route, i), matches)
  {
  }

  lemma TaggedBelow(r: map<Key, Record>, route: Key -> nat, n: nat, t: Tag)
    ensures |Tagged(Below(r, route, n + 1), t)| == |Tagged(Below(r, route, n), t)| + |Tagged(Part(r, route, n), t)|
  {
    DisjointUnion(Tagged(Below(r, route, n + 1), t), Tagged(Below(r, route, n), t), Tagged(Part(r, route, n), t));
  }

  /** Totals add up shard by shard. */
  lemma ScanBelow(r: map<Key, Record>, route: Key -> nat, n: nat, now: Time, w: int, never: int)
    ensures Scan(Below(r, route, n + 1), now, w, never) ==
      Scan(Below(r, route, n), now, w, never).Plus(Scan(Part(r, route, n), now, w, never))
  {
    TaggedBelow(r, route, n, AnyKey);
    TaggedBelow(r, route, n, SettledAt(now, w, never));
    TaggedBelow(r, route, n, StuckAt(now, w, never));
    TaggedBelow(r, route, n, Truncated);
    TaggedBelow(r, route, n, FlagIs(Complete));
    TaggedBelow(r, route, n, FlagIs(Adopted));
    TaggedBelow(r, route, n, FlagIs(Suspect));
  }

  lemma {:induction false} BudgetBelow(r: map<Key, Record>, route: Key -> nat, budget: nat, shards: nat, n: nat)
    requires shards >= 1
    requires forall i: nat :: i < n ==> |Part(r, route, i)| <= Share(budget, shards, i)
    ensures |Below(r, route, n)| <= ShareSum(budget, shards, n)
  {
    if n == 0 {
      assert Below(r, route, 0) == map[];
    } else {
      BudgetBelow(r, route, budget, shards, n - 1);
      var a, b := Below(r, route, n - 1), Part(r, route, n - 1);
      DisjointUnion(Below(r, route, n).Keys, a.Keys, b.Keys);
    }
  }

  // ---------------------------------------------------------------- the oracle

  /** How long a key may stay in flight before the stability check tries to rescue it. */
  function NeverSettledThreshold(w: nat, factor: nat, maxWindow: nat): nat {
    if factor * w > maxWindow then maxWindow else factor * w
  }

  /** The rescue never rushes a comparison: the threshold is at least the window, and within the maximum
      it is so many windows. */
  lemma ThresholdAtLeastWindow(w: nat, factor: nat, maxWindow: nat)
    requires factor >= 1 && w <= maxWindow
    ensures w <= NeverSettledThreshold(w, factor, maxWindow) <= maxWindow
    ensures factor * w <= maxWindow ==> NeverSettledThreshold(w, factor, maxWindow) == factor * w
    ensures factor * w >= maxWindow ==> NeverSettledThreshold(w, factor, maxWindow) == maxWindow
  {
    assert factor * w == w + (factor - 1) * w;
  }

  /** A key is evicted exactly when a new key meets a full shard, and it is a key of that shard:
      coalesced, or else from the smallest bucket the shard has live. */
  ghost predicate EvictionJustified(
    r: map<Key, Record>, c: Config, n: nat, k: Option<Key>, evicted: Option<Key>, horizon: Option<Time>)
  {
    && n >= 1 && c.width > 0
    && (evicted.Some? <==>
          k.Some? && k.value !in r && |Part(r, c.route, c.route(k.value))| == Share(c.budget, n, c.route(k.value)))
    && (evicted.Some? ==>
          var v := evicted.value;
          && v in r && c.route(v) == c.route(k.value)
          && (|| (horizon.Some? && r[v].lastEventAt < horizon.value)
              || (forall x :: x in r && c.route(x) == c.route(v) ==>
                    TruncDiv(r[v].lastEventAt, c.width) <= TruncDiv(r[x].lastEventAt, c.width))))
  }

  datatype Config = Config(route: Key -> nat, budget: nat, width: int, maxWindow: nat, factor: nat)
  {
    ghost predicate Valid(n: nat) {
      1 <= n <= budget && factor >= 1 && width > 0 && forall k :: route(k) < n
    }
  }

  /** Shard i of n holds its part of r, within its share. */
  ghost predicate ShardOk(c: Config, s: Shard, i: nat, n: nat, r: map<Key, Record>, horizon: Option<Time>, floor: nat,
      gen: nat) {
    && s.Valid(floor, gen, horizon) && s.View(floor) == Part(r, c.route, i)
    && n >= 1 && s.maxKeys == Share(c.budget, n, i) && s.bucketWidth == c.width
  }

  ghost predicate AllOk(c: Config, shs: seq<Shard>, lo: nat, hi: nat, r: map<Key, Record>, horizon: Option<Time>,
      floor: nat, gen: nat) {
    hi <= |shs| && forall i :: lo <= i < hi ==> ShardOk(c, shs[i], i, |shs|, r, horizon, floor, gen)
  }

  /** Replacing the first outdated shard moves the boundary between old and new by one. */
  lemma AdvanceOk(c: Config, shs: seq<Shard>, i: nat, s: Shard,
                  r: map<Key, Record>, h: Option<Time>, f: nat, g: nat,
                  r': map<Key, Record>, h': Option<Time>, f': nat, g': nat)
    requires i < |shs| && AllOk(c, shs, 0, i, r', h', f', g') && AllOk(c, shs, i, |shs|, r, h, f, g)
    requires ShardOk(c, s, i, |shs|, r', h', f', g')
    ensures AllOk(c, shs[i := s], 0, i + 1, r', h', f', g') && AllOk(c, shs[i := s], i + 1, |shs|, r, h, f, g)
  {
  }

  /** Writing one key disturbs only the shard it hashes to. */
  lemma WriteOk(c: Config, shs: seq<Shard>, s: Shard, victim: Option<Key>, k: Key, x: Record,
                r: map<Key, Record>, h: Option<Time>, f: nat, g: nat)
    requires c.route(k) < |shs| && AllOk(c, shs, 0, |shs|, r, h, f, g)
    requires victim.Some? ==> c.route(victim.value) == c.route(k)
    requires s.Valid(f, g, h) && s.SameShape(shs[c.route(k)])
    requires s.View(f) == Without(shs[c.route(k)].View(f), victim)[k := x]
    ensures AllOk(c, shs[c.route(k) := s], 0, |shs|, Without(r, victim)[k := x], h, f, g)
  {
    var shs' := shs[c.route(k) := s];
    forall i | 0 <= i < |shs|
      ensures ShardOk(c, shs'[i], i, |shs|, Without(r, victim)[k := x], h, f, g)
    {
      assert ShardOk(c, shs[i], i, |shs|, r, h, f, g);
      PartWritten(r, c.route, i, victim, k, x);
    }
  }

  /** In every reachable state the tracked keys fit the budget. */
  lemma WithinBudget(c: Config, shs: seq<Shard>, r: map<Key, Record>, h: Option<Time>, f: nat, g: nat)
    requires c.Valid(|shs|) && AllOk(c, shs, 0, |shs|, r, h, f, g)
    ensures |r| <= c.budget
  {
    forall i: nat | i < |shs|
      ensures |Part(r, c.route, i)| <= Share(c.budget, |shs|, i)
    {
      assert ShardOk(c, shs[i], i, |shs|, r, h, f, g);
      assert shs[i].View(f).Keys == shs[i].entries.Keys;
    }
    BudgetBelow(r, c.route, c.budget, |shs|, |shs|);
    SharesPartitionBudget(c.budget, |shs|);
    assert Below(r, c.route, |shs|) == r;
  }

  method ApplyTo(c: Config, before: seq<Shard>, m: Mutation, now: Time, trust: Trust,
                 ghost r: map<Key, Record>, ghost h: Option<Time>, f: nat, g: nat)
    returns (shs: seq<Shard>, evicted: Option<Key>)
    requires c.Valid(|before|) && AllOk(c, before, 0, |before|, r, h, f, g) && !m.action.Nothing?
    ensures |shs| == |before|
    ensures AllOk(c, shs, 0, |shs|, Without(r, evicted)[m.key := Written(Lookup(r, m.key), m, now, trust)], h, f, g)
    ensures EvictionJustified(r, c, |shs|, Some(m.key), evicted, h)
  {
    var i := c.route(m.key);
    assert ShardOk(c, before[i], i, |before|, r, h, f, g);
    var s;
    s, evicted := before[i].Apply(m, now, trust, f, g, h);
    Justify(r, c, |before|, m.key, evicted, before[i], f, g, h);
    WriteOk(c, before, s, evicted, m.key, Written(Lookup(r, m.key), m, now, trust), r, h, f, g);
    shs := before[i := s];
  }

  method AdoptInto(c: Config, before: seq<Shard>, k: Key, value: Value, at: Time,
                   ghost r: map<Key, Record>, ghost h: Option<Time>, f: nat, g: nat)
    returns (shs: seq<Shard>, evicted: Option<Key>)
    requires c.Valid(|before|) && AllOk(c, before, 0, |before|, r, h, f, g)
    ensures |shs| == |before|
    ensures AllOk(c, shs, 0, |shs|, Without(r, evicted)[k := AdoptedRecord(Lookup(r, k), value, at)], h, f, g)
    ensures EvictionJustified(r, c, |shs|, Some(k), evicted, h)
  {
    var i := c.route(k);
    assert ShardOk(c, before[i], i, |before|, r, h, f, g);
    var s;
    s, evicted := before[i].Adopt(k, value, at, f, g, h);
    Justify(r, c, |before|, k, evicted, before[i], f, g, h);
    WriteOk(c, before, s, evicted, k, AdoptedRecord(Lookup(r, k), value, at), r, h, f, g);
    shs := before[i := s];
  }

  method NewShards(c: Config, n: nat) returns (shs: seq<Shard>)
    requires c.Valid(n)
    ensures |shs| == n && AllOk(c, shs, 0, n, map[], None, 0, 0)
  {
    SharesPartitionBudget(c.budget, n);
    shs := [];
    while |shs| < n
      invariant |shs| <= n && forall i :: 0 <= i < |shs| ==> ShardOk(c, shs[i], i, n, map[], None, 0, 0)
    {
      assert NewShard(Share(c.budget, n, |shs|), c.width).View(0) == map[];
      shs := shs + [NewShard(Share(c.budget, n, |shs|), c.width)];
    }
  }

  method MarkAllShards(c: Config, before: seq<Shard>, ghost r: map<Key, Record>, ghost h: Option<Time>, ghost f: nat,
      ghost g: nat)
    returns (shs: seq<Shard>)
    requires AllOk(c, before, 0, |before|, r, h, f, g)
    ensures |shs| == |before| && AllOk(c, shs, 0, |shs|, MarkRecords(r, EveryKey), h, g + 1, g + 1)
  {
    shs := before;
    ghost var marked := MarkRecords(r, EveryKey);
    for i := 0 to |shs|
      invariant |shs| == |before|
      invariant AllOk(c, shs, 0, i, marked, h, g + 1, g + 1) && AllOk(c, shs, i, |shs|, r, h, f, g)
    {
      assert ShardOk(c, shs[i], i, |shs|, r, h, f, g);
      PartMarked(r, c.route, i, EveryKey);
      var s := shs[i].MarkAll(f, g, h);
      AdvanceOk(c, shs, i, s, r, h, f, g, marked, h, g + 1, g + 1);
      shs := shs[i := s];
    }
  }

  method MarkShards(c: Config, before: seq<Shard>, matches: Key -> bool, ghost r: map<Key, Record>,
      ghost h: Option<Time>, f: nat, ghost g: nat)
    returns (shs: seq<Shard>)
    requires AllOk(c, before, 0, |before|, r, h, f, g)
    ensures |shs| == |before| && AllOk(c, shs, 0, |shs|, MarkRecords(r, matches), h, f, g)
  {
    shs := before;
    ghost var marked := MarkRecords(r, matches);
    for i := 0 to |shs|
      invariant |shs| == |before|
      invariant AllOk(c, shs, 0, i, marked, h, f, g) && AllOk(c, shs, i, |shs|, r, h, f, g)
    {
      assert ShardOk(c, shs[i], i, |shs|, r, h, f, g);
      PartMarked(r, c.route, i, matches);
      var s := shs[i].MarkMatching(matches, f, g, h);
      AdvanceOk(c, shs, i, s, r, h, f, g, marked, h, f, g);
      shs := shs[i := s];
    }
  }

  method ClearShards(c: Config, before: seq<Shard>, matches: Key -> bool, ghost r: map<Key, Record>,
      ghost h: Option<Time>, ghost f: nat, f': nat, g: nat)
    returns (shs: seq<Shard>)
    requires AllOk(c, before, 0, |before|, r, h, f, g)
    requires f' == f || (f' == 0 && forall k :: matches(k))
    ensures |shs| == |before| && AllOk(c, shs, 0, |shs|, ClearRecords(r, matches), h, f', g)
  {
    shs := before;
    ghost var cleared := ClearRecords(r, matches);
    for i := 0 to |shs|
      invariant |shs| == |before|
      invariant AllOk(c, shs, 0, i, cleared, h, f', g) && AllOk(c, shs, i, |shs|, r, h, f, g)
    {
      assert ShardOk(c, shs[i], i, |shs|, r, h, f, g);
      PartMarked(r, c.route, i, matches);
      var s := shs[i].ClearMatching(matches, f, f', g, h);
      AdvanceOk(c, shs, i, s, r, h, f, g, cleared, h, f', g);
      shs := shs[i := s];
    }
  }

  /** No event is from the future. */
  ghost predicate NoneAfter(r: map<Key, Record>, now: Time) { forall k :: k in r ==> r[k].lastEventAt <= now }

  /** The first n shards have no more live buckets than the longest window spans. */
  ghost predicate FewBuckets(c: Config, shs: seq<Shard>, n: nat) {
    c.width > 0 && n <= |shs| && forall i :: 0 <= i < n ==> |shs[i].index.buckets| <= CeilDiv(c.maxWindow, c.width) + 1
  }

  lemma PartTimes(c: Config, s: Shard, i: nat, n: nat, r: map<Key, Record>, h: Option<Time>, f: nat, g: nat, now: Time)
    requires ShardOk(c, s, i, n, r, h, f, g)
    ensures NoneAfter(r, now) ==> forall k :: k in s.entries ==> s.entries[k].lastEventAt <= now
  {
    forall k | k in s.entries
      ensures k in r && r[k].lastEventAt == s.entries[k].lastEventAt
    {
      assert k in s.View(f) && s.View(f)[k] == Part(r, c.route, i)[k];
    }
  }

  /** Coalesces every shard up to now. */
  method PromoteShards(c: Config, before: seq<Shard>, now: Time, ghost r: map<Key, Record>, ghost h: Option<Time>,
      ghost f: nat, ghost g: nat)
    returns (shs: seq<Shard>)
    requires c.width > 0 && AllOk(c, before, 0, |before|, r, h, f, g) && NoLater(h, now - c.maxWindow)
    ensures |shs| == |before| && AllOk(c, shs, 0, |shs|, r, Some(now - c.maxWindow), f, g)
    ensures NoneAfter(r, now) ==> FewBuckets(c, shs, |shs|)
  {
    shs := before;
    for i := 0 to |shs|
      invariant |shs| == |before|
      invariant AllOk(c, shs, 0, i, r, Some(now - c.maxWindow), f, g) && AllOk(c, shs, i, |shs|, r, h, f, g)
      invariant NoneAfter(r, now) ==> FewBuckets(c, shs, i)
    {
      assert ShardOk(c, shs[i], i, |shs|, r, h, f, g);
      var s := shs[i].Promote(now, c.maxWindow, f, g, h);
      PartTimes(c, shs[i], i, |shs|, r, h, f, g, now);
      AdvanceOk(c, shs, i, s, r, h, f, g, r, Some(now - c.maxWindow), f, g);
      shs := shs[i := s];
    }
  }

  method ListShards(c: Config, shs: seq<Shard>, now: Time, w: nat, never: int, ghost r: map<Key, Record>,
      ghost f: nat, ghost g: nat)
    returns (dst: seq<Key>)
    requires c.Valid(|shs|) && AllOk(c, shs, 0, |shs|, r, Some(now - c.maxWindow), f, g) && w <= c.maxWindow
    ensures Distinct(dst)
    ensures forall k :: k in dst <==> k in r && Settled(r[k], now, w, never)
  {
    dst := [];
    for i := 0 to |shs|
      invariant Distinct(dst)
      invariant forall k :: k in dst <==> c.route(k) < i && k in r && Settled(r[k], now, w, never)
    {
      assert ShardOk(c, shs[i], i, |shs|, r, Some(now - c.maxWindow), f, g);
      var part := shs[i].SettledKeys(now, w, never, f, g, now - c.maxWindow);
      DistinctConcat(dst, part);
      dst := dst + part;
    }
  }

  lemma DistinctConcat(a: seq<Key>, b: seq<Key>)
    requires Distinct(a) && Distinct(b) && forall k :: k in a ==> k !in b
    ensures Distinct(a + b)
  {
    forall i, j | 0 <= i < j < |a + b|
      ensures (a + b)[i] != (a + b)[j]
    {
      if i < |a| <= j {
        assert a[i] in a && b[j - |a|] in b;
      }
    }
  }

  /** The totals of the shards below i. */
  ghost predicate Tallied(t: Totals, r: map<Key, Record>, route: Key -> nat, i: nat, now: Time, w: int, never: int) {
    t == Scan(Below(r, route, i), now, w, never)
  }

  method ReportOne(c: Config, s: Shard, t: Totals, now: Time, w: nat, never: int,
                   ghost i: nat, ghost n: nat, ghost r: map<Key, Record>, ghost f: nat, ghost g: nat)
    returns (t': Totals)
    requires ShardOk(c, s, i, n, r, Some(now - c.maxWindow), f, g) && w <= c.maxWindow
    requires Tallied(t, r, c.route, i, now, w, never)
    ensures Tallied(t', r, c.route, i + 1, now, w, never)
  {
    var part := s.Report(now, w, never, f, g, now - c.maxWindow);
    ScanBelow(r, c.route, i, now, w, never);
    t' := t.Plus(part);
  }

  method ReportShards(c: Config, shs: seq<Shard>, now: Time, w: nat, never: int,
                      ghost r: map<Key, Record>, ghost f: nat, ghost g: nat)
    returns (t: Totals)
    requires c.Valid(|shs|) && AllOk(c, shs, 0, |shs|, r, Some(now - c.maxWindow), f, g) && w <= c.maxWindow
    ensures t == Scan(r, now, w, never)
  {
    t := Totals(0, 0, 0, 0, 0, 0, 0);
    NothingBelow(r, c.route, now, w, never);
    for i := 0 to |shs|
      invariant Tallied(t, r, c.route, i, now, w, never)
    {
      assert ShardOk(c, shs[i], i, |shs|, r, Some(now - c.maxWindow), f, g);
      t := ReportOne(c, shs[i], t, now, w, never, i, |shs|, r, f, g);
    }
    AllBelow(r, c.route, |shs|);
  }

  lemma AllBelow(r: map<Key, Record>, route: Key -> nat, n: nat)
    requires forall k :: route(k) < n
    ensures Below(r, route, n) == r
  {
  }

  class Oracle {
    const cfg: Config
    var shards: seq<Shard>
    var window: nat
    var suspectGen: nat
    var suspectFloor: nat
    /** The naive oracle this one stands for, and the instant of its last query. */
    ghost var records: map<Key, Record>
    ghost var asOf: Option<Time>

    ghost function Horizon(): Option<Time>
      reads this
    {
      if asOf.Some? then Some(asOf.value - cfg.maxWindow) else None
    }

    ghost predicate Valid()
      reads this
    {
      && cfg.Valid(|shards|) && window <= cfg.maxWindow
      && AllOk(cfg, shards, 0, |shards|, records, Horizon(), suspectFloor, suspectGen)
    }

    function Threshold(): nat
      reads this
    {
      NeverSettledThreshold(window, cfg.factor, cfg.maxWindow)
    }

    constructor (cfg: Config, shardCount: nat, window: nat)
      requires cfg.Valid(shardCount) && window <= cfg.maxWindow
      ensures Valid() && records == map[] && asOf == None && this.cfg == cfg && this.window == window
      ensures |shards| == shardCount
    {
      this.cfg, this.window := cfg, window;
      suspectGen, suspectFloor, records, asOf := 0, 0, map[], None;
      var shs := NewShards(cfg, shardCount);
      shards := shs;
    }

    /** Applies a mutation to the shard its key hashes to. */
    method Apply(m: Mutation, now: Time, trust: Trust) returns (evicted: Option<Key>)
      requires Valid()
      modifies this`records, this`shards
      ensures Valid() && |shards| == old(|shards|)
      ensures m.action.Nothing? ==> evicted.None? && records == old(records)
      ensures !m.action.Nothing? ==>
        records == Without(old(records), evicted)[m.key := Written(Lookup(old(records), m.key), m, now, trust)]
      ensures EvictionJustified(old(records), cfg, |shards|, if m.action.Nothing? then None else Some(m.key), evicted,
        Horizon())
    {
      if m.action.Nothing? {
        return None;
      }
      shards, evicted := ApplyTo(cfg, shards, m, now, trust, records, Horizon(), suspectFloor, suspectGen);
      records := Without(records, evicted)[m.key := Written(Lookup(records, m.key), m, now, trust)];
    }

    /** Loads one key of the target's snapshot. */
    method Adopt(k: Key, value: Value, at: Time) returns (evicted: Option<Key>)
      requires Valid()
      modifies this`records, this`shards
      ensures Valid() && |shards| == old(|shards|)
      ensures records == Without(old(records), evicted)[k := AdoptedRecord(Lookup(old(records), k), value, at)]
      ensures EvictionJustified(old(records), cfg, |shards|, Some(k), evicted, Horizon())
    {
      shards, evicted := AdoptInto(cfg, shards, k, value, at, records, Horizon(), suspectFloor, suspectGen);
      records := Without(records, evicted)[k := AdoptedRecord(Lookup(records, k), value, at)];
    }

    /** One counter, one floor and one reset per shard, whatever the number of keys. */
    method MarkAllSuspect()
      requires Valid()
      modifies this`records, this`suspectGen, this`suspectFloor, this`shards
      ensures Valid() && |shards| == old(|shards|) && records == MarkRecords(old(records), EveryKey)
    {
      shards := MarkAllShards(cfg, shards, records, Horizon(), suspectFloor, suspectGen);
      suspectGen := suspectGen + 1;
      suspectFloor, records := suspectGen, MarkRecords(records, EveryKey);
    }

    method MarkSuspect(matches: Key -> bool)
      requires Valid()
      modifies this`records, this`shards
      ensures Valid() && |shards| == old(|shards|) && records == MarkRecords(old(records), matches)
    {
      shards := MarkShards(cfg, shards, matches, records, Horizon(), suspectFloor, suspectGen);
      records := MarkRecords(records, matches);
    }

    /** The empty pattern also lowers the floor; either way every matching entry is rewritten. */
    method ClearSuspect(matches: Key -> bool, all: bool)
      requires Valid() && (all ==> forall k :: matches(k))
      modifies this`records, this`suspectFloor, this`shards
      ensures Valid() && |shards| == old(|shards|) && records == ClearRecords(old(records), matches)
    {
      var floor := if all then 0 else suspectFloor;
      shards := ClearShards(cfg, shards, matches, records, Horizon(), suspectFloor, floor, suspectGen);
      suspectFloor, records := floor, ClearRecords(records, matches);
    }

    /** The adaptive estimator moves W at runtime; values out of range are clamped. */
    method SetSettlementWindow(d: int)
      requires Valid()
      modifies this`window
      ensures Valid() && window == ClampWindow(d, cfg.maxWindow)
      ensures window == (if d <= 0 then 0 else if d >= cfg.maxWindow then cfg.maxWindow else d)
    {
      window := ClampWindow(d, cfg.maxWindow);
    }

    /** The value, version and effective trust of a key. */
    method Get(k: Key) returns (r: Option<Record>)
      requires Valid()
      ensures r == Lookup(records, k)
    {
      var i := cfg.route(k);
      assert ShardOk(cfg, shards[i], i, |shards|, records, Horizon(), suspectFloor, suspectGen);
      r := shards[i].Find(k, suspectFloor);
    }

    /** Every key settled as of now under the current window, each exactly once. */
    method SettledKeys(now: Time) returns (dst: seq<Key>)
      requires Valid() && NoLater(asOf, now)
      modifies this`asOf, this`shards
      ensures Valid() && |shards| == old(|shards|) && asOf == Some(now)
      ensures Distinct(dst)
      ensures var r := records; forall k :: k in dst <==>
        && k in r
        && (r[k].lastEventAt < now - window ||
            (r[k].lastValueChangeAt.Some? && r[k].lastValueChangeAt.value < now - Threshold()))
      ensures NoneAfter(records, now) ==> FewBuckets(cfg, shards, |shards|)
    {
      shards := PromoteShards(cfg, shards, now, records, Horizon(), suspectFloor, suspectGen);
      asOf := Some(now);
      dst := ListShards(cfg, shards, now, window, Threshold(), records, suspectFloor, suspectGen);
    }

    method Report(now: Time) returns (t: Totals)
      requires Valid() && NoLater(asOf, now)
      modifies this`asOf, this`shards
      ensures Valid() && |shards| == old(|shards|) && asOf == Some(now)
      ensures t == Scan(records, now, window, Threshold())
    {
      shards := PromoteShards(cfg, shards, now, records, Horizon(), suspectFloor, suspectGen);
      asOf := Some(now);
      t := ReportShards(cfg, shards, now, window, Threshold(), records, suspectFloor, suspectGen);
    }
  }

  function ClampWindow(d: int, maxWindow: nat): nat {
    if d < 0 then 0 else if d > maxWindow then maxWindow else d
  }

  lemma NothingBelow(r: map<Key, Record>, route: Key -> nat, now: Time, w: int, never: int)
    ensures Scan(Below(r, route, 0), now, w, never) == Totals(0, 0, 0, 0, 0, 0, 0)
  {
    assert Below(r, route, 0) == map[];
    assert forall t :: Tagged(map[], t) == {};
  }

  lemma Justify(r: map<Key, Record>, c: Config, n: nat, k: Key, evicted: Option<Key>, s: Shard, floor: nat, gen: nat,
      horizon: Option<Time>)
    requires ShardOk(c, s, c.route(k), n, r, horizon, floor, gen)
    requires evicted.Some? <==> k !in s.entries && |s.entries| == s.maxKeys
    requires evicted.Some? ==> evicted.value in s.entries && Stalest(s.entries, evicted.value, horizon)
    ensures EvictionJustified(r, c, n, Some(k), evicted, horizon)
    ensures Lookup(s.View(floor), k) == Lookup(r, k)
  {
    var p, es := Part(r, c.route, c.route(k)), s.entries;
    assert s.View(floor) == p;
    Locate(s.index, es, s.bucketWidth, horizon);
    assert p.Keys == es.Keys;
    assert forall x :: x in es ==> p[x] == RecordOf(es[x], floor) && r[x] == p[x] && InBucket(es[x], c.width);
    assert forall x :: x in r && c.route(x) == c.route(k) ==> x in p;
  }
}
