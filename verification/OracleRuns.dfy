/** Whole runs of the oracle: for any sequence of writes, adoptions, marks, clears, window changes
    and queries, every answer is the one a naive oracle gives, which keeps one flagged record per
    key and answers each query by scanning all of them. */
module OracleRuns {
  import opened Events
  import opened OracleShard
  import opened Oracles

  datatype Op =
    | Write(m: Mutation, now: Time, trust: Trust)
    | Load(key: Key, value: Value, at: Time)
    | MarkAll
    | Mark(matches: Key -> bool)
    | ClearAll
    | Clear(matches: Key -> bool)
    | SetWindow(d: int)
    | Look(key: Key)
    | ListSettledKeys(now: Time)
    | CountKeys(now: Time)

  datatype Answer = Silent | Evicted(victim: Option<Key>) | Found(record: Option<Record>) | Listed(keys: seq<Key>) |
    Counted(totals: Totals)

  datatype Naive = Naive(records: map<Key, Record>, window: nat, asOf: Option<Time>)

  ghost predicate Asked(op: Op, asOf: Option<Time>) {
    match op
    case ListSettledKeys(now) => NoLater(asOf, now)
    case CountKeys(now) => NoLater(asOf, now)
    case _ => true
  }

  /** The naive oracle after one operation. Which key an eviction takes is read off the answer. */
  ghost function After(c: Config, n: Naive, op: Op, a: Answer): Naive {
    var victim := if a.Evicted? then a.victim else None;
    match op
    case Write(m, now, trust) =>
      if m.action.Nothing? then n
      else n.(records := Without(n.records, victim)[m.key := Written(Lookup(n.records, m.key), m, now, trust)])
    case Load(k, v, at) => n.(records := Without(n.records, victim)[k := AdoptedRecord(Lookup(n.records, k), v, at)])
    case MarkAll => n.(records := MarkRecords(n.records, EveryKey))
    case Mark(p) => n.(records := MarkRecords(n.records, p))
    case ClearAll => n.(records := ClearRecords(n.records, EveryKey))
    case Clear(p) => n.(records := ClearRecords(n.records, p))
    case SetWindow(d) => n.(window := ClampWindow(d, c.maxWindow))
    case Look(_) => n
    case ListSettledKeys(now) => n.(asOf := Some(now))
    case CountKeys(now) => n.(asOf := Some(now))
  }

  /** The answers the naive oracle allows. */
  ghost predicate Right(c: Config, shards: nat, n: Naive, op: Op, a: Answer) {
    var horizon := if n.asOf.Some? then Some(n.asOf.value - c.maxWindow) else None;
    var never := NeverSettledThreshold(n.window, c.factor, c.maxWindow);
    match op
    case Write(m, _, _) => a.Evicted? &&
      EvictionJustified(n.records, c, shards, if m.action.Nothing? then None else Some(m.key), a.victim, horizon)
    case Load(k, _, _) => a.Evicted? && EvictionJustified(n.records, c, shards, Some(k), a.victim, horizon)
    case Look(k) => a == Found(Lookup(n.records, k))
    case ListSettledKeys(now) =>
      a.Listed? && Distinct(a.keys) && forall k :: k in a.keys <==>
        k in n.records && Settled(n.records[k], now, n.window, never)
    case CountKeys(now) => a.Counted? && a.totals == Scan(n.records, now, n.window, never)
    case _ => a.Silent?
  }

  /** Query times never go back along the run. */
  ghost predicate Ordered(ops: seq<Op>, asOf: Option<Time>) {
    ops == [] || (Asked(ops[0], asOf) &&
      Ordered(ops[1..],
        match ops[0]
        case ListSettledKeys(now) => Some(now)
        case CountKeys(now) => Some(now)
        case _ => asOf))
  }

  /** Every answer is right, and every state on the way is within the key budget. */
  ghost predicate Explained(c: Config, shards: nat, n: Naive, ops: seq<Op>, answers: seq<Answer>)
    decreases |ops|
  {
    && |n.records| <= c.budget
    && |answers| == |ops|
    && (ops == [] ||
         (Right(c, shards, n, ops[0], answers[0]) &&
          Explained(c, shards, After(c, n, ops[0], answers[0]), ops[1..], answers[1..])))
  }

  ghost function Abs(o: Oracle): Naive
    reads o
  {
    Naive(o.records, o.window, o.asOf)
  }

  /** One operation on the sharded, indexed, generation-counted oracle. */
  method Do(o: Oracle, op: Op) returns (a: Answer)
    requires o.Valid() && Asked(op, o.asOf)
    modifies o
    ensures o.Valid() && |o.shards| == old(|o.shards|)
    ensures Right(o.cfg, |o.shards|, old(Abs(o)), op, a)
    ensures Abs(o) == After(o.cfg, old(Abs(o)), op, a)
  {
    a := Silent;
    match op
    case Write(m, now, trust) =>
      var victim := o.Apply(m, now, trust);
      a := Evicted(victim);
    case Load(k, v, at) =>
      var victim := o.Adopt(k, v, at);
      a := Evicted(victim);
    case MarkAll => o.MarkAllSuspect();
    case Mark(p) => o.MarkSuspect(p);
    case ClearAll => o.ClearSuspect(EveryKey, true);
    case Clear(p) => o.ClearSuspect(p, false);
    case SetWindow(d) => o.SetSettlementWindow(d);
    case Look(k) =>
      var r := o.Get(k);
      a := Found(r);
    case ListSettledKeys(now) =>
      var keys := o.SettledKeys(now);
      a := Listed(keys);
    case CountKeys(now) =>
      var t := o.Report(now);
      a := Counted(t);
  }

  /** The refinement theorem: a run of the real structure is a run of the naive one. */
  method Replay(c: Config, shards: nat, window: nat, ops: seq<Op>) returns (answers: seq<Answer>)
    requires c.Valid(shards) && window <= c.maxWindow && Ordered(ops, None)
    ensures Explained(c, shards, Naive(map[], window, None), ops, answers)
  {
    var o := new Oracle(c, shards, window);
    ghost var start := Abs(o);
    answers := [];
    assert ops[0..] == ops;
    assert forall rest: seq<Answer> :: answers + rest == rest;
    for i := 0 to |ops|
      invariant o.Valid() && o.cfg == c && |o.shards| == shards && |answers| == i
      invariant Ordered(ops[i..], o.asOf)
      invariant forall rest: seq<Answer> ::
        Explained(c, shards, Abs(o), ops[i..], rest) ==> Explained(c, shards, start, ops, answers + rest)
    {
      ghost var n := Abs(o);
      WithinBudget(c, o.shards, o.records, o.Horizon(), o.suspectFloor, o.suspectGen);
      var a := Do(o, ops[i]);
      forall rest: seq<Answer> | Explained(c, shards, Abs(o), ops[i + 1..], rest)
        ensures Explained(c, shards, start, ops, answers + [a] + rest)
      {
        assert ops[i..][1..] == ops[i + 1..];
        assert ([a] + rest)[1..] == rest;
        assert Explained(c, shards, n, ops[i..], [a] + rest);
        assert answers + [a] + rest == answers + ([a] + rest);
      }
      assert ops[i..][1..] == ops[i + 1..];
      answers := answers + [a];
    }
    WithinBudget(c, o.shards, o.records, o.Horizon(), o.suspectFloor, o.suspectGen);
    assert Explained(c, shards, Abs(o), ops[|ops|..], []);
    assert answers + [] == answers;
  }
}
