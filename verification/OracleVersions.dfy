/** What an equal version means (pkg/oracle/oracle.go). The fences of a sweep and of a confirmation
    compare version numbers, and a key that is evicted and recreated starts again at one. */
module OracleVersions {
  import opened Events
  import opened OracleShard
  import opened Oracles
  import opened OracleRuns

  /** The operation writes the key's record. */
  predicate Touches(op: OracleRuns.Op, k: Key) {
    (op.Write? && !op.m.action.Nothing? && op.m.key == k) || (op.Load? && op.key == k)
  }

  predicate Evicts(a: Answer, k: Key) { a == Evicted(Some(k)) }

  ghost function RunNaive(c: Config, n: Naive, ops: seq<OracleRuns.Op>, answers: seq<Answer>): Naive
    requires |answers| == |ops|
    decreases |ops|
  {
    if ops == [] then n else RunNaive(c, After(c, n, ops[0], answers[0]), ops[1..], answers[1..])
  }

  ghost predicate Untouched(ops: seq<OracleRuns.Op>, k: Key) { forall i :: 0 <= i < |ops| ==> !Touches(ops[i], k) }

  ghost predicate NeverEvicted(answers: seq<Answer>, k: Key) {
    forall i :: 0 <= i < |answers| ==> !Evicts(answers[i], k)
  }

  /** One step that does not evict the key keeps it, with the same value at the same version or a
      higher version. */
  lemma StepVersion(c: Config, n: Naive, op: OracleRuns.Op, a: Answer, k: Key)
    requires k in n.records && !Evicts(a, k)
    ensures var r := After(c, n, op, a).records;
      && k in r
      && (if Touches(op, k) then r[k].version == n.records[k].version + 1
          else r[k].version == n.records[k].version && r[k].value == n.records[k].value)
  {
  }

  lemma {:induction false} RunVersion(c: Config, n: Naive, ops: seq<OracleRuns.Op>, answers: seq<Answer>, k: Key)
    requires |answers| == |ops| && k in n.records && NeverEvicted(answers, k)
    ensures var r := RunNaive(c, n, ops, answers).records;
      && k in r && r[k].version >= n.records[k].version
      && (r[k].version == n.records[k].version <==> Untouched(ops, k))
      && (Untouched(ops, k) ==> r[k].value == n.records[k].value)
    decreases |ops|
  {
    if ops != [] {
      StepVersion(c, n, ops[0], answers[0], k);
      RunVersion(c, After(c, n, ops[0], answers[0]), ops[1..], answers[1..], k);
      assert Untouched(ops, k) <==> !Touches(ops[0], k) && Untouched(ops[1..], k) by {
        assert forall i :: 1 <= i < |ops| ==> ops[i] == ops[1..][i - 1];
      }
    }
  }

  lemma {:induction false} AbsentStaysAbsent(c: Config, n: Naive, ops: seq<OracleRuns.Op>, answers: seq<Answer>, k: Key)
    requires |answers| == |ops| && k !in n.records && Untouched(ops, k)
    ensures k !in RunNaive(c, n, ops, answers).records
    decreases |ops|
  {
    if ops != [] {
      assert !Touches(ops[0], k);
      AbsentStaysAbsent(c, After(c, n, ops[0], answers[0]), ops[1..], answers[1..], k);
    }
  }

  lemma {:induction false} EvictedIsGone(c: Config, shards: nat, n: Naive, ops: seq<OracleRuns.Op>,
      answers: seq<Answer>, k: Key)
    requires Explained(c, shards, n, ops, answers) && k in n.records && !NeverEvicted(answers, k) && Untouched(ops, k)
    ensures k !in RunNaive(c, n, ops, answers).records
    decreases |ops|
  {
    assert !Touches(ops[0], k);
    if Evicts(answers[0], k) {
      AbsentStaysAbsent(c, After(c, n, ops[0], answers[0]), ops[1..], answers[1..], k);
    } else {
      StepVersion(c, n, ops[0], answers[0], k);
      EvictedIsGone(c, shards, After(c, n, ops[0], answers[0]), ops[1..], answers[1..], k);
    }
  }

  /** Over every run of the oracle: a key known before and after at the same version is the same write,
      and so the same expectation, if and only if it was not evicted in between. */
  lemma EqualVersionsMeanIff(c: Config, shards: nat, n: Naive, ops: seq<OracleRuns.Op>, answers: seq<Answer>, k: Key)
    requires Explained(c, shards, n, ops, answers) && k in n.records
    requires var r := RunNaive(c, n, ops, answers).records; k in r && r[k].version == n.records[k].version
    ensures Untouched(ops, k) <==> NeverEvicted(answers, k)
    ensures NeverEvicted(answers, k) ==> RunNaive(c, n, ops, answers).records[k].value == n.records[k].value
  {
    if NeverEvicted(answers, k) {
      RunVersion(c, n, ops, answers, k);
    } else if Untouched(ops, k) {
      EvictedIsGone(c, shards, n, ops, answers, k);
    }
  }

  // ---------------------------------------------------------------- the run that breaks it

  /** A single shard with room for one key. */
  predicate OneRoom(c: Config, k: Key, j: Key) {
    c.budget == 1 && c.width > 0 && c.route(k) == c.route(j) && Share(c.budget, 1, c.route(k)) == 1
  }

  function Put(k: Key, v: Value): OracleRuns.Op { Write(Mutation(k, Upsert(v), false), 0, Complete) }

  function First(v: Value): Record { Record(v, 1, Complete, 0, Some(0), false, 0) }

  function Empty(w: nat): Naive { Naive(map[], w, None) }

  function Only(w: nat, k: Key, v: Value): Naive { Naive(map[k := First(v)], w, None) }

  lemma OnlyPart(m: map<Key, Record>, route: Key -> nat, k: Key, i: nat)
    requires m.Keys == {k} && route(k) == i
    ensures |Part(m, route, i)| == 1
  {
    var part := Part(m, route, i);
    assert part.Keys == {k} && |part.Keys| == |part|;
  }

  lemma FullMakesRoom(c: Config, m: map<Key, Record>, k: Key, j: Key)
    requires k != j && m.Keys == {k} && OneRoom(c, j, k)
    ensures EvictionJustified(m, c, 1, Some(j), Some(k), None)
  {
    OnlyPart(m, c.route, k, c.route(j));
  }

  /** The first write finds room. */
  lemma FirstWrite(c: Config, w: nat, k: Key, v: Value)
    requires OneRoom(c, k, k)
    ensures Right(c, 1, Empty(w), Put(k, v), Evicted(None))
    ensures After(c, Empty(w), Put(k, v), Evicted(None)) == Only(w, k, v)
  {
    var none: map<Key, Record> := map[];
    assert Part(none, c.route, c.route(k)) == none;
    assert Without(none, None)[k := Written(Lookup(none, k), Put(k, v).m, 0, Complete)] == map[k := First(v)];
  }

  lemma Replaced(k: Key, v: Value, j: Key, u: Value)
    requires k != j
    ensures Without(map[k := First(v)], Some(k))[j := Written(Lookup(map[k := First(v)], j), Put(j, u).m, 0, Complete)]
            == map[j := First(u)]
  {
  }

  /** A write of another key to the full oracle evicts the one there is. */
  lemma SwapsKeys(c: Config, w: nat, k: Key, v: Value, j: Key, u: Value)
    requires k != j && OneRoom(c, j, k)
    ensures Right(c, 1, Only(w, k, v), Put(j, u), Evicted(Some(k)))
    ensures After(c, Only(w, k, v), Put(j, u), Evicted(Some(k))) == Only(w, j, u)
  {
    FullMakesRoom(c, map[k := First(v)], k, j);
    Replaced(k, v, j, u);
  }

  lemma OneStep(c: Config, n: Naive, op: OracleRuns.Op, a: Answer, ops: seq<OracleRuns.Op>, answers: seq<Answer>)
    requires |n.records| <= c.budget && Right(c, 1, n, op, a)
    requires Explained(c, 1, After(c, n, op, a), ops, answers)
    ensures Explained(c, 1, n, [op] + ops, [a] + answers)
    ensures RunNaive(c, n, [op] + ops, [a] + answers) == RunNaive(c, After(c, n, op, a), ops, answers)
  {
    assert ([op] + ops)[1..] == ops && ([a] + answers)[1..] == answers;
  }

  /** From the empty oracle a key is written, evicted and written again, and is back at version one
      with another value: equal versions, so every fence that compares them passes. */
  lemma RecreatedKeyRepeatsVersion(c: Config, w: nat, k: Key, v: Value, j: Key, u: Value, v': Value)
    requires k != j && OneRoom(c, k, j) && !v.Equal(v')
    ensures
      var ops := [Put(k, v), Put(j, u), Put(k, v')];
      var answers := [Evicted(None), Evicted(Some(k)), Evicted(Some(j))];
      && Explained(c, 1, Empty(w), ops, answers)
      && RunNaive(c, Empty(w), ops[..1], answers[..1]) == Only(w, k, v)
      && RunNaive(c, Empty(w), ops, answers) == Only(w, k, v')
  {
    FirstWrite(c, w, k, v);
    SwapsKeys(c, w, k, v, j, u);
    SwapsKeys(c, w, j, u, k, v');
    Alone(w, k, v);
    Alone(w, j, u);
    Alone(w, k, v');
    OneStep(c, Only(w, j, u), Put(k, v'), Evicted(Some(j)), [], []);
    var ops, answers := [Put(k, v')] + [], [Evicted(Some(j))] + [];
    OneStep(c, Only(w, k, v), Put(j, u), Evicted(Some(k)), ops, answers);
    OneStep(c, Empty(w), Put(k, v), Evicted(None), [Put(j, u)] + ops, [Evicted(Some(k))] + answers);
    OneStep(c, Empty(w), Put(k, v), Evicted(None), [], []);
    assert [Put(k, v)] + ([Put(j, u)] + ops) == [Put(k, v), Put(j, u), Put(k, v')];
    assert [Evicted(None)] + ([Evicted(Some(k))] + answers) == [Evicted(None), Evicted(Some(k)), Evicted(Some(j))];
    assert [Put(k, v), Put(j, u), Put(k, v')][..1] == [Put(k, v)] + [];
    assert [Evicted(None), Evicted(Some(k)), Evicted(Some(j))][..1] == [Evicted(None)] + [];
  }

  lemma Alone(w: nat, k: Key, v: Value)
    ensures |Only(w, k, v).records| == 1
  {
  }
}
