/** What the oracle's answers say about the writes behind them.

    OracleRuns refines the oracle to one record per key. Here the records are read back into the run that
    made them: when a key is listed as settled, what its flag says, and which write everything else is
    from. */
module OracleHistory {
  import opened Events
  import opened OracleShard
  import opened Oracles
  import opened OracleRuns
  import opened OracleVersions

  // ---------------------------------------------------------------- between writes

  /** The operation raises doubt about the key. */
  predicate Doubts(op: OracleRuns.Op, k: Key) { op.MarkAll? || (op.Mark? && op.matches(k)) }

  /** The operation takes doubt about the key back. */
  predicate Absolves(op: OracleRuns.Op, k: Key) { op.ClearAll? || (op.Clear? && op.matches(k)) }

  predicate Speaks(op: OracleRuns.Op, k: Key) { Doubts(op, k) || Absolves(op, k) }

  ghost predicate Silent(ops: seq<OracleRuns.Op>, k: Key) { forall i :: 0 <= i < |ops| ==> !Speaks(ops[i], k) }

  /** One operation that does not touch the key moves its flag at most, and an adopted one not at all. */
  lemma OneUntouched(c: Config, n: Naive, op: OracleRuns.Op, a: Answer, k: Key)
    requires k in n.records && !Touches(op, k) && !Evicts(a, k)
    ensures var n' := After(c, n, op, a);
      && k in n'.records && n'.records[k] == n.records[k].(flag := n'.records[k].flag)
      && n'.records[k].flag ==
         (if n.records[k].flag == Adopted then Adopted
          else if Doubts(op, k) then Suspect
          else if Absolves(op, k) then Complete
          else n.records[k].flag)
  {
  }

  /** Between writes a record keeps everything but its flag. An adopted key stays adopted. Any other is
      suspect or trusted by the last operation that raised or took back doubt about it, and as it was if
      there was none. */
  lemma {:induction false} LastWordOnTrust(c: Config, n: Naive, ops: seq<OracleRuns.Op>, answers: seq<Answer>, k: Key)
    requires |answers| == |ops| && k in n.records && Untouched(ops, k) && NeverEvicted(answers, k)
    ensures var r := RunNaive(c, n, ops, answers).records;
      && k in r && r[k] == n.records[k].(flag := r[k].flag)
      && (n.records[k].flag == Adopted ==> r[k].flag == Adopted)
      && (Silent(ops, k) ==> r[k].flag == n.records[k].flag)
      && (n.records[k].flag != Adopted ==> forall j :: 0 <= j < |ops| && Silent(ops[j + 1..], k) ==>
            (Doubts(ops[j], k) ==> r[k].flag == Suspect) && (Absolves(ops[j], k) ==> r[k].flag == Complete))
    decreases |ops|
  {
    if ops != [] {
      var n1 := After(c, n, ops[0], answers[0]);
      OneUntouched(c, n, ops[0], answers[0], k);
      LastWordOnTrust(c, n1, ops[1..], answers[1..], k);
      assert ops[0 + 1..] == ops[1..];
      forall j | 1 <= j < |ops|
        ensures ops[1..][j - 1] == ops[j] && ops[1..][j..] == ops[j + 1..]
      {
      }
    }
  }

  // ---------------------------------------------------------------- a value that is written again

  /** If it touches the key, it writes this value to it. */
  predicate Repeats(op: OracleRuns.Op, k: Key, v: Value) {
    Touches(op, k) ==> op.Write? && (if op.m.action.Upsert? then op.m.action.value else Absent).Equal(v)
  }

  ghost predicate OnlyRepeats(ops: seq<OracleRuns.Op>, k: Key, v: Value) {
    forall i :: 0 <= i < |ops| ==> Repeats(ops[i], k, v)
  }

  /** When the key was last written, if not along the run then at t. */
  function LastWrite(ops: seq<OracleRuns.Op>, k: Key, t: Time): Time {
    if ops == [] then t
    else LastWrite(ops[1..], k, if Touches(ops[0], k) && ops[0].Write? then ops[0].now else t)
  }

  /** The key holds the value since t0, was last written at t1 and was created at created. */
  predicate HoldsSince(r: Record, v: Value, t0: Time, t1: Time, created: Time) {
    r.value.Equal(v) && r.lastValueChangeAt == Some(t0) && r.lastEventAt == t1 && r.createdAt == created
  }

  lemma OneRepeat(c: Config, n: Naive, op: OracleRuns.Op, a: Answer, k: Key, v: Value, t0: Time, t1: Time,
      created: Time)
    requires k in n.records && Repeats(op, k, v) && !Evicts(a, k) && HoldsSince(n.records[k], v, t0, t1, created)
    ensures k in After(c, n, op, a).records
    ensures HoldsSince(After(c, n, op, a).records[k], v, t0,
      if Touches(op, k) && op.Write? then op.now else t1, created)
  {
  }

  lemma {:induction false} RepeatsHold(c: Config, n: Naive, ops: seq<OracleRuns.Op>, answers: seq<Answer>, k: Key,
      v: Value, t0: Time, t1: Time, created: Time)
    requires |answers| == |ops| && k in n.records && OnlyRepeats(ops, k, v) && NeverEvicted(answers, k)
    requires HoldsSince(n.records[k], v, t0, t1, created)
    ensures var r := RunNaive(c, n, ops, answers).records;
      k in r && HoldsSince(r[k], v, t0, LastWrite(ops, k, t1), created)
    decreases |ops|
  {
    if ops != [] {
      OneRepeat(c, n, ops[0], answers[0], k, v, t0, t1, created);
      RepeatsHold(c, After(c, n, ops[0], answers[0]), ops[1..], answers[1..], k, v, t0,
        if Touches(ops[0], k) && ops[0].Write? then ops[0].now else t1, created);
    }
  }

  /** A write that changes the key's value, or creates it. */
  predicate Changes(n: Naive, m: Mutation) {
    !m.action.Nothing? &&
    (m.key !in n.records || !n.records[m.key].value.Equal(if m.action.Upsert? then m.action.value else Absent))
  }

  /** Exactly when a key is listed, over every run: its value changed at t0 and since then it was written
      only with that same value, last at t1, and never evicted. It is settled at now if and only if t1 is
      more than a window ago, or t0 more than the threshold, however often it was written in between. */
  lemma ListedIff(c: Config, shards: nat, n: Naive, m: Mutation, t0: Time, trust: Trust, a: Answer,
      ops: seq<OracleRuns.Op>, answers: seq<Answer>, now: Time, listed: Answer)
    requires Changes(n, m) && !Evicts(a, m.key) && |answers| == |ops| && NeverEvicted(answers, m.key)
    requires OnlyRepeats(ops, m.key, if m.action.Upsert? then m.action.value else Absent)
    requires
      var n' := RunNaive(c, After(c, n, Write(m, t0, trust), a), ops, answers);
      Right(c, shards, n', ListSettledKeys(now), listed)
    ensures
      var w := RunNaive(c, After(c, n, Write(m, t0, trust), a), ops, answers).window;
      var threshold := if c.factor * w > c.maxWindow then c.maxWindow else c.factor * w;
      m.key in listed.keys <==> LastWrite(ops, m.key, t0) < now - w || t0 < now - threshold
  {
    var v := if m.action.Upsert? then m.action.value else Absent;
    var n1 := After(c, n, Write(m, t0, trust), a);
    RepeatsHold(c, n1, ops, answers, m.key, v, t0, t0, n1.records[m.key].createdAt);
  }

  /** A write leaves what it says: its value, its trust, whether it was truncated, and its time. The key is
      as old as its first write. */
  lemma WriteTells(c: Config, n: Naive, m: Mutation, now: Time, trust: Trust, a: Answer)
    requires !m.action.Nothing? && !Evicts(a, m.key)
    ensures m.key in After(c, n, Write(m, now, trust), a).records
    ensures var r := After(c, n, Write(m, now, trust), a).records[m.key];
      && r.value == (if m.action.Upsert? then m.action.value else Absent)
      && r.flag == trust && r.truncated == m.truncated && r.lastEventAt == now
      && (m.key !in n.records ==> r.version == 1 && r.createdAt == now && r.lastValueChangeAt == Some(now))
      && (m.key in n.records ==>
            && r.version == n.records[m.key].version + 1 && r.createdAt == n.records[m.key].createdAt
            && r.lastValueChangeAt ==
               if Changes(n, m) then Some(now) else n.records[m.key].lastValueChangeAt)
  {
  }

  /** An adoption leaves what was read from the target, marked as such and as a new version. It is no
      change of value the stability of the key could be measured by. */
  lemma AdoptionTells(c: Config, n: Naive, k: Key, v: Value, at: Time, a: Answer)
    requires !Evicts(a, k)
    ensures k in After(c, n, Load(k, v, at), a).records
    ensures var r := After(c, n, Load(k, v, at), a).records[k];
      && r.value == v && r.flag == Adopted && r.lastEventAt == at
      && (k !in n.records ==>
            r.version == 1 && r.createdAt == at && r.lastValueChangeAt == None && !r.truncated)
      && (k in n.records ==>
            && r.version == n.records[k].version + 1 && r.createdAt == n.records[k].createdAt
            && r.lastValueChangeAt == n.records[k].lastValueChangeAt && r.truncated == n.records[k].truncated)
  {
  }

  /** The totals count what they are named after. */
  lemma ScanTells(v: map<Key, Record>, now: Time, w: int, never: int)
    ensures var t := Scan(v, now, w, never);
      && t.total == |v|
      && t.settled == |set k | k in v && (v[k].lastEventAt < now - w ||
           (v[k].lastValueChangeAt.Some? && v[k].lastValueChangeAt.value < now - never))|
      && t.neverSettled == |set k | k in v && v[k].lastEventAt >= now - w && v[k].createdAt < now - never &&
           (v[k].lastValueChangeAt == None || v[k].lastValueChangeAt.value >= now - never)|
      && t.truncated == |set k | k in v && v[k].truncated|
      && t.complete == |set k | k in v && v[k].flag == Complete|
      && t.adopted == |set k | k in v && v[k].flag == Adopted|
      && t.suspect == |set k | k in v && v[k].flag == Suspect|
  {
    assert Tagged(v, AnyKey) == v.Keys && |v.Keys| == |v|;
    assert Tagged(v, SettledAt(now, w, never)) == set k | k in v && (v[k].lastEventAt < now - w ||
      (v[k].lastValueChangeAt.Some? && v[k].lastValueChangeAt.value < now - never));
    assert Tagged(v, StuckAt(now, w, never)) ==
      set k | k in v && v[k].lastEventAt >= now - w && v[k].createdAt < now - never &&
        (v[k].lastValueChangeAt == None || v[k].lastValueChangeAt.value >= now - never);
    assert Tagged(v, Truncated) == set k | k in v && v[k].truncated;
    assert Tagged(v, FlagIs(Complete)) == set k | k in v && v[k].flag == Complete;
    assert Tagged(v, FlagIs(Adopted)) == set k | k in v && v[k].flag == Adopted;
    assert Tagged(v, FlagIs(Suspect)) == set k | k in v && v[k].flag == Suspect;
  }
}
