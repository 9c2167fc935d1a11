/** The other half of Lag.ConfirmedOnlyIfRaced: what raced can be confirmed.

    A candidate is stamped with the sweep's start, so its wait is measured from before the event that
    raced with the capture. From every state with such a capture there is a continuation, on a target
    that stays within its lag, that confirms it. */
module LagRace {
  import opened Events
  import opened OracleShard
  import opened Differ
  import opened Sweepers
  import opened Detection
  import opened SweepRuns
  import opened Lag

  // ---------------------------------------------------------------- continuations

  /** Whatever the move reads of the target is at most `lag` behind, or the read fails. */
  ghost predicate Within(s: Sys, m: Move, lag: int) {
    match m
    case Do(ReadKey(k, read)) => ShownWithin(s, k, read, lag)
    case Do(RereadKey(i, read)) => HeadIs(s.world, i) ==> ShownWithin(s, s.world.cycles[i].due[0].Key(), read, lag)
    case _ => true
  }

  ghost predicate ShownWithin(s: Sys, k: Key, read: Read, lag: int) {
    read.Failed? || (read.Got? && Lagged(HistoryOf(s, k), s.now, lag, read.value))
  }

  ghost predicate AllWithin(p: Params, s: Sys, ms: seq<Move>, lag: int)
    requires AllMoves(p, s, ms)
    decreases |ms|
  {
    ms == [] || (Within(s, ms[0], lag) && AllWithin(p, Move1(p, s, ms[0]), ms[1..], lag))
  }

  /** Some moves on such a target lead from s0 to s. */
  ghost predicate CanReach(p: Params, s0: Sys, s: Sys, lag: int) {
    exists ms :: LeadsFrom(p, s0, ms, s) && AllWithin(p, s0, ms, lag)
  }

  lemma StaysPut(p: Params, s: Sys, lag: int)
    ensures CanReach(p, s, s, lag)
  {
    assert LeadsFrom(p, s, [], s) && AllWithin(p, s, [], lag);
  }

  lemma {:induction false} MovesAppend(p: Params, s0: Sys, ms: seq<Move>, m: Move, lag: int)
    requires AllMoves(p, s0, ms) && CanMove(p, RunMoves(p, s0, ms), m)
    requires AllWithin(p, s0, ms, lag) && Within(RunMoves(p, s0, ms), m, lag)
    ensures AllMoves(p, s0, ms + [m]) && RunMoves(p, s0, ms + [m]) == Move1(p, RunMoves(p, s0, ms), m)
    ensures AllWithin(p, s0, ms + [m], lag)
    decreases |ms|
  {
    if ms == [] {
      assert ms + [m] == [m];
      assert [m][1..] == [];
    } else {
      assert (ms + [m])[1..] == ms[1..] + [m];
      MovesAppend(p, Move1(p, s0, ms[0]), ms[1..], m, lag);
    }
  }

  /** One more move. */
  lemma Onward(p: Params, s0: Sys, s: Sys, m: Move, lag: int)
    requires CanReach(p, s0, s, lag) && CanMove(p, s, m) && Within(s, m, lag)
    ensures CanReach(p, s0, Move1(p, s, m), lag)
  {
    var ms :| LeadsFrom(p, s0, ms, s) && AllWithin(p, s0, ms, lag);
    MovesAppend(p, s0, ms, m, lag);
    assert LeadsFrom(p, s0, ms + [m], Move1(p, s, m)) && AllWithin(p, s0, ms + [m], lag);
  }

  /** Nothing about the oracle or the clock has moved. */
  predicate Still(s: Sys, s': Sys) { s'.now == s.now && s'.records == s.records && s'.history == s.history }

  // ---------------------------------------------------------------- from capture to confirmation

  /** The sweep has captured the key at its current version; the key is trusted, neither queued nor in
      an episode, and the queue has room. */
  ghost predicate Captured(p: Params, s: Sys, k: Key) {
    && ItemIs(s.world, k) && k in s.records && k in s.history && s.world.sweep.value.w == p.w
    && s.world.sweep.value.items[k] == Batched(s.records[k].version) && s.records[k].version == |s.history[k]|
    && s.records[k].flag.Complete? && s.records[k].value == ValueAt(s.history[k], |s.history[k]|)
    && k !in s.world.core.queued && k !in s.world.core.confirmed && |s.world.core.queue| < p.setup.max
  }

  /** The value of version i is not excused by expiry at t. */
  predicate Counts(p: Params, s: Sys, k: Key, i: nat, t: Time)
    requires k in s.records && k in s.history && i <= |s.history[k]|
  {
    !Excused(s.records[k], ValueAt(s.history[k], i), p.setup.opts, t)
  }

  ghost function Finds(p: Params, s: Sys, k: Key, i: nat, t: Time): Option<Finding>
    requires k in s.records && k in s.history && i <= |s.history[k]|
  {
    Compare(k, s.records[k], ValueAt(s.history[k], i), p.setup.opts, t)
  }

  lemma FindsIt(p: Params, s: Sys, k: Key, i: nat, t: Time)
    requires Captured(p, s, k) && i <= |s.history[k]| && Counts(p, s, k, i, t)
    requires !ValueAt(s.history[k], i).Equal(ValueAt(s.history[k], |s.history[k]|))
    ensures Finds(p, s, k, i, t).Some? && Finds(p, s, k, i, t).value.key == k
    ensures Finds(p, s, k, i, t).value.trust == Complete
    ensures Finds(p, s, k, i, t).value.oracleVersion == s.records[k].version
  {
    CompareMeaning(k, s.records[k], ValueAt(s.history[k], i), p.setup.opts, t);
  }

  lemma CapturedFromInv(p: Params, s: Sys, k: Key)
    requires p.w <= p.never && Arises(p, s) && ItemIs(s.world, k) && k in s.records
    requires s.world.sweep.value.items[k] == Batched(s.records[k].version) && s.records[k].flag.Complete?
    requires k !in s.world.core.queued && k !in s.world.core.confirmed && |s.world.core.queue| < p.setup.max
    ensures Captured(p, s, k)
  {
    ArisesInv(p, s);
    assert RecordOk(s.records[k], s.history[k], s.now);
  }

  function Waiting(s: Sys, k: Key, f: Finding): Candidate
    requires s.world.sweep.Some? && k in s.records
  {
    Candidate(f.(firstSeenAt := s.world.sweep.value.at), s.records[k].version, s.world.sweep.value.at,
      s.world.sweep.value.w)
  }

  /** The read shows version i, and the comparison is about to queue the key. */
  lemma ReadAndCompare(p: Params, s0: Sys, k: Key, i: nat, lag: nat) returns (s: Sys)
    requires Captured(p, s0, k) && i < |s0.history[k]| && Counts(p, s0, k, i, s0.world.sweep.value.at)
    requires Shows(s0.history[k], |s0.history[k]|, i, s0.now - lag)
    ensures Finds(p, s0, k, i, s0.world.sweep.value.at).Some?
    ensures CanReach(p, s0, s, lag) && Still(s0, s) && s.world.cycles == s0.world.cycles
    ensures s.world.core.queue == s0.world.core.queue && s.world.core.queued == s0.world.core.queued
    ensures ItemIs(s.world, k) && s.world.sweep.value == s0.world.sweep.value.(items := s.world.sweep.value.items)
    ensures s.world.sweep.value.items[k] ==
      ToEnqueue(s0.records[k].version, Waiting(s0, k, Finds(p, s0, k, i, s0.world.sweep.value.at).value).finding)
  {
    var v, at := ValueAt(s0.history[k], i), s0.world.sweep.value.at;
    FindsIt(p, s0, k, i, at);
    StaysPut(p, s0, lag);
    assert CurrentSince(s0.history[k], i, s0.now - lag) && v.Equal(ValueAt(s0.history[k], i));
    Onward(p, s0, s0, Do(ReadKey(k, Got(v))), lag);
    s := Move1(p, s0, Do(ReadKey(k, Got(v))));
    Onward(p, s0, s, Do(CompareKeys(k, Some(s0.records[k]))), lag);
    s := Move1(p, s, Do(CompareKeys(k, Some(s0.records[k]))));
  }

  /** The key waits in the queue, and the clock has moved on to t. */
  lemma QueueAndTick(p: Params, s0: Sys, k: Key, i: nat, lag: nat, t: Time) returns (s: Sys)
    requires Captured(p, s0, k) && i < |s0.history[k]| && Counts(p, s0, k, i, s0.world.sweep.value.at)
    requires Shows(s0.history[k], |s0.history[k]|, i, s0.now - lag) && s0.now <= t
    ensures Finds(p, s0, k, i, s0.world.sweep.value.at).Some?
    ensures CanReach(p, s0, s, lag) && s.now == t && s.records == s0.records && s.history == s0.history
    ensures Waiting(s0, k, Finds(p, s0, k, i, s0.world.sweep.value.at).value) in s.world.core.queue
  {
    s := ReadAndCompare(p, s0, k, i, lag);
    Onward(p, s0, s, Do(DoEnqueue(k)), lag);
    FindsIt(p, s0, k, i, s0.world.sweep.value.at);
    s := Move1(p, s, Do(DoEnqueue(k)));
    Onward(p, s0, s, Tick(t), lag);
    s := Move1(p, s, Tick(t));
  }

  predicate Fresh(s: Sys, j: nat) { j < |s.world.cycles| && s.world.cycles[j].head.Untouched? }

  /** A cycle whose tick fired when c came due, handled only now, takes what was due then, c among it. */
  lemma TakeDueNow(p: Params, s0: Sys, s1: Sys, c: Candidate, lag: nat) returns (s: Sys, j: nat)
    requires CanReach(p, s0, s1, lag) && c in s1.world.core.queue && c.DueAt() <= s1.now
    ensures CanReach(p, s0, s, lag) && Still(s1, s) && Fresh(s, j) && c in s.world.cycles[j].due
    ensures s.world.cycles[j].now == c.DueAt()
  {
    DueMembers(s1.world.core.queue, c.DueAt());
    Onward(p, s0, s1, Do(StartCycle(c.DueAt())), lag);
    s, j := Move1(p, s1, Do(StartCycle(c.DueAt()))), |s1.world.cycles|;
  }

  /** A cycle can always get past its first candidate: it is gone, it has moved on, or its re-read
      fails. */
  lemma PassOne(p: Params, s0: Sys, s1: Sys, j: nat, lag: nat) returns (s: Sys)
    requires CanReach(p, s0, s1, lag) && Fresh(s1, j) && s1.world.cycles[j].due != []
    ensures CanReach(p, s0, s, lag) && Still(s1, s) && Fresh(s, j)
    ensures s.world.cycles[j] == s1.world.cycles[j].(due := s1.world.cycles[j].due[1..])
  {
    var c := s1.world.cycles[j].due[0];
    var v := VersionOf(Lookup(s1.records, c.Key()));
    Onward(p, s0, s1, Do(CheckVersion(j, v)), lag);
    s := Move1(p, s1, Do(CheckVersion(j, v)));
    if v == Some(c.version) {
      Onward(p, s0, s, Do(RereadKey(j, Failed)), lag);
      s := Move1(p, s, Do(RereadKey(j, Failed)));
    }
  }

  /** And so it can get to c. */
  lemma {:induction false} PassTo(p: Params, s0: Sys, s1: Sys, j: nat, c: Candidate, lag: nat) returns (s: Sys)
    requires CanReach(p, s0, s1, lag) && Fresh(s1, j) && c in s1.world.cycles[j].due
    ensures CanReach(p, s0, s, lag) && Still(s1, s) && Fresh(s, j) && s.world.cycles[j].now == s1.world.cycles[j].now
    ensures s.world.cycles[j].due != [] && s.world.cycles[j].due[0] == c
    decreases |s1.world.cycles[j].due|
  {
    s := s1;
    var due := s1.world.cycles[j].due;
    if due[0] != c {
      assert due == [due[0]] + due[1..];
      s := PassOne(p, s0, s1, j, lag);
      s := PassTo(p, s0, s, j, c, lag);
    }
  }

  /** The re-read shows version i again. */
  lemma RereadOld(p: Params, s0: Sys, s1: Sys, j: nat, c: Candidate, i: nat, lag: nat) returns (s: Sys)
    requires CanReach(p, s0, s1, lag) && Fresh(s1, j) && s1.world.cycles[j].due != [] && s1.world.cycles[j].due[0] == c
    requires var k := c.Key();
      k in s1.records && k in s1.history && s1.records[k].version == c.version && i <= |s1.history[k]|
    requires Lagged(s1.history[c.Key()], s1.now, lag, ValueAt(s1.history[c.Key()], i)) && lag <= 2 * p.w
    ensures CanReach(p, s0, s, lag) && Still(s1, s) && j < |s.world.cycles|
    ensures s.world.cycles[j] == s1.world.cycles[j].(head := Reread(Got(ValueAt(s1.history[c.Key()], i))))
  {
    var v := ValueAt(s1.history[c.Key()], i);
    Onward(p, s0, s1, Do(CheckVersion(j, Some(c.version))), lag);
    s := Move1(p, s1, Do(CheckVersion(j, Some(c.version))));
    LaggedMore(s1.history[c.Key()], s1.now, lag, 2 * p.w, v);
    Onward(p, s0, s, Do(RereadKey(j, Got(v))), lag);
    s := Move1(p, s, Do(RereadKey(j, Got(v))));
  }

  lemma LaggedMore(h: seq<Stamp>, t: Time, lag: int, lag': int, v: Value)
    requires Lagged(h, t, lag, v) && lag <= lag'
    ensures Lagged(h, t, lag', v)
  {
    var i: nat :| CurrentSince(h, i, t - lag) && v.Equal(ValueAt(h, i));
    assert CurrentSince(h, i, t - lag');
  }

  /** It still differs, and is confirmed. */
  lemma JudgeAndConfirm(p: Params, s0: Sys, s1: Sys, j: nat, c: Candidate, read: Read, lag: nat) returns (s: Sys)
    requires CanReach(p, s0, s1, lag) && j < |s1.world.cycles| && s1.world.cycles[j].due != []
    requires s1.world.cycles[j].due[0] == c
    requires s1.world.cycles[j].head == Reread(read) && !read.Failed? && c.Key() in s1.records
    requires s1.records[c.Key()].version == c.version && s1.records[c.Key()].flag.Complete?
    requires CompareRead(c.Key(), s1.records[c.Key()], read, p.setup.opts, s1.world.cycles[j].now).Some?
    ensures CanReach(p, s0, s, lag) && c.Key() in s.world.core.confirmed && c.Key() in s.world.lastBy
    ensures s.world.lastBy[c.Key()].candidate == c
  {
    Onward(p, s0, s1, Do(Judge(j, Some(s1.records[c.Key()]))), lag);
    s := Move1(p, s1, Do(Judge(j, Some(s1.records[c.Key()]))));
    Onward(p, s0, s, Do(DoConfirm(j)), lag);
    s := Move1(p, s, Do(DoConfirm(j)));
  }

  /** When the candidate is re-read at the earliest: a window after the sweep began, or now. */
  function Earliest(s: Sys, w: nat): Time
    requires s.world.sweep.Some?
  {
    if s.now > s.world.sweep.value.at + w then s.now else s.world.sweep.value.at + w
  }

  /** An earlier value of the key is still showable when its candidate comes due, and expiry would not
      excuse it then. */
  ghost predicate Betrays(p: Params, s: Sys, k: Key, i: nat, lag: int) {
    && s.world.sweep.Some? && k in s.records && k in s.history
    && Shows(s.history[k], |s.history[k]|, i, Earliest(s, p.w) - lag)
    && Counts(p, s, k, i, s.world.sweep.value.at + p.w)
  }

  /** What is not excused yet was not excused before. */
  lemma CountsBefore(p: Params, s: Sys, k: Key, i: nat, t: Time, t': Time)
    requires k in s.records && k in s.history && i <= |s.history[k]| && t <= t' && Counts(p, s, k, i, t')
    ensures Counts(p, s, k, i, t)
  {
  }

  /** What raced can be confirmed. From every state in which a sweep holds a trusted capture and a
      different earlier value can still be shown when the candidate comes due, some continuation, on a
      target never further behind than that, confirms the capture. */
  lemma RacedCaptureCanConfirm(p: Params, s0: Sys, k: Key, i: nat, lag: nat) returns (s: Sys)
    requires Captured(p, s0, k) && lag <= 2 * p.w && Betrays(p, s0, k, i, lag)
    ensures CanReach(p, s0, s, lag) && k in s.world.core.confirmed && k in s.world.lastBy
    ensures CaptureOf(s.world.lastBy[k].candidate) == Capture(k, s0.records[k].version, s0.world.sweep.value.at)
  {
    var at, t, h := s0.world.sweep.value.at, Earliest(s0, p.w), s0.history[k];
    assert Shows(h, |h|, i, s0.now - lag);
    CountsBefore(p, s0, k, i, at, at + p.w);
    s := QueueAndTick(p, s0, k, i, lag, t);
    FindsIt(p, s0, k, i, at);
    FindsIt(p, s0, k, i, at + p.w);
    var c := Waiting(s0, k, Finds(p, s0, k, i, at).value);
    var j;
    s, j := TakeDueNow(p, s0, s, c, lag);
    s := PassTo(p, s0, s, j, c, lag);
    assert CurrentSince(h, i, t - lag) && ValueAt(h, i).Equal(ValueAt(h, i));
    s := RereadOld(p, s0, s, j, c, i, lag);
    s := JudgeAndConfirm(p, s0, s, j, c, Got(ValueAt(h, i)), lag);
  }

  // ---------------------------------------------------------------- from the beginning

  lemma {:induction false} MovesConcat(p: Params, s0: Sys, ms: seq<Move>, ns: seq<Move>, lag: int)
    requires AllMoves(p, s0, ms) && AllMoves(p, RunMoves(p, s0, ms), ns)
    requires AllWithin(p, s0, ms, lag) && AllWithin(p, RunMoves(p, s0, ms), ns, lag)
    ensures AllMoves(p, s0, ms + ns) && RunMoves(p, s0, ms + ns) == RunMoves(p, RunMoves(p, s0, ms), ns)
    ensures AllWithin(p, s0, ms + ns, lag)
    decreases |ms|
  {
    if ms == [] {
      assert ms + ns == ns;
    } else {
      assert (ms + ns)[1..] == ms[1..] + ns;
      MovesConcat(p, Move1(p, s0, ms[0]), ms[1..], ns, lag);
    }
  }

  lemma ReachOn(p: Params, s0: Sys, s1: Sys, s2: Sys, lag: int)
    requires CanReach(p, s0, s1, lag) && CanReach(p, s1, s2, lag)
    ensures CanReach(p, s0, s2, lag)
  {
    var ms :| LeadsFrom(p, s0, ms, s1) && AllWithin(p, s0, ms, lag);
    var ns :| LeadsFrom(p, s1, ns, s2) && AllWithin(p, s1, ns, lag);
    MovesConcat(p, s0, ms, ns, lag);
    assert LeadsFrom(p, s0, ms + ns, s2);
  }

  const K: Key := "k"
  const OLD: Value := Scalar("old")
  const NEW: Value := Scalar("new")

  function Set(v: Value): Mutation { Mutation(K, Upsert(v), false) }

  /** The entry after the second event, applied at time t. */
  function Second(t: Time): Record { Record(NEW, 2, Complete, t, Some(t), false, 0) }

  function FirstEntry(): Record { Record(OLD, 1, Complete, 0, Some(0), false, 0) }

  function Start(): Sys { Sys(0, map[], map[], World(EmptyCore(), None, [], 0, map[], map[]), map[], {}, map[]) }

  /** One key, written once, two windows ago. */
  lemma FirstEvent(p: Params) returns (s: Sys)
    ensures CanReach(p, Start(), s, p.w) && s.world == Start().world && s.now == 2 * p.w
    ensures s.records == map[K := FirstEntry()] && s.history == map[K := [Stamp(0, OLD)]]
  {
    StaysPut(p, Start(), p.w);
    Onward(p, Start(), Start(), Apply(Set(OLD), Complete), p.w);
    s := Move1(p, Start(), Apply(Set(OLD), Complete));
    assert s.history[K] == [Stamp(0, OLD)];
    assert s.history == map[K := [Stamp(0, OLD)]] && s.records == map[K := FirstEntry()];
    Onward(p, Start(), s, Tick(2 * p.w), p.w);
    s := Move1(p, s, Tick(2 * p.w));
  }

  lemma ListIt(p: Params) returns (s: Sys)
    requires p.w >= 1
    ensures CanReach(p, Start(), s, p.w) && s.now == 2 * p.w && s.world.core == EmptyCore()
    ensures s.records == map[K := FirstEntry()] && s.history == map[K := [Stamp(0, OLD)]]
    ensures s.world.sweep == Some(Pass(2 * p.w, p.w, map[K := Listed]))
  {
    s := FirstEvent(p);
    Onward(p, Start(), s, Do(StartSweep(2 * p.w, p.w)), p.w);
    s := Move1(p, s, Do(StartSweep(2 * p.w, p.w)));
    Onward(p, Start(), s, Do(ListKey(K)), p.w);
    s := Move1(p, s, Do(ListKey(K)));
    assert s.world.sweep.value.items == map[K := Listed];
  }

  /** A second event lands after the sweep listed the key. */
  lemma SecondEvent(p: Params) returns (s: Sys)
    requires p.w >= 1
    ensures CanReach(p, Start(), s, p.w) && s.now == 2 * p.w && s.world.core == EmptyCore()
    ensures s.records == map[K := Second(2 * p.w)] && s.history == map[K := [Stamp(0, OLD), Stamp(2 * p.w, NEW)]]
    ensures s.world.sweep == Some(Pass(2 * p.w, p.w, map[K := Listed]))
  {
    s := ListIt(p);
    Onward(p, Start(), s, Apply(Set(NEW), Complete), p.w);
    s := Move1(p, s, Apply(Set(NEW), Complete));
    assert s.history[K] == [Stamp(0, OLD), Stamp(2 * p.w, NEW)];
    assert s.history == map[K := [Stamp(0, OLD), Stamp(2 * p.w, NEW)]];
    assert s.records == map[K := Second(2 * p.w)];
  }

  /** A sweep captures a listed key at the version the oracle now holds. */
  lemma CaptureNow(p: Params, s0: Sys, s1: Sys, k: Key, lag: int) returns (s: Sys)
    requires CanReach(p, s0, s1, lag) && ItemIs(s1.world, k) && s1.world.sweep.value.items[k].Listed?
    requires k in s1.records && s1.records[k].flag.Complete?
    ensures CanReach(p, s0, s, lag) && Still(s1, s) && s.world.core == s1.world.core
    ensures s.world.sweep == WithItem(s1.world, k, Batched(s1.records[k].version)).sweep
  {
    Onward(p, s0, s1, Do(Batch(k, Some(s1.records[k]))), lag);
    s := Move1(p, s1, Do(Batch(k, Some(s1.records[k]))));
  }

  /** The sweep listed the key at its first version and captures its second. */
  lemma RaceToCapture(p: Params) returns (s: Sys)
    requires p.w >= 1
    ensures CanReach(p, Start(), s, p.w) && s.now == 2 * p.w && s.world.core == EmptyCore()
    ensures s.records == map[K := Second(2 * p.w)] && s.history == map[K := [Stamp(0, OLD), Stamp(2 * p.w, NEW)]]
    ensures s.world.sweep == Some(Pass(2 * p.w, p.w, map[K := Batched(2)]))
  {
    s := SecondEvent(p);
    s := CaptureNow(p, Start(), s, K, p.w);
    assert s.world.sweep.value.items == map[K := Batched(2)];
  }

  /** For every window there is a run from the beginning in which every read of the target, the
      sweep's and the cycle's, is at most one window behind, and a finding is confirmed all the same. */
  lemma RaceConfirmsFalsely(p: Params) returns (s: Sys)
    requires p.w >= 1 && p.setup.max >= 1
    ensures AtStart(Start()) && CanReach(p, Start(), s, p.w) && K in s.world.core.confirmed
  {
    var s1 := RaceToCapture(p);
    var h := s1.history[K];
    assert ValueAt(h, 1) == OLD && ValueAt(h, 2) == NEW;
    assert Shows(h, 2, 1, Earliest(s1, p.w) - p.w) && Betrays(p, s1, K, 1, p.w);
    s := RacedCaptureCanConfirm(p, s1, K, 1, p.w);
    ReachOn(p, Start(), s1, s, p.w);
  }
}
