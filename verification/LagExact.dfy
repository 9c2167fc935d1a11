/** Exactly which captures can be confirmed.

    LagRace confirms a capture whenever an earlier value can still be shown once the candidate is due.
    Here a run from the capture onward is followed step by step: a confirmation of this capture has been
    re-read since, so there was such a value. */
module LagExact {
  import opened Events
  import opened OracleShard
  import opened Differ
  import opened SweepRuns
  import opened SweepTiming
  import opened Lag
  import opened LagRace

  // ---------------------------------------------------------------- what is followed

  /** The capture of key k the sweep of s holds. */
  ghost function Held(s: Sys, k: Key): Capture
    requires s.world.sweep.Some? && k in s.history
  {
    Capture(k, |s.history[k]|, s.world.sweep.value.at)
  }

  /** The last confirmation of the key came from this capture. */
  predicate ConfirmedFrom(s: Sys, x: Capture) {
    x.key in s.world.lastBy && CaptureOf(s.world.lastBy[x.key].candidate) == x
  }

  ghost predicate Doomed(p: Params, s: Sys, k: Key, lag: int) { exists i :: Betrays(p, s, k, i, lag) }

  /** What a cycle knows of a candidate from this capture, it has read since s0. */
  ghost predicate HeadSince(p: Params, s0: Sys, k: Key, lag: int, h: seq<Stamp>, r: Reading, cy: Cycle)
    requires s0.world.sweep.Some? && k in s0.history
  {
    match cy.head
    case Reread(read) =>
      && read.Got? && s0.now <= r.at && cy.now <= r.at && |s0.history[k]| <= r.len <= |h|
      && Lagged(h[..r.len], r.at, lag, read.value)
    case ToConfirm(_) => Doomed(p, s0, k, lag)
    case _ => true
  }

  ghost predicate CycleSince(p: Params, s0: Sys, k: Key, lag: int, s: Sys, j: nat)
    requires s0.world.sweep.Some? && k in s0.history && k in s.history && j < |s.world.cycles|
  {
    s.world.cycles[j].due != [] && CaptureOf(s.world.cycles[j].due[0]) == Held(s0, k) ==>
      HeadSince(p, s0, k, lag, s.history[k], ReadingOf(s.rereads, j), s.world.cycles[j])
  }

  ghost predicate Since(p: Params, s0: Sys, k: Key, lag: int, s: Sys)
    requires s0.world.sweep.Some? && k in s0.history
  {
    && s0.now <= s.now && k in s.history && s0.history[k] <= s.history[k]
    && (forall j: nat {:trigger CycleSince(p, s0, k, lag, s, j)} ::
          j < |s.world.cycles| ==> CycleSince(p, s0, k, lag, s, j))
    && (ConfirmedFrom(s, Held(s0, k)) ==> Doomed(p, s0, k, lag))
  }

  // ---------------------------------------------------------------- every move keeps it

  /** Cycles, readings and confirmations are as they were, and the history has grown. */
  lemma QuietSince(p: Params, s0: Sys, k: Key, lag: int, s: Sys, s': Sys)
    requires s0.world.sweep.Some? && k in s0.history && Since(p, s0, k, lag, s)
    requires s'.world.cycles == s.world.cycles && s'.rereads == s.rereads && s'.world.lastBy == s.world.lastBy
    requires s.now <= s'.now && Grows(s.history, s'.history)
    ensures Since(p, s0, k, lag, s')
  {
    forall j: nat | j < |s'.world.cycles|
      ensures CycleSince(p, s0, k, lag, s', j)
    {
      assert CycleSince(p, s0, k, lag, s, j);
      var r := ReadingOf(s.rereads, j);
      if r.len <= |s.history[k]| {
        assert s'.history[k][..r.len] == s.history[k][..r.len];
      }
    }
  }

  /** Only cycle i has moved. */
  lemma OneSince(p: Params, s0: Sys, k: Key, lag: int, s: Sys, s': Sys, i: nat)
    requires s0.world.sweep.Some? && k in s0.history && Since(p, s0, k, lag, s)
    requires s'.now == s.now && s'.history == s.history && |s.world.cycles| == |s'.world.cycles| && i < |s.world.cycles|
    requires forall j: nat :: j < |s.world.cycles| && j != i ==>
      s'.world.cycles[j] == s.world.cycles[j] && ReadingOf(s'.rereads, j) == ReadingOf(s.rereads, j)
    requires CycleSince(p, s0, k, lag, s', i)
    requires ConfirmedFrom(s', Held(s0, k)) ==> Doomed(p, s0, k, lag)
    ensures Since(p, s0, k, lag, s')
  {
    forall j: nat | j < |s'.world.cycles|
      ensures CycleSince(p, s0, k, lag, s', j)
    {
      assert CycleSince(p, s0, k, lag, s, j);
    }
  }

  /** A value the re-read showed and the comparison did not excuse betrays the capture. */
  lemma ShownBetrays(p: Params, s0: Sys, k: Key, lag: int, at: Time, now: Time, i: nat, e: Record, v: Value)
    requires k in s0.records && k in s0.history && s0.world.sweep.Some?
    requires RecordOk(s0.records[k], s0.history[k], s0.now)
    requires s0.records[k].flag.Complete? && s0.world.sweep.value.at + p.w <= now <= at && s0.now <= at
    requires e.value == s0.records[k].value && e.lastEventAt == s0.records[k].lastEventAt
    requires CurrentSince(s0.history[k], i, at - lag) && v.Equal(ValueAt(s0.history[k], i))
    requires !e.value.Equal(v) && !Excused(e, v, p.setup.opts, now)
    ensures Betrays(p, s0, k, i, lag)
  {
  }

  lemma JudgeDooms(p: Params, s0: Sys, k: Key, lag: int, s: Sys, i: nat, e: Option<Record>)
    requires Captured(p, s0, k) && Inv(p, s0) && Inv(p, s) && Since(p, s0, k, lag, s)
    requires Enabled(s.world, Judge(i, e)) && Shown(p, s, Judge(i, e))
    requires CaptureOf(s.world.cycles[i].due[0]) == Held(s0, k)
    requires e.Some? && e.value.version == |s0.history[k]|
    requires CompareRead(k, e.value, s.world.cycles[i].head.read, p.setup.opts, s.world.cycles[i].now).Some?
    ensures Doomed(p, s0, k, lag)
  {
    var cy, r, h0 := s.world.cycles[i], ReadingOf(s.rereads, i), s0.history[k];
    assert CycleSince(p, s0, k, lag, s, i);
    var c, v := cy.due[0], cy.head.read.value;
    assert RecordOk(s.records[k], s.history[k], s.now) && RecordOk(s0.records[k], h0, s0.now);
    assert s.history[k] == h0 && h0[..r.len] == h0;
    assert CycleGrounded(p, s.history, s.raced, r, cy, s.now);
    assert c in cy.due && CandidateGrounded(p, s.history, s.raced, c);
    CompareMeaning(k, e.value, v, p.setup.opts, cy.now);
    var j: nat :| CurrentSince(h0, j, r.at - lag) && v.Equal(ValueAt(h0, j));
    ShownBetrays(p, s0, k, lag, r.at, cy.now, j, e.value, v);
  }

  lemma JudgeSince(p: Params, s0: Sys, k: Key, lag: int, s: Sys, i: nat, e: Option<Record>)
    requires Captured(p, s0, k) && Inv(p, s0) && Inv(p, s) && Since(p, s0, k, lag, s)
    requires Enabled(s.world, Judge(i, e)) && Shown(p, s, Judge(i, e))
    ensures Since(p, s0, k, lag, Move1(p, s, Do(Judge(i, e))))
  {
    var s' := Move1(p, s, Do(Judge(i, e)));
    JudgedSince(p, s0, k, lag, s, i, e);
    LookFrame(p.setup, s.world, Judge(i, e));
    CyclesKeepHistory(p.setup, s.world, Judge(i, e));
    OneSince(p, s0, k, lag, s, s', i);
  }

  lemma JudgedSince(p: Params, s0: Sys, k: Key, lag: int, s: Sys, i: nat, e: Option<Record>)
    requires Captured(p, s0, k) && Inv(p, s0) && Inv(p, s) && Since(p, s0, k, lag, s)
    requires Enabled(s.world, Judge(i, e)) && Shown(p, s, Judge(i, e))
    ensures CycleSince(p, s0, k, lag, Move1(p, s, Do(Judge(i, e))), i)
  {
    var w' := Step(p.setup, s.world, Judge(i, e));
    if w'.cycles[i].due != [] && w'.cycles[i].head.ToConfirm? && CaptureOf(s.world.cycles[i].due[0]) == Held(s0, k) {
      JudgeDooms(p, s0, k, lag, s, i, e);
    }
  }

  lemma RereadSince(p: Params, s0: Sys, k: Key, lag: int, s: Sys, i: nat, read: Read)
    requires Captured(p, s0, k) && Inv(p, s) && Since(p, s0, k, lag, s)
    requires Enabled(s.world, RereadKey(i, read)) && Shown(p, s, RereadKey(i, read))
    requires Within(s, Do(RereadKey(i, read)), lag)
    ensures Since(p, s0, k, lag, Move1(p, s, Do(RereadKey(i, read))))
  {
    var s' := Move1(p, s, Do(RereadKey(i, read)));
    assert CycleGrounded(p, s.history, s.raced, ReadingOf(s.rereads, i), s.world.cycles[i], s.now);
    assert s.history[k][..|s.history[k]|] == s.history[k];
    OneSince(p, s0, k, lag, s, s', i);
  }

  lemma CheckSince(p: Params, s0: Sys, k: Key, lag: int, s: Sys, i: nat, v: Option<nat>)
    requires Captured(p, s0, k) && Since(p, s0, k, lag, s) && Enabled(s.world, CheckVersion(i, v))
    ensures Since(p, s0, k, lag, Move1(p, s, Do(CheckVersion(i, v))))
  {
    OneSince(p, s0, k, lag, s, Move1(p, s, Do(CheckVersion(i, v))), i);
  }

  lemma ConfirmSince(p: Params, s0: Sys, k: Key, lag: int, s: Sys, i: nat)
    requires Captured(p, s0, k) && Since(p, s0, k, lag, s) && Enabled(s.world, DoConfirm(i))
    ensures Since(p, s0, k, lag, Move1(p, s, Do(DoConfirm(i))))
  {
    assert CycleSince(p, s0, k, lag, s, i);
    OneSince(p, s0, k, lag, s, Move1(p, s, Do(DoConfirm(i))), i);
  }

  lemma PutBackSince(p: Params, s0: Sys, k: Key, lag: int, s: Sys, i: nat)
    requires Captured(p, s0, k) && Since(p, s0, k, lag, s) && Enabled(s.world, PutBackRest(i))
    ensures Since(p, s0, k, lag, Move1(p, s, Do(PutBackRest(i))))
  {
    OneSince(p, s0, k, lag, s, Move1(p, s, Do(PutBackRest(i))), i);
  }

  lemma TakeSince(p: Params, s0: Sys, k: Key, lag: int, s: Sys, now: Time)
    requires Captured(p, s0, k) && Since(p, s0, k, lag, s)
    ensures Since(p, s0, k, lag, Move1(p, s, Do(StartCycle(now))))
  {
    var s' := Move1(p, s, Do(StartCycle(now)));
    forall j: nat | j < |s'.world.cycles|
      ensures CycleSince(p, s0, k, lag, s', j)
    {
      assert j < |s.world.cycles| ==> CycleSince(p, s0, k, lag, s, j);
    }
  }

  lemma SweepStays(p: Params, s: Sys, a: Act)
    requires Enabled(s.world, a) && !OfCycle(a)
    ensures var s' := Move1(p, s, Do(a));
      && s'.world.cycles == s.world.cycles && s'.rereads == s.rereads && s'.world.lastBy == s.world.lastBy
      && s'.now == s.now && s'.history == s.history
  {
    if OfSweep(a) || a.Batch? {
      SweepFrame(p.setup, s.world, a);
    }
  }

  lemma MoveSince(p: Params, s0: Sys, k: Key, lag: int, s: Sys, m: Move)
    requires Captured(p, s0, k) && Inv(p, s0) && Inv(p, s) && Good(p.setup, s.world) && Since(p, s0, k, lag, s)
    requires CanMove(p, s, m) && Within(s, m, lag)
    ensures Since(p, s0, k, lag, Move1(p, s, m))
  {
    if !m.Do? {
      OracleMoves(p, s, m);
      QuietSince(p, s0, k, lag, s, Move1(p, s, m));
    } else if !OfCycle(m.act) {
      SweepStays(p, s, m.act);
      QuietSince(p, s0, k, lag, s, Move1(p, s, m));
    } else {
      CycleMoveSince(p, s0, k, lag, s, m.act);
    }
  }

  lemma CycleMoveSince(p: Params, s0: Sys, k: Key, lag: int, s: Sys, a: Act)
    requires Captured(p, s0, k) && Inv(p, s0) && Inv(p, s) && Since(p, s0, k, lag, s)
    requires CanMove(p, s, Do(a)) && Within(s, Do(a), lag) && OfCycle(a)
    ensures Since(p, s0, k, lag, Move1(p, s, Do(a)))
  {
    match a
    case StartCycle(now) => TakeSince(p, s0, k, lag, s, now);
    case CheckVersion(i, v) => CheckSince(p, s0, k, lag, s, i, v);
    case RereadKey(i, read) => RereadSince(p, s0, k, lag, s, i, read);
    case Judge(i, e) => JudgeSince(p, s0, k, lag, s, i, e);
    case DoConfirm(i) => ConfirmSince(p, s0, k, lag, s, i);
    case PutBackRest(i) => PutBackSince(p, s0, k, lag, s, i);
  }

  lemma {:induction false} RunSince(p: Params, s0: Sys, k: Key, lag: int, s: Sys, ms: seq<Move>)
    requires p.w <= p.never && Captured(p, s0, k) && Inv(p, s0) && Inv(p, s) && Good(p.setup, s.world)
    requires Since(p, s0, k, lag, s) && AllMoves(p, s, ms) && AllWithin(p, s, ms, lag)
    ensures Since(p, s0, k, lag, RunMoves(p, s, ms))
    decreases |ms|
  {
    if ms != [] {
      MoveSince(p, s0, k, lag, s, ms[0]);
      MoveInv(p, s, ms[0]);
      RunSince(p, s0, k, lag, Move1(p, s, ms[0]), ms[1..]);
    }
  }

  // ---------------------------------------------------------------- exactly when

  /** Nothing has been read or confirmed on the strength of this capture yet. */
  ghost predicate Untried(s: Sys, x: Capture) {
    && !ConfirmedFrom(s, x)
    && forall j :: 0 <= j < |s.world.cycles| ==> NotReread(s.world.cycles[j], x)
  }

  predicate NotReread(cy: Cycle, x: Capture) {
    cy.due != [] && CaptureOf(cy.due[0]) == x ==> cy.head.Untouched? || cy.head.Versioned?
  }

  /** A confirmation reached from the capture had a value to show. */
  lemma ConfirmedIsDoomed(p: Params, s0: Sys, s: Sys, k: Key, lag: int)
    requires p.w <= p.never && Arises(p, s0) && Captured(p, s0, k) && Untried(s0, Held(s0, k))
    requires CanReach(p, s0, s, lag) && ConfirmedFrom(s, Held(s0, k))
    ensures Doomed(p, s0, k, lag)
  {
    ArisesInv(p, s0);
    var ms :| LeadsFrom(p, s0, ms, s) && AllWithin(p, s0, ms, lag);
    RunSince(p, s0, k, lag, s0, ms);
  }

  /** Exactly when a capture can be confirmed falsely. In every state that arises, with a target at most
      `lag` behind for any lag up to two windows, a trusted capture of a key neither queued nor in an
      episode can still be confirmed if and only if another value of the key will still be showable when
      the candidate comes due, or is now if that is later, and expiry does not excuse it. */
  lemma CaptureConfirmsIff(p: Params, s: Sys, k: Key, lag: nat)
    requires p.w <= p.never && lag <= 2 * p.w && Arises(p, s) && ItemIs(s.world, k) && k in s.records
    requires s.world.sweep.value.items[k] == Batched(s.records[k].version) && s.records[k].flag.Complete?
    requires k !in s.world.core.queued && k !in s.world.core.confirmed && |s.world.core.queue| < p.setup.max
    requires Untried(s, Capture(k, s.records[k].version, s.world.sweep.value.at))
    ensures var x := Capture(k, s.records[k].version, s.world.sweep.value.at);
      (exists s' :: CanReach(p, s, s', lag) && ConfirmedFrom(s', x)) <==> exists i :: Betrays(p, s, k, i, lag)
  {
    CapturedFromInv(p, s, k);
    var x := Held(s, k);
    if Doomed(p, s, k, lag) {
      var i :| Betrays(p, s, k, i, lag);
      var s' := RacedCaptureCanConfirm(p, s, k, i, lag);
      assert ConfirmedFrom(s', x);
    }
    if exists s' :: CanReach(p, s, s', lag) && ConfirmedFrom(s', x) {
      var s' :| CanReach(p, s, s', lag) && ConfirmedFrom(s', x);
      ConfirmedIsDoomed(p, s, s', k, lag);
    }
  }
}
