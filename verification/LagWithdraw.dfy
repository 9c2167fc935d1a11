/** A finding does not outlive its expectation.

    A finding is about one version of one key. Here the sweeper runs beside an oracle: an event for the
    key makes the finding of an open episode stale, and the next time episodes are withdrawn against the
    oracle's own versions it is gone. */
module LagWithdraw {
  import opened Events
  import opened OracleShard
  import opened Sweepers
  import opened SweepRuns
  import opened SweepTiming
  import opened Lag
  import opened LagRefresh

  /** The versions the oracle holds. */
  ghost function OwnVersions(s: Sys): Key -> Option<nat> { k => VersionOf(Lookup(s.records, k)) }

  /** Episodes are about versions that exist. */
  ghost predicate AllPast(w: World, hs: Histories) {
    forall k {:trigger Past(w, hs, k)} :: Past(w, hs, k)
  }

  ghost predicate Past(w: World, hs: Histories, k: Key) {
    k in w.core.confirmed ==> k in hs && w.core.confirmed[k].finding.oracleVersion <= |hs[k]|
  }

  /** The step leaves the finding of k's episode alone, if it leaves the episode. */
  predicate KeepsFinding(w: World, w': World, k: Key) {
    k in w'.core.confirmed ==> k in w.core.confirmed && w'.core.confirmed[k].finding == w.core.confirmed[k].finding
  }

  /** The step shows a finding of k. */
  predicate ShowsKey(w: World, a: Act, k: Key) {
    (a.DoRefresh? && a.k == k) || (a.DoConfirm? && HeadIs(w, a.i) && w.cycles[a.i].due[0].Key() == k)
  }

  lemma OthersKeepFinding(p: Setup, w: World, a: Act, k: Key)
    requires Good(p, w) && Enabled(w, a) && !ShowsKey(w, a, k)
    ensures KeepsFinding(w, Step(p, w, a), k)
  {
    if a.DoConfirm? {
      assert CycleOk(w.cycles[a.i]);
    } else if OfCycle(a) {
      CyclesKeepTimes(p, w, a);
    } else if !a.DoRefresh? {
      OthersKeepFindings(p, w, a);
    }
  }

  lemma KeptIsPast(w: World, hs: Histories, w': World, hs': Histories)
    requires AllPast(w, hs) && Grows(hs, hs') && forall k :: KeepsFinding(w, w', k)
    ensures AllPast(w', hs')
  {
    forall k
      ensures Past(w', hs', k)
    {
      assert Past(w, hs, k) && KeepsFinding(w, w', k);
    }
  }

  lemma RefreshPast(p: Params, s: Sys, k: Key)
    requires Good(p.setup, s.world) && AllPast(s.world, s.history) && AllNewest(s.world, s.history)
    requires Enabled(s.world, DoRefresh(k))
    ensures AllPast(Step(p.setup, s.world, DoRefresh(k)), s.history)
  {
    var w' := Step(p.setup, s.world, DoRefresh(k));
    assert Newest(s.world, s.history, k);
    forall j
      ensures Past(w', s.history, j)
    {
      assert Past(s.world, s.history, j);
    }
  }

  lemma ConfirmPast(p: Params, s: Sys, i: nat)
    requires Inv(p, s) && Good(p.setup, s.world) && AllPast(s.world, s.history) && Enabled(s.world, DoConfirm(i))
    ensures AllPast(Step(p.setup, s.world, DoConfirm(i)), s.history)
  {
    var w' := Step(p.setup, s.world, DoConfirm(i));
    var c := s.world.cycles[i].due[0];
    assert CycleOk(s.world.cycles[i]) && c in s.world.cycles[i].due;
    KnownExists(p, s, c);
    forall j
      ensures Past(w', s.history, j)
    {
      assert Past(s.world, s.history, j);
    }
  }

  lemma StepPast(p: Params, s: Sys, a: Act)
    requires Inv(p, s) && Good(p.setup, s.world) && AllPast(s.world, s.history) && AllNewest(s.world, s.history)
    requires Enabled(s.world, a)
    ensures AllPast(Step(p.setup, s.world, a), s.history)
  {
    if a.DoRefresh? {
      RefreshPast(p, s, a.k);
    } else if a.DoConfirm? {
      ConfirmPast(p, s, a.i);
    } else {
      forall k
        ensures KeepsFinding(s.world, Step(p.setup, s.world, a), k)
      {
        OthersKeepFinding(p.setup, s.world, a, k);
      }
      KeptIsPast(s.world, s.history, Step(p.setup, s.world, a), s.history);
    }
  }

  lemma MovePast(p: Params, s: Sys, m: Move)
    requires Inv(p, s) && Good(p.setup, s.world) && AllPast(s.world, s.history) && AllNewest(s.world, s.history)
    requires CanMove(p, s, m)
    ensures AllPast(Move1(p, s, m).world, Move1(p, s, m).history)
  {
    if m.Do? {
      DoMoves(p, s, m.act);
      StepPast(p, s, m.act);
    } else {
      OracleMoves(p, s, m);
      KeptIsPast(s.world, s.history, s.world, Move1(p, s, m).history);
    }
  }

  /** What a run keeps, all of it. */
  ghost predicate Sound(p: Params, s: Sys) {
    Inv(p, s) && Good(p.setup, s.world) && AllNewest(s.world, s.history) && AllPast(s.world, s.history)
  }

  lemma MoveSound(p: Params, s: Sys, m: Move)
    requires p.w <= p.never && Sound(p, s) && CanMove(p, s, m)
    ensures Sound(p, Move1(p, s, m))
  {
    MovePast(p, s, m);
    MoveNewest(p, s, m);
    MoveInv(p, s, m);
  }

  lemma {:induction false} RunSound(p: Params, s: Sys, ms: seq<Move>)
    requires p.w <= p.never && Sound(p, s) && AllMoves(p, s, ms)
    ensures Sound(p, RunMoves(p, s, ms))
    decreases |ms|
  {
    if ms != [] {
      MoveSound(p, s, ms[0]);
      RunSound(p, Move1(p, s, ms[0]), ms[1..]);
    }
  }

  lemma StartIsSound(p: Params, s: Sys)
    requires AtStart(s)
    ensures Sound(p, s)
  {
    FreshInv(p, s);
    IdleNewest(s.world, s.history);
    NothingPast(s.world, s.history);
  }

  lemma NothingPast(w: World, hs: Histories)
    requires w.core.confirmed == map[]
    ensures AllPast(w, hs)
  {
  }

  lemma LeadsSound(p: Params, s0: Sys, ms: seq<Move>, s: Sys)
    requires p.w <= p.never && Sound(p, s0) && LeadsFrom(p, s0, ms, s)
    ensures Sound(p, s)
  {
    RunSound(p, s0, ms);
  }

  lemma ArisesSound(p: Params, s: Sys)
    requires p.w <= p.never && Arises(p, s)
    ensures Sound(p, s)
  {
    var s0, ms :| AtStart(s0) && LeadsFrom(p, s0, ms, s);
    StartIsSound(p, s0);
    LeadsSound(p, s0, ms, s);
  }

  /** The episode, if any, is about an older version than the oracle holds. */
  ghost predicate Stale(s: Sys, k: Key) {
    && k in s.records
    && (k in s.world.core.confirmed ==> s.world.core.confirmed[k].finding.oracleVersion < s.records[k].version)
  }

  /** Along the run nothing shows a finding of k. */
  ghost predicate NeverShown(p: Params, s: Sys, ms: seq<Move>, k: Key)
    requires AllMoves(p, s, ms)
    decreases |ms|
  {
    ms == [] || ((ms[0].Do? ==> !ShowsKey(s.world, ms[0].act, k)) && NeverShown(p, Move1(p, s, ms[0]), ms[1..], k))
  }

  lemma ApplyStales(p: Params, s: Sys, m: Mutation, trust: Trust)
    requires Sound(p, s) && !m.action.Nothing?
    ensures Stale(Move1(p, s, Apply(m, trust)), m.key)
  {
    assert Past(s.world, s.history, m.key);
    if m.key in s.records {
      assert RecordOk(s.records[m.key], s.history[m.key], s.now);
    }
  }

  lemma VersionsGrow(p: Params, s: Sys, m: Move, k: Key)
    requires CanMove(p, s, m) && k in s.records
    ensures k in Move1(p, s, m).records && Move1(p, s, m).records[k].version >= s.records[k].version
  {
  }

  lemma {:induction false} StaysStale(p: Params, s: Sys, ms: seq<Move>, k: Key)
    requires p.w <= p.never && Sound(p, s) && AllMoves(p, s, ms) && Stale(s, k) && NeverShown(p, s, ms, k)
    ensures Stale(RunMoves(p, s, ms), k)
    decreases |ms|
  {
    if ms != [] {
      VersionsGrow(p, s, ms[0], k);
      if ms[0].Do? {
        DoMoves(p, s, ms[0].act);
        OthersKeepFinding(p.setup, s.world, ms[0].act, k);
      }
      MoveSound(p, s, ms[0]);
      StaysStale(p, Move1(p, s, ms[0]), ms[1..], k);
    }
  }

  /** A withdrawal against the oracle's own versions leaves exactly the episodes about the version the
      oracle holds. */
  lemma WithdrawnIff(p: Params, s: Sys, k: Key)
    ensures var w' := Step(p.setup, s.world, Withdraw(OwnVersions(s)));
      k in w'.core.confirmed <==>
        && k in s.world.core.confirmed && k in s.records
        && s.records[k].version == s.world.core.confirmed[k].finding.oracleVersion
  {
  }

  /** An event withdraws the finding: over every run, once an event for the key has been applied, unless
      something shows a finding of the key since, the next withdrawal leaves the key in no episode. */
  lemma EventWithdraws(p: Params, s: Sys, m: Mutation, trust: Trust, ms: seq<Move>)
    requires p.w <= p.never && Arises(p, s) && !m.action.Nothing?
    requires var s1 := Move1(p, s, Apply(m, trust)); AllMoves(p, s1, ms) && NeverShown(p, s1, ms, m.key)
    ensures var s2 := RunMoves(p, Move1(p, s, Apply(m, trust)), ms);
      m.key !in Step(p.setup, s2.world, Withdraw(OwnVersions(s2))).core.confirmed
  {
    ArisesSound(p, s);
    ApplyStales(p, s, m, trust);
    MoveSound(p, s, Apply(m, trust));
    var s1 := Move1(p, s, Apply(m, trust));
    StaysStale(p, s1, ms, m.key);
    WithdrawnIff(p, RunMoves(p, s1, ms), m.key);
  }
}
