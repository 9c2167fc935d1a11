/** Why a refresh shows a finding that was read once: a write.

    SweepTiming says when it does in terms of versions. Beside an oracle whose versions only grow, a
    refresh about another version than the one confirmed means that the key was written after the
    confirmed version and before the sweep captured it. */
module LagRefresh {
  import opened Events
  import opened OracleShard
  import opened Sweepers
  import opened Detection
  import opened SweepRuns
  import opened SweepTiming
  import opened Lag

  /** The version a sweep has captured of a key it is working on. */
  function Version(i: Item): Option<nat> {
    match i
    case Listed => None
    case Batched(v) => Some(v)
    case WasRead(v, _) => Some(v)
    case ToEnqueue(v, _) => Some(v)
    case ToRefresh(f) => Some(f.oracleVersion)
  }

  /** The candidate waits, is held by a cycle, or was the last of its key to be confirmed. */
  ghost predicate Known(w: World, c: Candidate) {
    || c in w.core.queue
    || (exists j :: 0 <= j < |w.cycles| && c in w.cycles[j].due)
    || (c.Key() in w.lastBy && w.lastBy[c.Key()].candidate == c)
  }

  /** What the sweep captured of k is the newest there is. */
  ghost predicate Newest(w: World, hs: Histories, k: Key) {
    ItemIs(w, k) && Version(w.sweep.value.items[k]).Some? ==>
      && k in hs && Version(w.sweep.value.items[k]).value <= |hs[k]|
      && forall c :: Known(w, c) && c.Key() == k ==> c.version <= Version(w.sweep.value.items[k]).value
  }

  ghost predicate AllNewest(w: World, hs: Histories) {
    forall k {:trigger Newest(w, hs, k)} :: Newest(w, hs, k)
  }

  /** Known candidates name versions that exist. */
  lemma KnownExists(p: Params, s: Sys, c: Candidate)
    requires Inv(p, s) && Known(s.world, c)
    ensures c.Key() in s.history && c.version <= |s.history[c.Key()]|
  {
    if c in s.world.core.queue {
      assert CandidateGrounded(p, s.history, s.raced, c);
    } else if j :| 0 <= j < |s.world.cycles| && c in s.world.cycles[j].due {
      assert CycleGrounded(p, s.history, s.raced, ReadingOf(s.rereads, j), s.world.cycles[j], s.now);
      assert CandidateGrounded(p, s.history, s.raced, c);
    } else {
      RacedIsShowable(p, s.history, s.raced, CaptureOf(c));
    }
  }

  /** The sweep stands where it did, histories have grown and no candidate has become known. */
  lemma FewerKnown(w: World, hs: Histories, w': World, hs': Histories)
    requires AllNewest(w, hs) && Grows(hs, hs') && w'.sweep == w.sweep
    requires forall c :: Known(w', c) ==> Known(w, c)
    ensures AllNewest(w', hs')
  {
    forall k
      ensures Newest(w', hs', k)
    {
      assert Newest(w, hs, k);
    }
  }

  /** One item changes without naming a newer version than it did, or goes. */
  lemma OneItem(w: World, hs: Histories, w': World, k: Key)
    requires AllNewest(w, hs) && w.sweep.Some? && w'.sweep.Some?
    requires forall x :: x != k ==>
      (ItemIs(w', x) <==> ItemIs(w, x)) && (ItemIs(w, x) ==> w'.sweep.value.items[x] == w.sweep.value.items[x])
    requires forall c :: Known(w', c) && c.Key() != k ==> Known(w, c)
    requires Newest(w', hs, k)
    ensures AllNewest(w', hs)
  {
    forall x
      ensures Newest(w', hs, x)
    {
      assert Newest(w, hs, x);
    }
  }

  lemma SameKnown(w: World, w': World)
    requires w'.core.queue == w.core.queue && w'.cycles == w.cycles && w'.lastBy == w.lastBy
    ensures forall c :: Known(w', c) <==> Known(w, c)
  {
  }

  // ---------------------------------------------------------------- every move keeps it

  lemma BatchNewest(p: Params, s: Sys, k: Key, e: Option<Record>)
    requires Inv(p, s) && AllNewest(s.world, s.history) && Enabled(s.world, Batch(k, e)) && Shown(p, s, Batch(k, e))
    ensures AllNewest(Step(p.setup, s.world, Batch(k, e)), s.history)
  {
    var w' := Step(p.setup, s.world, Batch(k, e));
    SameKnown(s.world, w');
    forall c | Known(w', c) && c.Key() == k
      ensures k in s.history && c.version <= |s.history[k]|
    {
      KnownExists(p, s, c);
    }
    assert k in s.records ==> RecordOk(s.records[k], s.history[k], s.now);
    OneItem(s.world, s.history, w', k);
  }

  lemma CompareNewest(p: Params, s: Sys, k: Key, e: Option<Record>)
    requires AllNewest(s.world, s.history) && Enabled(s.world, CompareKeys(k, e))
    ensures AllNewest(Step(p.setup, s.world, CompareKeys(k, e)), s.history)
  {
    var w' := Step(p.setup, s.world, CompareKeys(k, e));
    var item := s.world.sweep.value.items[k];
    SameKnown(s.world, w');
    assert Newest(s.world, s.history, k);
    if w'.sweep.Some? {
      if e.Some? && !item.read.Failed? {
        FindingOk(k, e.value, item.read, p.setup.opts, s.world.sweep.value.at);
      }
      OneItem(s.world, s.history, w', k);
    }
  }

  lemma EnqueueNewest(p: Params, s: Sys, k: Key)
    requires Good(p.setup, s.world) && AllNewest(s.world, s.history) && Enabled(s.world, DoEnqueue(k))
    ensures AllNewest(Step(p.setup, s.world, DoEnqueue(k)), s.history)
  {
    assert ItemOk(k, s.world.sweep.value.items[k], s.world.sweep.value.at);
    OneItem(s.world, s.history, Step(p.setup, s.world, DoEnqueue(k)), k);
  }

  lemma SweepNewest(p: Params, s: Sys, a: Act)
    requires AllNewest(s.world, s.history) && Enabled(s.world, a)
    requires a.StartSweep? || a.ListKey? || a.ReadKey? || a.FenceFails? || a.DoRefresh? || a.EndSweep? || a.Withdraw?
    ensures AllNewest(Step(p.setup, s.world, a), s.history)
  {
    var w' := Step(p.setup, s.world, a);
    SameKnown(s.world, w');
    if a.ListKey? || a.ReadKey? || a.FenceFails? || a.DoRefresh? {
      assert Newest(s.world, s.history, a.k);
      OneItem(s.world, s.history, w', a.k);
    } else if a.Withdraw? {
      FewerKnown(s.world, s.history, w', s.history);
    }
  }

  lemma TakeKnown(p: Params, w: World, now: Time, c: Candidate)
    requires Known(Step(p.setup, w, StartCycle(now)), c)
    ensures Known(w, c)
  {
    DueMembers(w.core.queue, now);
    var w' := Step(p.setup, w, StartCycle(now));
    if j :| 0 <= j < |w'.cycles| && c in w'.cycles[j].due {
      if j < |w.cycles| {
        assert c in w.cycles[j].due;
      }
    }
  }

  lemma PutBackKnown(p: Params, w: World, i: nat, c: Candidate)
    requires Good(p.setup, w) && Enabled(w, PutBackRest(i)) && Known(Step(p.setup, w, PutBackRest(i)), c)
    ensures Known(w, c)
  {
    RequeueAllLedger(w.core, p.setup.max, w.cycles[i].due);
    var w' := Step(p.setup, w, PutBackRest(i));
    if c in w'.core.queue && c !in w.core.queue {
      assert c in w.cycles[i].due;
    } else if j :| 0 <= j < |w'.cycles| && c in w'.cycles[j].due {
      assert c in w.cycles[j].due;
    }
  }

  lemma DecideKnown(p: Params, w: World, a: Act, c: Candidate)
    requires Enabled(w, a) && (a.CheckVersion? || a.RereadKey? || a.Judge? || a.DoConfirm?)
    requires Known(Step(p.setup, w, a), c)
    ensures Known(w, c)
  {
    var w' := Step(p.setup, w, a);
    if !a.DoConfirm? {
      LookFrame(p.setup, w, a);
      CyclesKeepHistory(p.setup, w, a);
    }
    assert w.cycles[a.i].due[0] in w.cycles[a.i].due;
    if j :| 0 <= j < |w'.cycles| && c in w'.cycles[j].due {
      assert c in w.cycles[j].due;
    }
  }

  lemma CycleNewest(p: Params, s: Sys, a: Act)
    requires Good(p.setup, s.world) && AllNewest(s.world, s.history) && Enabled(s.world, a) && OfCycle(a)
    ensures AllNewest(Step(p.setup, s.world, a), s.history)
  {
    var w' := Step(p.setup, s.world, a);
    forall c | Known(w', c)
      ensures Known(s.world, c)
    {
      if a.StartCycle? {
        TakeKnown(p, s.world, a.now, c);
      } else if a.PutBackRest? {
        PutBackKnown(p, s.world, a.i, c);
      } else {
        DecideKnown(p, s.world, a, c);
      }
    }
    FewerKnown(s.world, s.history, w', s.history);
  }

  lemma SweeperNewest(p: Params, s: Sys, a: Act)
    requires Inv(p, s) && Good(p.setup, s.world) && AllNewest(s.world, s.history)
    requires Enabled(s.world, a) && Shown(p, s, a)
    ensures AllNewest(Step(p.setup, s.world, a), s.history)
  {
    if OfCycle(a) {
      CycleNewest(p, s, a);
    } else if a.Batch? {
      BatchNewest(p, s, a.k, a.entry);
    } else if a.CompareKeys? {
      CompareNewest(p, s, a.k, a.entry);
    } else if a.DoEnqueue? {
      EnqueueNewest(p, s, a.k);
    } else {
      SweepNewest(p, s, a);
    }
  }

  lemma DoMoves(p: Params, s: Sys, a: Act)
    requires Enabled(s.world, a)
    ensures Move1(p, s, Do(a)).world == Step(p.setup, s.world, a) && Move1(p, s, Do(a)).history == s.history
  {
  }

  lemma MoveNewest(p: Params, s: Sys, m: Move)
    requires Inv(p, s) && Good(p.setup, s.world) && AllNewest(s.world, s.history) && CanMove(p, s, m)
    ensures AllNewest(Move1(p, s, m).world, Move1(p, s, m).history)
  {
    if m.Do? {
      DoMoves(p, s, m.act);
      SweeperNewest(p, s, m.act);
    } else {
      OracleMoves(p, s, m);
      FewerKnown(s.world, s.history, s.world, Move1(p, s, m).history);
    }
  }

  lemma {:induction false} RunNewest(p: Params, s: Sys, ms: seq<Move>)
    requires p.w <= p.never && Inv(p, s) && Good(p.setup, s.world) && AllNewest(s.world, s.history)
    requires AllMoves(p, s, ms)
    ensures AllNewest(RunMoves(p, s, ms).world, RunMoves(p, s, ms).history)
    decreases |ms|
  {
    if ms != [] {
      MoveNewest(p, s, ms[0]);
      MoveInv(p, s, ms[0]);
      RunNewest(p, Move1(p, s, ms[0]), ms[1..]);
    }
  }

  lemma IdleNewest(w: World, hs: Histories)
    requires w.sweep.None?
    ensures AllNewest(w, hs)
  {
  }

  lemma ArisesNewest(p: Params, s: Sys)
    requires p.w <= p.never && Arises(p, s)
    ensures AllNewest(s.world, s.history) && Good(p.setup, s.world)
  {
    var s0, ms :| AtStart(s0) && LeadsFrom(p, s0, ms, s);
    FreshInv(p, s0);
    IdleNewest(s0.world, s0.history);
    LeadsNewest(p, s0, ms, s);
  }

  lemma LeadsNewest(p: Params, s0: Sys, ms: seq<Move>, s: Sys)
    requires p.w <= p.never && Inv(p, s0) && Good(p.setup, s0.world) && AllNewest(s0.world, s0.history)
    requires LeadsFrom(p, s0, ms, s)
    ensures AllNewest(s.world, s.history) && Good(p.setup, s.world)
  {
    RunNewest(p, s0, ms);
    RunInv(p, s0, ms);
  }

  /** The n-th mutation of the key has been applied. */
  predicate Applied(h: seq<Stamp>, n: nat) { 1 <= n <= |h| }

  /** In every state that arises, a refresh puts a finding about another version into an open episode if
      and only if a write to the key came after the confirmed version and before the sweep captured the
      key. */
  lemma MixesIffWritten(p: Params, s: Sys, k: Key)
    requires p.w <= p.never && Arises(p, s) && Enabled(s.world, DoRefresh(k))
    requires k in s.world.core.confirmed && k in s.world.lastBy
    ensures k in s.history
    ensures
      var confirmed := s.world.lastBy[k].candidate.version;
      var captured := s.world.sweep.value.items[k].finding.oracleVersion;
      Mixes(s.world, DoRefresh(k)) <==> exists n: nat :: Applied(s.history[k], n) && confirmed < n <= captured
  {
    ArisesNewest(p, s);
    var c := s.world.lastBy[k].candidate;
    assert Newest(s.world, s.history, k);
    assert Known(s.world, c) && c.Key() == k;
    assert Mixes(s.world, DoRefresh(k)) ==> Applied(s.history[k], s.world.sweep.value.items[k].finding.oracleVersion);
  }
}
