/** When an episode has waited out its window, over runs with any number of confirm cycles.

    Nothing stops two cycles from overlapping: the run loop starts one on every tick and `driftwatch
    diff` starts its own beside it (internal/cli/diff.go, pkg/check/check.go). An episode keeps its
    first start when it is renewed, so a cycle that took an old candidate can renew an episode that a
    newer candidate opened in the meantime. */
module SweepTiming {
  import opened Events
  import opened OracleShard
  import opened Differ
  import opened Sweepers
  import opened Detection
  import opened SweepRuns

  /** The promise: an episode was first seen at least a window before it was confirmed. */
  predicate Timed(ep: Episode) { ep.confirmedAt - ep.firstSeenAt >= ep.window }

  ghost predicate AllTimed(w: World) { forall k :: k in w.core.confirmed ==> Timed(w.core.confirmed[k]) }

  /** The step confirms, into an open episode, a candidate whose cycle began less than the candidate's
      window after the sweep that opened the episode. */
  predicate Overtaken(w: World, a: Act) {
    && a.DoConfirm? && HeadIs(w, a.i)
    && var c := w.cycles[a.i].due[0];
      && c.Key() in w.core.confirmed && c.Key() in w.openedBy
      && w.cycles[a.i].now < w.openedBy[c.Key()].candidate.seenAt + c.window
  }

  predicate SameTimes(a: Episode, b: Episode) {
    a.firstSeenAt == b.firstSeenAt && a.confirmedAt == b.confirmedAt && a.window == b.window
  }

  /** Every step but a confirmation leaves the times of every episode alone. */
  ghost predicate KeepsTimes(w: World, w': World) {
    forall k :: k in w'.core.confirmed ==> k in w.core.confirmed && SameTimes(w.core.confirmed[k], w'.core.confirmed[k])
  }

  predicate OfCycle(a: Act) {
    a.StartCycle? || a.CheckVersion? || a.RereadKey? || a.Judge? || a.DoConfirm? || a.PutBackRest?
  }

  lemma CyclesKeepTimes(p: Setup, w: World, a: Act)
    requires Good(p, w) && Enabled(w, a) && OfCycle(a) && !a.DoConfirm?
    ensures Step(p, w, a).core.confirmed == w.core.confirmed
  {
    if a.PutBackRest? {
      RequeueAllLedger(w.core, p.max, w.cycles[a.i].due);
    }
  }

  lemma SweepsKeepTimes(p: Setup, w: World, a: Act)
    requires Enabled(w, a) && !OfCycle(a)
    ensures KeepsTimes(w, Step(p, w, a)) && Step(p, w, a).cycles == w.cycles
  {
  }

  lemma OthersKeepTimes(p: Setup, w: World, a: Act)
    requires Good(p, w) && Enabled(w, a) && !a.DoConfirm?
    ensures KeepsTimes(w, Step(p, w, a))
  {
    if OfCycle(a) {
      CyclesKeepTimes(p, w, a);
    } else {
      SweepsKeepTimes(p, w, a);
    }
  }

  lemma ConfirmTimes(p: Setup, w: World, i: nat)
    requires Good(p, w) && Enabled(w, DoConfirm(i))
    ensures var k, w' := w.cycles[i].due[0].Key(), Step(p, w, DoConfirm(i));
      && k in w'.core.confirmed && (Timed(w'.core.confirmed[k]) <==> !Overtaken(w, DoConfirm(i)))
      && (forall j :: j != k ==> (j in w.core.confirmed <==> j in w'.core.confirmed))
      && (forall j :: j != k && j in w.core.confirmed ==> w'.core.confirmed[j] == w.core.confirmed[j])
  {
    assert CycleOk(w.cycles[i]) && w.cycles[i].due[0] in w.cycles[i].due;
  }

  /** From a state in which every episode is timed, a step leads to another exactly when it does not
      confirm an overtaken candidate. */
  lemma StepTimedIff(p: Setup, w: World, a: Act)
    requires Good(p, w) && AllTimed(w) && Enabled(w, a)
    ensures AllTimed(Step(p, w, a)) <==> !Overtaken(w, a)
  {
    if a.DoConfirm? {
      ConfirmTimes(p, w, a.i);
    } else {
      OthersKeepTimes(p, w, a);
    }
  }

  /** Every state of the run has only timed episodes. */
  ghost predicate AlwaysTimed(p: Setup, w: World, acts: seq<Act>)
    requires AllEnabled(p, w, acts)
    decreases |acts|
  {
    AllTimed(w) && (acts == [] || AlwaysTimed(p, Step(p, w, acts[0]), acts[1..]))
  }

  /** No step of the run confirms an overtaken candidate. */
  ghost predicate NeverOvertaken(p: Setup, w: World, acts: seq<Act>)
    requires AllEnabled(p, w, acts)
    decreases |acts|
  {
    acts == [] || (!Overtaken(w, acts[0]) && NeverOvertaken(p, Step(p, w, acts[0]), acts[1..]))
  }

  lemma {:induction false} TimedIff(p: Setup, w: World, acts: seq<Act>)
    requires Good(p, w) && AllTimed(w) && AllEnabled(p, w, acts)
    ensures AlwaysTimed(p, w, acts) <==> NeverOvertaken(p, w, acts)
    decreases |acts|
  {
    if acts != [] {
      StepGood(p, w, acts[0]);
      StepTimedIff(p, w, acts[0]);
      if !Overtaken(w, acts[0]) {
        TimedIff(p, Step(p, w, acts[0]), acts[1..]);
      }
    }
  }

  /** Over every run, with any number of cycles and any windows, every episode in every state waited
      out its window if and only if no step confirmed an overtaken candidate. */
  lemma EpisodesAreTimedIff(p: Setup, w: World, acts: seq<Act>)
    requires Initial(w) && AllEnabled(p, w, acts)
    ensures AlwaysTimed(p, w, acts) <==> NeverOvertaken(p, w, acts)
  {
    InitialIsGood(p, w);
    TimedIff(p, w, acts);
  }

  /** An overtaken candidate is older than the one that opened the episode, and under one window its
      cycle took it at an earlier reading than the cycle that opened the episode took its own: the two
      cycles overlapped. */
  lemma OvertakenByNewer(p: Setup, w: World, i: nat)
    requires Reachable(p, w) && Enabled(w, DoConfirm(i)) && Overtaken(w, DoConfirm(i))
    ensures var c := w.cycles[i].due[0]; var o := w.openedBy[c.Key()];
      && c.seenAt < o.candidate.seenAt && o.candidate.Key() == c.Key()
      && (o.candidate.window == c.window ==> w.cycles[i].now < o.takenAt)
  {
    ReachableIsGood(p, w);
    assert CycleOk(w.cycles[i]) && w.cycles[i].due[0] in w.cycles[i].due;
  }

  // ---------------------------------------------------------------- one window

  /** Every sweep of the run uses this window. */
  ghost predicate UsesWindow(acts: seq<Act>, win: int) { forall a :: a in acts && a.StartSweep? ==> a.w == win }

  ghost predicate AllOfWindow(q: seq<Candidate>, win: int) { forall c :: c in q ==> c.window == win }

  /** Everything waiting, in flight and behind an episode was raised under this window. */
  ghost predicate Uniform(w: World, win: int) {
    && AllOfWindow(w.core.queue, win) && (w.sweep.Some? ==> w.sweep.value.w == win)
    && (forall i {:trigger w.cycles[i]} :: 0 <= i < |w.cycles| ==> AllOfWindow(w.cycles[i].due, win))
    && (forall k :: k in w.core.confirmed && k in w.openedBy ==> w.openedBy[k].candidate.window == win)
  }

  lemma CycleUniform(p: Setup, w: World, a: Act, win: int)
    requires Good(p, w) && Enabled(w, a) && Uniform(w, win) && OfCycle(a)
    ensures Uniform(Step(p, w, a), win)
  {
    if a.StartCycle? {
      DueMembers(w.core.queue, a.now);
    } else if a.PutBackRest? {
      RequeueAllLedger(w.core, p.max, w.cycles[a.i].due);
    } else if a.DoConfirm? {
      assert w.cycles[a.i].due[0] in w.cycles[a.i].due;
    } else {
      LookFrame(p, w, a);
      CyclesKeepHistory(p, w, a);
    }
  }

  lemma SweepUniform(p: Setup, w: World, a: Act, win: int)
    requires Good(p, w) && Enabled(w, a) && Uniform(w, win) && !OfCycle(a) && (a.StartSweep? ==> a.w == win)
    ensures Uniform(Step(p, w, a), win)
  {
    if a.DoEnqueue? {
      EnqueueUniform(p, w, a.k, win);
    } else {
      ItemsUniform(p, w, a, win);
    }
  }

  lemma EnqueueUniform(p: Setup, w: World, k: Key, win: int)
    requires Enabled(w, DoEnqueue(k)) && Uniform(w, win)
    ensures Uniform(Step(p, w, DoEnqueue(k)), win)
  {
  }

  lemma ItemsUniform(p: Setup, w: World, a: Act, win: int)
    requires Enabled(w, a) && Uniform(w, win) && !OfCycle(a) && !a.DoEnqueue? && (a.StartSweep? ==> a.w == win)
    ensures Uniform(Step(p, w, a), win)
  {
    SweepsKeepTimes(p, w, a);
    SweepKeepsQueue(p, w, a, win);
  }

  lemma SweepKeepsQueue(p: Setup, w: World, a: Act, win: int)
    requires Enabled(w, a) && !OfCycle(a) && !a.DoEnqueue? && (a.StartSweep? ==> a.w == win)
    requires w.sweep.Some? ==> w.sweep.value.w == win
    ensures Step(p, w, a).core.queue == w.core.queue && Step(p, w, a).openedBy == w.openedBy
    ensures Step(p, w, a).sweep.Some? ==> Step(p, w, a).sweep.value.w == win
  {
  }

  lemma StepUniform(p: Setup, w: World, a: Act, win: int)
    requires Good(p, w) && Enabled(w, a) && Uniform(w, win) && (a.StartSweep? ==> a.w == win)
    ensures Uniform(Step(p, w, a), win)
  {
    if OfCycle(a) {
      CycleUniform(p, w, a, win);
    } else {
      SweepUniform(p, w, a, win);
    }
  }

  /** The step confirms, into an open episode, a candidate of a cycle that began before the candidate
      that opened the episode was due: that cycle could not have taken it. */
  predicate BeforeDue(w: World, a: Act) {
    && a.DoConfirm? && HeadIs(w, a.i)
    && var c := w.cycles[a.i].due[0];
      && c.Key() in w.core.confirmed && c.Key() in w.openedBy
      && w.cycles[a.i].now < w.openedBy[c.Key()].candidate.DueAt()
  }

  ghost predicate NeverBeforeDue(p: Setup, w: World, acts: seq<Act>)
    requires AllEnabled(p, w, acts)
    decreases |acts|
  {
    acts == [] || (!BeforeDue(w, acts[0]) && NeverBeforeDue(p, Step(p, w, acts[0]), acts[1..]))
  }

  lemma {:induction false} UniformRun(p: Setup, w: World, acts: seq<Act>, win: int)
    requires Good(p, w) && AllEnabled(p, w, acts) && Uniform(w, win) && UsesWindow(acts, win)
    ensures NeverOvertaken(p, w, acts) <==> NeverBeforeDue(p, w, acts)
    decreases |acts|
  {
    if acts != [] {
      StepGood(p, w, acts[0]);
      StepUniform(p, w, acts[0], win);
      UniformRun(p, Step(p, w, acts[0]), acts[1..], win);
      if acts[0].DoConfirm? {
        assert w.cycles[acts[0].i].due[0] in w.cycles[acts[0].i].due;
      }
    }
  }

  /** While the window does not change, every episode in every state waited it out if and only if no
      cycle confirmed a candidate into an episode opened by one that was not yet due when the cycle
      began. */
  lemma OneWindowTimedIff(p: Setup, w: World, acts: seq<Act>, win: int)
    requires Initial(w) && AllEnabled(p, w, acts) && UsesWindow(acts, win)
    ensures AlwaysTimed(p, w, acts) <==> NeverBeforeDue(p, w, acts)
  {
    InitialIsGood(p, w);
    TimedIff(p, w, acts);
    UniformRun(p, w, acts, win);
  }

  // ---------------------------------------------------------------- one cycle at a time

  /** No cycle has anything left to decide. */
  ghost predicate Idle(w: World) { forall i :: 0 <= i < |w.cycles| ==> w.cycles[i].due == [] }

  /** Each cycle starts when the ones before it are over. */
  ghost predicate OneAtATime(p: Setup, w: World, acts: seq<Act>)
    requires AllEnabled(p, w, acts)
    decreases |acts|
  {
    acts == [] || ((acts[0].StartCycle? ==> Idle(w)) && OneAtATime(p, Step(p, w, acts[0]), acts[1..]))
  }

  /** What the cycle under way, if any, still has to decide. */
  function Flight(w: World): seq<Candidate> { if w.cycles == [] then [] else w.cycles[|w.cycles| - 1].due }

  /** Seen by a sweep already begun, and no later than any open episode of the key started. */
  predicate InTurn(confirmed: map<Key, Episode>, c: Candidate, lastSweep: Time) {
    c.seenAt <= lastSweep && (c.Key() in confirmed ==> confirmed[c.Key()].firstSeenAt <= c.seenAt)
  }

  ghost predicate AllInTurn(confirmed: map<Key, Episode>, q: seq<Candidate>, lastSweep: Time) {
    forall c :: c in q ==> InTurn(confirmed, c, lastSweep)
  }

  /** What is in flight was seen no later than what waits for the same key. */
  ghost predicate AheadOf(due: seq<Candidate>, q: seq<Candidate>) {
    forall c, x :: c in due && x in q && c.Key() == x.Key() ==> c.seenAt <= x.seenAt
  }

  ghost predicate Serial(w: World) {
    && (forall i :: 0 <= i < |w.cycles| - 1 ==> w.cycles[i].due == [])
    && AllInTurn(w.core.confirmed, w.core.queue, w.lastSweep) && AllInTurn(w.core.confirmed, Flight(w), w.lastSweep)
    && AheadOf(Flight(w), w.core.queue)
    && (forall k :: k in w.core.confirmed ==> w.core.confirmed[k].firstSeenAt <= w.lastSweep)
    && (w.sweep.Some? ==> w.sweep.value.at == w.lastSweep)
  }

  lemma SerialNotOvertaken(p: Setup, w: World, a: Act)
    requires Good(p, w) && Serial(w) && Enabled(w, a)
    ensures !Overtaken(w, a)
  {
    if a.DoConfirm? {
      assert CycleOk(w.cycles[a.i]) && w.cycles[a.i].due[0] in w.cycles[a.i].due;
      assert a.i == |w.cycles| - 1 && w.cycles[a.i].due[0] in Flight(w);
    }
  }

  /** Fewer or later-started episodes are never in the way. */
  lemma FewerInTurn(w: World, w': World)
    requires Serial(w) && KeepsTimes(w, w') && w'.lastSweep >= w.lastSweep
    ensures AllInTurn(w'.core.confirmed, w.core.queue, w'.lastSweep)
    ensures AllInTurn(w'.core.confirmed, Flight(w), w'.lastSweep)
    ensures forall k :: k in w'.core.confirmed ==> w'.core.confirmed[k].firstSeenAt <= w'.lastSweep
  {
    forall c | c in w.core.queue || c in Flight(w)
      ensures InTurn(w'.core.confirmed, c, w'.lastSweep)
    {
      assert InTurn(w.core.confirmed, c, w.lastSweep);
    }
  }

  /** Steps that neither queue nor touch a cycle. */
  lemma QuietSerial(w: World, w': World)
    requires Serial(w) && KeepsTimes(w, w') && w'.lastSweep >= w.lastSweep
    requires w'.core.queue == w.core.queue && w'.cycles == w.cycles
    requires w'.sweep.Some? ==> w'.sweep.value.at == w'.lastSweep
    ensures Serial(w')
  {
    FewerInTurn(w, w');
  }

  /** A step of a sweep other than queueing leaves the queue alone and its own clock reading. */
  lemma QuietSweepFrame(p: Setup, w: World, a: Act)
    requires Enabled(w, a) && !OfCycle(a) && !a.DoEnqueue? && (w.sweep.Some? ==> w.sweep.value.at == w.lastSweep)
    ensures var w' := Step(p, w, a);
      w'.core.queue == w.core.queue && w'.lastSweep >= w.lastSweep &&
        (w'.sweep.Some? ==> w'.sweep.value.at == w'.lastSweep)
  {
  }

  lemma EnqueueSerial(p: Setup, w: World, k: Key)
    requires Good(p, w) && Serial(w) && Enabled(w, DoEnqueue(k))
    ensures Serial(Step(p, w, DoEnqueue(k)))
  {
    var item := w.sweep.value.items[k];
    assert ItemOk(k, item, w.sweep.value.at);
    var c := Candidate(item.finding, item.version, w.sweep.value.at, w.sweep.value.w);
    JoinQueue(w.core.confirmed, w.core.queue, Flight(w), c, w.lastSweep);
  }

  /** A candidate of the running sweep is the newest there is. */
  lemma JoinQueue(confirmed: map<Key, Episode>, q: seq<Candidate>, due: seq<Candidate>, c: Candidate, lastSweep: Time)
    requires AllInTurn(confirmed, q, lastSweep) && AllInTurn(confirmed, due, lastSweep) && AheadOf(due, q)
    requires c.seenAt == lastSweep && forall k :: k in confirmed ==> confirmed[k].firstSeenAt <= lastSweep
    ensures AllInTurn(confirmed, q + [c], lastSweep) && AheadOf(due, q + [c])
  {
    forall x, y | x in due && y in q + [c] && x.Key() == y.Key()
      ensures x.seenAt <= y.seenAt
    {
      assert InTurn(confirmed, x, lastSweep);
    }
  }

  lemma TakeSerial(p: Setup, w: World, now: Time)
    requires Good(p, w) && Serial(w) && Idle(w)
    ensures Serial(Step(p, w, StartCycle(now)))
  {
    DueMembers(w.core.queue, now);
    TakenIsAhead(w.core, p.max, now);
  }

  lemma TakenIsAhead(s: Core, max: nat, now: Time)
    requires Sane(s, max)
    ensures AheadOf(Due(s.queue, now), NotDue(s.queue, now))
  {
    TakeDueSane(s, max, now);
    var d, n := Due(s.queue, now), NotDue(s.queue, now);
    forall c, x | c in d && x in n
      ensures c.Key() != x.Key()
    {
      assert c.Key() in KeysIn(d) && x.Key() in KeysIn(n);
    }
  }

  /** The last cycle decides, confirms or puts back. */
  lemma DecideSerial(p: Setup, w: World, w': World, i: nat)
    requires Good(p, w) && Serial(w) && HeadIs(w, i) && w'.core.queue == w.core.queue && KeepsTimes(w, w')
    requires w'.sweep == w.sweep && w'.lastSweep == w.lastSweep && |w'.cycles| == |w.cycles|
    requires forall j :: 0 <= j < |w.cycles| && j != i ==> w'.cycles[j] == w.cycles[j]
    requires forall c :: c in w'.cycles[i].due ==> c in w.cycles[i].due
    ensures Serial(w')
  {
    FewerInTurn(w, w');
    assert i == |w.cycles| - 1;
    assert forall c :: c in Flight(w') ==> c in Flight(w);
  }

  lemma ConfirmSerial(p: Setup, w: World, i: nat)
    requires Good(p, w) && Serial(w) && Enabled(w, DoConfirm(i))
    ensures Serial(Step(p, w, DoConfirm(i)))
  {
    var w', c := Step(p, w, DoConfirm(i)), w.cycles[i].due[0];
    assert CycleOk(w.cycles[i]) && c in Flight(w) && InTurn(w.core.confirmed, c, w.lastSweep);
    DistinctTail(w.cycles[i].due);
    assert w'.core.confirmed[c.Key()].firstSeenAt <= c.seenAt;
    forall x | x in w.core.queue
      ensures InTurn(w'.core.confirmed, x, w.lastSweep)
    {
      assert InTurn(w.core.confirmed, x, w.lastSweep);
    }
    forall x | x in Flight(w')
      ensures InTurn(w'.core.confirmed, x, w.lastSweep)
    {
      assert x in Flight(w) && InTurn(w.core.confirmed, x, w.lastSweep);
    }
  }

  lemma PutBackSerial(p: Setup, w: World, i: nat)
    requires Good(p, w) && Serial(w) && Enabled(w, PutBackRest(i))
    ensures Serial(Step(p, w, PutBackRest(i)))
  {
    RequeueAllLedger(w.core, p.max, w.cycles[i].due);
    assert i == |w.cycles| - 1;
  }

  /** Cycle `i` kept its first candidate or dropped it, and nothing else moved. */
  ghost predicate LooksOnly(w: World, w': World, i: nat) {
    && w'.core.queue == w.core.queue && w'.core.confirmed == w.core.confirmed
    && w'.sweep == w.sweep && w'.lastSweep == w.lastSweep && |w'.cycles| == |w.cycles| && HeadIs(w, i)
    && (forall j :: 0 <= j < |w.cycles| && j != i ==> w'.cycles[j] == w.cycles[j])
    && (w'.cycles[i].due == w.cycles[i].due || w'.cycles[i].due == w.cycles[i].due[1..])
  }

  lemma CheckVersionFrame(p: Setup, w: World, i: nat, v: Option<nat>)
    requires Enabled(w, CheckVersion(i, v))
    ensures LooksOnly(w, Step(p, w, CheckVersion(i, v)), i)
  {
  }

  lemma RereadFrame(p: Setup, w: World, i: nat, read: Read)
    requires Enabled(w, RereadKey(i, read))
    ensures LooksOnly(w, Step(p, w, RereadKey(i, read)), i)
  {
  }

  lemma JudgeFrame(p: Setup, w: World, i: nat, e: Option<Record>)
    requires Enabled(w, Judge(i, e))
    ensures LooksOnly(w, Step(p, w, Judge(i, e)), i)
  {
  }

  lemma LookFrame(p: Setup, w: World, a: Act)
    requires Enabled(w, a) && (a.CheckVersion? || a.RereadKey? || a.Judge?)
    ensures LooksOnly(w, Step(p, w, a), a.i)
  {
    match a
    case CheckVersion(i, v) => CheckVersionFrame(p, w, i, v);
    case RereadKey(i, read) => RereadFrame(p, w, i, read);
    case Judge(i, e) => JudgeFrame(p, w, i, e);
  }

  lemma StepSerial(p: Setup, w: World, a: Act)
    requires Good(p, w) && Serial(w) && Enabled(w, a) && (a.StartCycle? ==> Idle(w))
    ensures Serial(Step(p, w, a))
  {
    if a.DoEnqueue? {
      EnqueueSerial(p, w, a.k);
    } else if a.StartCycle? {
      TakeSerial(p, w, a.now);
    } else if a.DoConfirm? {
      ConfirmSerial(p, w, a.i);
    } else if a.PutBackRest? {
      PutBackSerial(p, w, a.i);
    } else if OfCycle(a) {
      LookFrame(p, w, a);
      DecideSerial(p, w, Step(p, w, a), a.i);
    } else {
      QuietSweepFrame(p, w, a);
      SweepsKeepTimes(p, w, a);
      QuietSerial(w, Step(p, w, a));
    }
  }

  lemma {:induction false} SerialRun(p: Setup, w: World, acts: seq<Act>)
    requires Good(p, w) && Serial(w) && AllEnabled(p, w, acts) && OneAtATime(p, w, acts)
    ensures NeverOvertaken(p, w, acts)
    decreases |acts|
  {
    if acts != [] {
      SerialNotOvertaken(p, w, acts[0]);
      StepGood(p, w, acts[0]);
      StepSerial(p, w, acts[0]);
      SerialRun(p, Step(p, w, acts[0]), acts[1..]);
    }
  }

  /** While cycles do not overlap, every episode in every state waited out its window, whatever a
      sweep interleaves and however often the episode is renewed or refreshed. */
  lemma OneAtATimeKeepsTiming(p: Setup, w: World, acts: seq<Act>)
    requires Initial(w) && AllEnabled(p, w, acts) && OneAtATime(p, w, acts)
    ensures AlwaysTimed(p, w, acts)
  {
    InitialIsGood(p, w);
    SerialRun(p, w, acts);
    TimedIff(p, w, acts);
  }

  // ---------------------------------------------------------------- findings read once

  /** The finding an episode shows is about the version that was last confirmed, so it was read twice. */
  ghost predicate TwiceRead(w: World) {
    forall k :: k in w.core.confirmed ==>
      k in w.lastBy && w.core.confirmed[k].finding.oracleVersion == w.lastBy[k].candidate.version
  }

  /** The step puts a finding about another version into an episode a sweep found open. */
  predicate Mixes(w: World, a: Act) {
    && a.DoRefresh? && ItemIs(w, a.k) && w.sweep.value.items[a.k].ToRefresh?
    && a.k in w.core.confirmed && a.k in w.lastBy
    && w.sweep.value.items[a.k].finding.oracleVersion != w.lastBy[a.k].candidate.version
  }

  predicate SameFinding(a: Episode, b: Episode) { a.finding == b.finding }

  /** Only a confirmation and a refresh change what an episode shows. */
  lemma OthersKeepFindings(p: Setup, w: World, a: Act)
    requires Enabled(w, a) && !OfCycle(a) && !a.DoRefresh?
    ensures Step(p, w, a).lastBy == w.lastBy
    ensures forall k :: k in Step(p, w, a).core.confirmed ==>
      k in w.core.confirmed && SameFinding(w.core.confirmed[k], Step(p, w, a).core.confirmed[k])
  {
  }

  lemma CyclesKeepHistory(p: Setup, w: World, a: Act)
    requires Enabled(w, a) && OfCycle(a) && !a.DoConfirm?
    ensures Step(p, w, a).lastBy == w.lastBy && Step(p, w, a).openedBy == w.openedBy
  {
  }

  lemma StepTwiceReadIff(p: Setup, w: World, a: Act)
    requires Good(p, w) && TwiceRead(w) && Enabled(w, a)
    ensures TwiceRead(Step(p, w, a)) <==> !Mixes(w, a)
  {
    if a.DoConfirm? {
      assert CycleOk(w.cycles[a.i]);
    } else if OfCycle(a) {
      CyclesKeepTimes(p, w, a);
      CyclesKeepHistory(p, w, a);
    } else if !a.DoRefresh? {
      OthersKeepFindings(p, w, a);
    }
  }

  ghost predicate AlwaysTwiceRead(p: Setup, w: World, acts: seq<Act>)
    requires AllEnabled(p, w, acts)
    decreases |acts|
  {
    TwiceRead(w) && (acts == [] || AlwaysTwiceRead(p, Step(p, w, acts[0]), acts[1..]))
  }

  ghost predicate NeverMixes(p: Setup, w: World, acts: seq<Act>)
    requires AllEnabled(p, w, acts)
    decreases |acts|
  {
    acts == [] || (!Mixes(w, acts[0]) && NeverMixes(p, Step(p, w, acts[0]), acts[1..]))
  }

  lemma {:induction false} TwiceReadIff(p: Setup, w: World, acts: seq<Act>)
    requires Good(p, w) && TwiceRead(w) && AllEnabled(p, w, acts)
    ensures AlwaysTwiceRead(p, w, acts) <==> NeverMixes(p, w, acts)
    decreases |acts|
  {
    if acts != [] {
      StepGood(p, w, acts[0]);
      StepTwiceReadIff(p, w, acts[0]);
      if !Mixes(w, acts[0]) {
        TwiceReadIff(p, Step(p, w, acts[0]), acts[1..]);
      }
    }
  }

  /** Over every run, what every episode shows was read twice at its version if and only if no sweep
      refreshed an open episode with a finding about another version than the one confirmed. */
  lemma FindingsAreTwiceReadIff(p: Setup, w: World, acts: seq<Act>)
    requires Initial(w) && AllEnabled(p, w, acts)
    ensures AlwaysTwiceRead(p, w, acts) <==> NeverMixes(p, w, acts)
  {
    InitialIsGood(p, w);
    TwiceReadIff(p, w, acts);
  }
}
