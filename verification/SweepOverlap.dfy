/** Overlapping cycles mistime episodes, and a refresh shows a finding that was read once.

    Every run here keeps a clock that never goes back. Two start at the beginning. The third starts in
    any state in which a cycle still holds a candidate, and so says what a caller can check before it
    starts another cycle. */
module SweepOverlap {
  import opened Events
  import opened OracleShard
  import opened Differ
  import opened Sweepers
  import opened SweepRuns
  import opened SweepTiming
  import opened SweepPaths

  // ---------------------------------------------------------------- runs from the beginning

  /** Cycle i confirms the one candidate it holds. */
  lemma ConfirmsOnly(r: Route, w0: World, t: Time, i: nat, c: Candidate, e: Record, read: Read) returns (w: World)
    requires Goes(r, w0, t) && Good(r.p, r.start) && i < |w0.cycles|
    requires w0.cycles[i].due == [c] && w0.cycles[i].head.Untouched?
    requires Drift(r.p, c.Key(), e, read) && e.version == c.version
    ensures Goes(r, w, t) && MovedOn(w0, w, i) && Leaves(w0, w, c, w0.cycles[i].now)
  {
    GoesGood(r, w0, t);
    w := Convict(r, w0, t, i, e, read);
  }

  /** Two cycles each hold a candidate of the key, and the newer is confirmed before the older. */
  lemma NewerThenOlder(r: Route, w0: World, t: Time, c: Candidate, o: Candidate, e: Record, read: Read)
    returns (w: World)
    requires Goes(r, w0, t) && Good(r.p, r.start) && |w0.cycles| == 2 && c.Key() == o.Key()
    requires w0.cycles[0].due == [c] && w0.cycles[0].head.Untouched?
    requires w0.cycles[1].due == [o] && w0.cycles[1].head.Untouched? && c.Key() !in w0.core.confirmed
    requires Drift(r.p, c.Key(), e, read) && e.version == c.version == o.version
    ensures Goes(r, w, t) && c.Key() in w.core.confirmed
    ensures var ep := w.core.confirmed[c.Key()];
      ep.firstSeenAt == o.seenAt && ep.confirmedAt == w0.cycles[0].now && ep.window == c.window
    ensures c.Key() in w.openedBy && w.openedBy[c.Key()].candidate == o
  {
    w := ConfirmsOnly(r, w0, t, 1, o, e, read);
    w := ConfirmsOnly(r, w, t, 0, c, e, read);
  }

  lemma TwoCyclesMistime(r: Route, w0: World, k: Key, e: Record, read: Read, win: nat) returns (w: World)
    requires AtFirst(r, w0) && win >= 1 && Drift(r.p, k, e, read)
    ensures Goes(r, w, 2 * win) && k in w.core.confirmed && !Timed(w.core.confirmed[k])
  {
    var c, o := Raise(r.p, k, e, read, 0, win), Raise(r.p, k, e, read, win, win);
    RaiseKey(r.p, k, e, read, 0, win);
    RaiseKey(r.p, k, e, read, win, win);
    w := FirstTaken(r, w0, k, e, read, win);
    w := SweepFinds(r, w, win, k, e, read, win, win);
    w := TakesOnly(r, w, win, o, 2 * win);
    w := NewerThenOlder(r, w, 2 * win, c, o, e, read);
  }

  /** Two cycles at once mistime an episode, for every key that drifts and every positive window, with
      a clock that reads 0, win, win, 2 * win: the cycle that took the older candidate finishes after
      the one that took the newer, and the episode then claims to have been first seen less than a
      window before it was confirmed. */
  lemma OverlappingCyclesMistime(r: Route, k: Key, e: Record, read: Read, win: nat) returns (w: World)
    requires FromStart(r) && r.p.max >= 1 && win >= 1 && Drift(r.p, k, e, read)
    ensures Goes(r, w, 2 * win) && k in w.core.confirmed && !Timed(w.core.confirmed[k])
  {
    StartIsFirst(r);
    w := TwoCyclesMistime(r, r.start, k, e, read, win);
  }

  /** A sweep has read the key under a narrower window when a cycle takes its first candidate. */
  lemma NarrowerRead(r: Route, w0: World, k: Key, e: Record, read: Read, win: nat, less: nat) returns (w: World)
    requires AtFirst(r, w0) && less < win && Drift(r.p, k, e, read)
    ensures Goes(r, w, win + less) && w.sweep == Some(Pass(win, less, map[k := WasRead(e.version, read)]))
    ensures w.core.queue == [] && w.core.queued == {} && w.core.confirmed == map[]
    ensures w.cycles == [Cycle(win + less, [Raise(r.p, k, e, read, 0, win)], Untouched)]
  {
    RaiseKey(r.p, k, e, read, 0, win);
    w := SweepFinds(r, w0, 0, k, e, read, 0, win);
    SweepReads(r, w, 0, k, e, read, win, less);
    w := Reading1(w, k, e.version, read, win, less);
    w := TakesOnly(r, w, win, Raise(r.p, k, e, read, 0, win), win + less);
  }

  /** Then the sweep queues it again, already due, and a second cycle takes that. */
  lemma NarrowerBehind(r: Route, w0: World, k: Key, e: Record, read: Read, win: nat, less: nat) returns (w: World)
    requires AtFirst(r, w0) && less < win && Drift(r.p, k, e, read)
    ensures Goes(r, w, win + less) && w.core.confirmed == map[] && |w.cycles| == 2
    ensures w.cycles[0] == Cycle(win + less, [Raise(r.p, k, e, read, 0, win)], Untouched)
    ensures w.cycles[1] == Cycle(win + less, [Raise(r.p, k, e, read, win, less)], Untouched)
  {
    RaiseKey(r.p, k, e, read, win, less);
    w := NarrowerRead(r, w0, k, e, read, win, less);
    w := SweepQueues(r, w, win + less, k, e, read, win, less);
    w := TakesOnly(r, w, win + less, Raise(r.p, k, e, read, win, less), win + less);
  }

  lemma NarrowerMistimes(r: Route, w0: World, k: Key, e: Record, read: Read, win: nat, less: nat)
    returns (w: World)
    requires AtFirst(r, w0) && less < win && Drift(r.p, k, e, read)
    ensures Goes(r, w, win + less) && k in w.core.confirmed && !Timed(w.core.confirmed[k])
    ensures k in w.openedBy && w.openedBy[k].candidate.DueAt() <= w.core.confirmed[k].confirmedAt
  {
    var c, o := Raise(r.p, k, e, read, 0, win), Raise(r.p, k, e, read, win, less);
    RaiseKey(r.p, k, e, read, 0, win);
    RaiseKey(r.p, k, e, read, win, less);
    w := NarrowerBehind(r, w0, k, e, read, win, less);
    w := NewerThenOlder(r, w, win + less, c, o, e, read);
  }

  /** A window that shrinks does it too, though the candidate that opens the episode is due when the
      other cycle begins: what counts then is the window of the candidate that renews. */
  lemma ShrunkWindowMistimes(r: Route, k: Key, e: Record, read: Read, win: nat, less: nat) returns (w: World)
    requires FromStart(r) && r.p.max >= 1 && less < win && Drift(r.p, k, e, read)
    ensures Goes(r, w, win + less) && k in w.core.confirmed && !Timed(w.core.confirmed[k])
    ensures k in w.openedBy && w.openedBy[k].candidate.DueAt() <= w.core.confirmed[k].confirmedAt
  {
    StartIsFirst(r);
    w := NarrowerMistimes(r, r.start, k, e, read, win, less);
  }

  // ---------------------------------------------------------------- a finding read once

  /** A sweep finds the key of an open episode differing at another version, and refreshes it. */
  lemma SweepRefreshes(r: Route, w0: World, t: Time, k: Key, e: Record, read: Read, win: nat) returns (w: World)
    requires Goes(r, w0, t) && w0.sweep.None? && w0.lastSweep <= t && Drift(r.p, k, e, read)
    requires k in w0.core.confirmed
    ensures Goes(r, w, t) && k in w.core.confirmed && w.lastBy == w0.lastBy
    ensures w.core.confirmed[k].finding.confirmed && w.core.confirmed[k].finding.oracleVersion == e.version
  {
    SweepReads(r, w0, t, k, e, read, t, win);
    w := Reading1(w0, k, e.version, read, t, win);
    SeenOk(r.p, k, e, read, t);
    Onward(r, w, t, CompareKeys(k, Some(e)));
    w := Step(r.p, w, CompareKeys(k, Some(e)));
    Onward(r, w, t, DoRefresh(k));
    w := Step(r.p, w, DoRefresh(k));
  }

  lemma OnceReadShown(r: Route, w0: World, k: Key, e: Record, read: Read, e': Record, read': Read, win: nat)
    returns (w: World)
    requires AtFirst(r, w0) && Drift(r.p, k, e, read) && Drift(r.p, k, e', read') && e.version != e'.version
    ensures Goes(r, w, win) && k in w.core.confirmed && k in w.lastBy
    ensures w.lastBy[k].candidate.version == e.version
    ensures w.core.confirmed[k].finding.confirmed && w.core.confirmed[k].finding.oracleVersion == e'.version
    ensures k in Prune(w.core, _ => Some(e'.version)).confirmed
  {
    RaiseKey(r.p, k, e, read, 0, win);
    w := FirstTaken(r, w0, k, e, read, win);
    w := ConfirmsOnly(r, w, win, 0, Raise(r.p, k, e, read, 0, win), e, read);
    w := SweepRefreshes(r, w, win, k, e', read', win);
  }

  /** A key confirmed at one version, found to differ at another before the episode is withdrawn: the
      sweep puts the new finding, read once, into the open episode as confirmed, and withdrawing what
      is stale then keeps it. */
  lemma RefreshShowsOnceRead(r: Route, k: Key, e: Record, read: Read, e': Record, read': Read, win: nat)
    returns (w: World)
    requires FromStart(r) && r.p.max >= 1 && Drift(r.p, k, e, read) && Drift(r.p, k, e', read')
    requires e.version != e'.version
    ensures Goes(r, w, win) && k in w.core.confirmed && k in w.lastBy && w.lastBy[k].candidate.version == e.version
    ensures w.core.confirmed[k].finding.confirmed && w.core.confirmed[k].finding.oracleVersion == e'.version
    ensures k in Prune(w.core, _ => Some(e'.version)).confirmed
  {
    StartIsFirst(r);
    w := OnceReadShown(r, r.start, k, e, read, e', read', win);
  }

  // ---------------------------------------------------------------- what a caller can check

  function Latest(q: seq<Candidate>, t: Time): Time {
    if q == [] then t else var l := Latest(q[1..], t); if q[0].DueAt() > l then q[0].DueAt() else l
  }

  lemma {:induction false} LatestIsLast(q: seq<Candidate>, t: Time)
    ensures t <= Latest(q, t) && forall c :: c in q ==> c.DueAt() <= Latest(q, t)
  {
    if q != [] {
      LatestIsLast(q[1..], t);
      assert q == [q[0]] + q[1..];
    }
  }

  /** Nothing waits, no sweep runs and the key is in no episode; the cycles there were are as they were. */
  ghost predicate Cleared(w0: World, w: World, k: Key) {
    && w.sweep.None? && w.core.queue == [] && w.core.queued == {} && k !in w.core.confirmed
    && |w0.cycles| <= |w.cycles| && forall j :: 0 <= j < |w0.cycles| ==> w.cycles[j] == w0.cycles[j]
  }

  /** While cycle i holds something, another can take all that waits, and a sweep can close the key's
      episode. */
  lemma ClearTheWay(r: Route, i: nat, k: Key, e: Record) returns (w: World, t: Time)
    requires Good(r.p, r.start) && r.held == Some(i) && HeadIs(r.start, i)
    requires e.flag.Complete? && r.start.lastSweep <= r.clock
    ensures Goes(r, w, t) && r.clock <= t && Cleared(r.start, w, k) && w.lastSweep <= t
  {
    w, t := r.start, r.clock;
    Begins(r);
    if w.sweep.Some? {
      Onward(r, w, t, EndSweep);
      w := Step(r.p, w, EndSweep);
    }
    t := Latest(w.core.queue, r.clock);
    LatestIsLast(w.core.queue, r.clock);
    GoesGood(r, w, r.clock);
    CycleTakes(r, w, r.clock, t);
    w := Taken(w, t);
    w := SweepCloses(r, w, t, k, e, t, 0);
  }

  /** A newer candidate of the key has opened an episode that starts at `at`. */
  lemma OpenAt(r: Route, w0: World, t: Time, i: nat, k: Key, e: Record, at: Time, win: nat) returns (w: World)
    requires Goes(r, w0, t) && Good(r.p, r.start) && r.held == Some(i) && HeadIs(w0, i) && r.p.max >= 1
    requires Cleared(w0, w0, k) && w0.lastSweep <= at && t <= at && e.flag.Complete?
    ensures Goes(r, w, at + win) && k in w.core.confirmed && w.core.confirmed[k].firstSeenAt == at
    ensures |w0.cycles| <= |w.cycles| && forall j :: 0 <= j < |w0.cycles| ==> w.cycles[j] == w0.cycles[j]
  {
    var o := Raise(r.p, k, e, WrongType, at, win);
    RaiseKey(r.p, k, e, WrongType, at, win);
    w := SweepFinds(r, w0, t, k, e, WrongType, at, win);
    w := TakesOnly(r, w, at, o, at + win);
    w := ConfirmsOnly(r, w, at + win, |w0.cycles|, o, e, WrongType);
  }

  /** A text the value is not. */
  function Unlike(v: Value): Value { if v == Scalar("") then Scalar("0") else Scalar("") }

  /** A trusted entry at the candidate's version that disagrees with what its cycle has read, if it has. */
  function Against(cy: Cycle, c: Candidate): Record {
    var v := if cy.head.Reread? && cy.head.read.Got? then cy.head.read.value else Absent;
    Record(Unlike(v), c.version, Complete, cy.now, None, false, cy.now)
  }

  lemma AgainstDiffers(p: Setup, cy: Cycle, c: Candidate)
    requires CycleOk(cy) && c in cy.due
    ensures cy.head.Reread? ==> Differs(p, c.Key(), Against(cy, c), cy.head.read, cy.now)
  {
    if cy.head.Reread? && cy.head.read.Got? {
      CompareMeaning(c.Key(), Against(cy, c), cy.head.read.value, p.opts, cy.now);
    }
  }

  /** From every state in which a cycle still holds a candidate, and for every window, the next cycle
      may mistime the candidate's episode, whatever else waits, runs or is open. */
  lemma HeldCandidateCanMistime(p: Setup, w0: World, t0: Time, i: nat, c: Candidate, win: nat)
    returns (w: World, t: Time)
    requires Reachable(p, w0) && w0.lastSweep <= t0 && i < |w0.cycles| && c in w0.cycles[i].due && p.max >= 1
    ensures Goes(Route(p, w0, t0, Some(i)), w, t) && Reachable(p, w)
    ensures c.Key() in w.core.confirmed && !Timed(w.core.confirmed[c.Key()])
  {
    var r, cy, k := Route(p, w0, t0, Some(i)), w0.cycles[i], c.Key();
    var e := Against(cy, c);
    ReachableIsGood(p, w0);
    AgainstDiffers(p, cy, c);
    w, t := ClearTheWay(r, i, k, e);
    var at := if t > cy.now - c.window + 1 then t else cy.now - c.window + 1;
    w := OpenAt(r, w, t, i, k, e, at, win);
    t := at + win;
    var w1 := PassTo(r, w, t, i, c);
    GoesGood(r, w1, t);
    w := Convict(r, w1, t, i, e, WrongType);
    GoesReachable(r, w, t);
  }

  /** Cycles so far never overlapped. */
  ghost predicate OneAtATimeSoFar(p: Setup, w: World) {
    exists w0, acts :: Initial(w0) && LeadsTo(p, w0, acts, w) && OneAtATime(p, w0, acts)
  }

  predicate SomeHeld(w: World, n: nat) { exists j :: 0 <= j < n && j < |w.cycles| && w.cycles[j].due != [] }

  /** Every cycle the run starts finds one of the first n not over. */
  ghost predicate StartsEarly(p: Setup, w: World, acts: seq<Act>, n: nat)
    requires AllEnabled(p, w, acts)
    decreases |acts|
  {
    acts == [] || ((acts[0].StartCycle? ==> SomeHeld(w, n)) && StartsEarly(p, Step(p, w, acts[0]), acts[1..], n))
  }

  /** Some continuation that starts its cycles before those now under way are over leaves a mistimed
      episode. */
  ghost predicate EarlyCycleMistimes(p: Setup, w: World, t: Time) {
    exists acts :: MistimesAlong(p, w, t, acts)
  }

  ghost predicate MistimesAlong(p: Setup, w: World, t: Time, acts: seq<Act>) {
    && AllEnabled(p, w, acts) && AllAllowed(Route(p, w, t, None), w, t, acts) && StartsEarly(p, w, acts, |w.cycles|)
    && !AllTimed(Run(p, w, acts))
  }

  lemma {:induction false} HeldIsEarly(r: Route, w: World, t: Time, acts: seq<Act>, n: nat)
    requires AllEnabled(r.p, w, acts) && AllAllowed(r, w, t, acts) && r.held.Some? && r.held.value < n
    ensures StartsEarly(r.p, w, acts, n) && AllAllowed(r.(held := None), w, t, acts)
    decreases |acts|
  {
    if acts != [] {
      HeldIsEarly(r, Step(r.p, w, acts[0]), Reading(acts[0], t), acts[1..], n);
    }
  }

  lemma IdleStaysIdle(p: Setup, w: World, a: Act)
    requires Idle(w) && Enabled(w, a) && !a.StartCycle?
    ensures Idle(Step(p, w, a)) && |Step(p, w, a).cycles| == |w.cycles|
  {
    SweepsKeepTimes(p, w, a);
  }

  lemma {:induction false} IdleIsOneAtATime(p: Setup, w: World, acts: seq<Act>)
    requires AllEnabled(p, w, acts) && Idle(w) && StartsEarly(p, w, acts, |w.cycles|)
    ensures OneAtATime(p, w, acts)
    decreases |acts|
  {
    if acts != [] {
      IdleStaysIdle(p, w, acts[0]);
      IdleIsOneAtATime(p, Step(p, w, acts[0]), acts[1..]);
    }
  }

  lemma InitialIsSerial(p: Setup, w: World)
    requires Initial(w)
    ensures Good(p, w) && Serial(w) && AllTimed(w)
  {
    InitialIsGood(p, w);
    IdleSerial(w);
  }

  lemma IdleSerial(w: World)
    requires w.sweep.None? && w.cycles == [] && w.core.queue == [] && w.core.confirmed == map[]
    ensures Serial(w) && AllTimed(w)
  {
  }

  lemma SerialLeadsTo(p: Setup, w0: World, acts: seq<Act>, w: World)
    requires Good(p, w0) && Serial(w0) && AllTimed(w0) && LeadsTo(p, w0, acts, w) && OneAtATime(p, w0, acts)
    ensures Good(p, w) && Serial(w) && AllTimed(w)
  {
    SerialReaches(p, w0, acts);
  }

  lemma SoFarIsSerial(p: Setup, w: World)
    requires OneAtATimeSoFar(p, w)
    ensures Good(p, w) && Serial(w) && AllTimed(w) && Reachable(p, w)
  {
    var w0, acts :| Initial(w0) && LeadsTo(p, w0, acts, w) && OneAtATime(p, w0, acts);
    InitialIsSerial(p, w0);
    SerialLeadsTo(p, w0, acts, w);
  }

  lemma IdleStaysTimed(p: Setup, w: World, acts: seq<Act>)
    requires OneAtATimeSoFar(p, w) && Idle(w) && AllEnabled(p, w, acts) && StartsEarly(p, w, acts, |w.cycles|)
    ensures AllTimed(Run(p, w, acts))
  {
    SoFarIsSerial(p, w);
    IdleIsOneAtATime(p, w, acts);
    SerialReaches(p, w, acts);
  }

  lemma {:induction false} SerialReaches(p: Setup, w: World, acts: seq<Act>)
    requires Good(p, w) && Serial(w) && AllTimed(w) && AllEnabled(p, w, acts) && OneAtATime(p, w, acts)
    ensures var w' := Run(p, w, acts); Good(p, w') && Serial(w') && AllTimed(w')
    decreases |acts|
  {
    if acts != [] {
      var a := acts[0];
      SerialNotOvertaken(p, w, a);
      StepTimedIff(p, w, a);
      StepGood(p, w, a);
      StepSerial(p, w, a);
      SerialReaches(p, Step(p, w, a), acts[1..]);
    }
  }

  /** Exactly when a caller risks it. In every state reached with cycles one at a time, starting a
      cycle before those under way are over can lead to a mistimed episode if and only if one of them
      still holds a candidate. */
  lemma EarlyCycleMistimesIff(p: Setup, w: World, t: Time)
    requires OneAtATimeSoFar(p, w) && w.lastSweep <= t && p.max >= 1
    ensures EarlyCycleMistimes(p, w, t) <==> !Idle(w)
  {
    if !Idle(w) {
      var i :| 0 <= i < |w.cycles| && w.cycles[i].due != [];
      SoFarIsSerial(p, w);
      var w', t' := HeldCandidateCanMistime(p, w, t, i, w.cycles[i].due[0], 0);
      var r := Route(p, w, t, Some(i));
      var acts :| Along(r, acts, w', t');
      HeldIsEarly(r, w, t, acts, |w.cycles|);
      assert MistimesAlong(p, w, t, acts);
    } else if EarlyCycleMistimes(p, w, t) {
      var acts :| MistimesAlong(p, w, t, acts);
      IdleStaysTimed(p, w, acts);
    }
  }
}
