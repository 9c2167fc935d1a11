/** What a cycle that is cut short loses.

    A cycle that finds the target unreachable or is cancelled puts its candidates back, "so a canceled
    cycle loses nothing" (pkg/sweeper/confirm.go). Meanwhile a sweep may have queued the same key
    again, or filled the queue. Then a candidate is dropped, in the first case without being counted,
    and the key's wait starts again. */
module SweepLoss {
  import opened Events
  import opened OracleShard
  import opened Differ
  import opened Sweepers
  import opened Detection
  import opened SweepRuns
  import opened SweepTiming
  import opened SweepPaths

  // ---------------------------------------------------------------- one put-back

  /** The candidates find none of their keys queued, and room. */
  predicate Fits(s: Core, max: nat, cs: seq<Candidate>) { KeysIn(cs) !! s.queued && |s.queue| + |cs| <= max }

  lemma {:induction false} LostGrows(s: Core, max: nat, cs: seq<Candidate>)
    ensures RequeueAll(s, max, cs).stats.Lost() >= s.stats.Lost()
    decreases |cs|
  {
    if cs != [] {
      LostGrows(RequeueOne(s, max, cs[0]), max, cs[1..]);
    }
  }

  /** A put-back loses nothing if and only if none of its keys has been queued again and there is room
      for all of them. */
  lemma {:induction false} PutBackLosesNothingIff(s: Core, max: nat, cs: seq<Candidate>)
    requires Sane(s, max) && DistinctKeys(cs)
    ensures RequeueAll(s, max, cs).stats.Lost() == s.stats.Lost() <==> Fits(s, max, cs)
    decreases |cs|
  {
    if cs == [] {
      assert KeysIn(cs) == {};
    } else {
      var s1 := RequeueOne(s, max, cs[0]);
      DistinctTail(cs);
      KeysInAppend(s.queue, cs[0]);
      KeysInTail(cs);
      LostGrows(s1, max, cs[1..]);
      PutBackLosesNothingIff(s1, max, cs[1..]);
    }
  }

  lemma KeysInTail(cs: seq<Candidate>)
    requires cs != []
    ensures KeysIn(cs) == {cs[0].Key()} + KeysIn(cs[1..])
  {
    assert cs == [cs[0]] + cs[1..];
  }

  /** Those of the candidates whose key is not queued. */
  function Unqueued(cs: seq<Candidate>, queued: set<Key>): nat {
    if cs == [] then 0 else (if cs[0].Key() in queued then 0 else 1) + Unqueued(cs[1..], queued)
  }

  /** The fate of each candidate put back: it waits again, with its timing, if and only if its key was
      not queued meanwhile and the ones before it left room. */
  lemma {:induction false} WaitsAgainIff(s: Core, max: nat, cs: seq<Candidate>, j: nat)
    requires Sane(s, max) && DistinctKeys(cs) && j < |cs| && cs[j] !in s.queue
    ensures cs[j] in RequeueAll(s, max, cs).queue <==>
      cs[j].Key() !in s.queued && |s.queue| + Unqueued(cs[..j], s.queued) < max
    decreases |cs|
  {
    var s1, rest := RequeueOne(s, max, cs[0]), cs[1..];
    DistinctTail(cs);
    KeysInAppend(s.queue, cs[0]);
    RequeueAllLedger(s1, max, rest);
    if j == 0 {
      if cs[0] !in s1.queue {
        assert cs[0] !in rest;
      }
    } else {
      assert cs[j] == rest[j - 1] && cs[j] in rest && cs[..j][1..] == rest[..j - 1];
      WaitsAgainIff(s1, max, rest, j - 1);
      SameUnqueued(rest[..j - 1], s.queued, cs[0].Key());
    }
  }

  /** A key none of them has makes no difference. */
  lemma {:induction false} SameUnqueued(cs: seq<Candidate>, queued: set<Key>, k: Key)
    requires forall c :: c in cs ==> c.Key() != k
    ensures Unqueued(cs, queued + {k}) == Unqueued(cs, queued)
  {
    if cs != [] {
      SameUnqueued(cs[1..], queued, k);
    }
  }

  // ---------------------------------------------------------------- over runs

  /** Every candidate ever enqueued is queued, in flight or decided: none is lost. */
  predicate Kept(w: World) {
    w.core.stats.enqueued == |w.core.queue| + InFlight(w.cycles) + w.core.stats.Decided()
  }

  /** If the step puts candidates back, they fit. */
  predicate PutsBackFit(p: Setup, w: World, a: Act) {
    a.PutBackRest? && HeadIs(w, a.i) ==> Fits(w.core, p.max, w.cycles[a.i].due)
  }

  /** Only a put-back loses candidates. */
  lemma LostStays(p: Setup, w: World, a: Act)
    requires Enabled(w, a) && !a.PutBackRest?
    ensures Step(p, w, a).core.stats.Lost() == w.core.stats.Lost()
  {
    if OfCycle(a) {
      CycleLosesNone(p, w, a);
    } else {
      SweepLosesNone(p, w, a);
    }
  }

  lemma CycleLosesNone(p: Setup, w: World, a: Act)
    requires Enabled(w, a) && OfCycle(a) && !a.PutBackRest?
    ensures Step(p, w, a).core.stats.Lost() == w.core.stats.Lost()
  {
  }

  lemma SweepLosesNone(p: Setup, w: World, a: Act)
    requires Enabled(w, a) && !OfCycle(a)
    ensures Step(p, w, a).core.stats.Lost() == w.core.stats.Lost()
  {
  }

  /** From a state in which nothing has been lost, a step leads to another exactly when it does not put
      back candidates that do not fit. */
  lemma StepKeptIff(p: Setup, w: World, a: Act)
    requires Good(p, w) && Kept(w) && Enabled(w, a)
    ensures Kept(Step(p, w, a)) <==> PutsBackFit(p, w, a)
  {
    StepGood(p, w, a);
    if a.PutBackRest? {
      assert CycleOk(w.cycles[a.i]);
      PutBackLosesNothingIff(w.core, p.max, w.cycles[a.i].due);
    } else {
      LostStays(p, w, a);
    }
  }

  ghost predicate AlwaysKept(p: Setup, w: World, acts: seq<Act>)
    requires AllEnabled(p, w, acts)
    decreases |acts|
  {
    Kept(w) && (acts == [] || AlwaysKept(p, Step(p, w, acts[0]), acts[1..]))
  }

  /** Everything the run puts back fits. */
  ghost predicate AlwaysFits(p: Setup, w: World, acts: seq<Act>)
    requires AllEnabled(p, w, acts)
    decreases |acts|
  {
    acts == [] || (PutsBackFit(p, w, acts[0]) && AlwaysFits(p, Step(p, w, acts[0]), acts[1..]))
  }

  lemma {:induction false} KeptIff(p: Setup, w: World, acts: seq<Act>)
    requires Good(p, w) && Kept(w) && AllEnabled(p, w, acts)
    ensures AlwaysKept(p, w, acts) <==> AlwaysFits(p, w, acts)
    decreases |acts|
  {
    if acts != [] {
      StepGood(p, w, acts[0]);
      StepKeptIff(p, w, acts[0]);
      if PutsBackFit(p, w, acts[0]) {
        KeptIff(p, Step(p, w, acts[0]), acts[1..]);
      }
    }
  }

  /** Over every run, with any number of cycles, in every state each candidate enqueued is queued, in
      flight or decided in one of six ways, if and only if every cycle that was cut short found none of
      its keys queued again and room for all of them. */
  lemma NothingIsLostIff(p: Setup, w: World, acts: seq<Act>)
    requires Initial(w) && AllEnabled(p, w, acts)
    ensures AlwaysKept(p, w, acts) <==> AlwaysFits(p, w, acts)
  {
    InitialIsGood(p, w);
    KeptIff(p, w, acts);
  }

  // ---------------------------------------------------------------- each candidate and its timing

  /** The candidate waits, or a cycle holds it. */
  ghost predicate InHand(w: World, c: Candidate) {
    c in w.core.queue || exists i :: 0 <= i < |w.cycles| && c in w.cycles[i].due
  }

  /** The step is a cycle's look at this candidate. */
  predicate LooksAt(w: World, a: Act, c: Candidate) {
    (a.CheckVersion? || a.RereadKey? || a.Judge? || a.DoConfirm?) && HeadIs(w, a.i) && w.cycles[a.i].due[0] == c
  }

  /** A put-back that fits leaves everything in hand. */
  lemma PutBackInHand(p: Setup, w: World, i: nat, c: Candidate)
    requires Good(p, w) && Enabled(w, PutBackRest(i)) && InHand(w, c) && PutsBackFit(p, w, PutBackRest(i))
    ensures InHand(Step(p, w, PutBackRest(i)), c)
  {
    assert CycleOk(w.cycles[i]);
    RoomForAll(w.core, p.max, w.cycles[i].due);
    var w' := Step(p, w, PutBackRest(i));
    if c !in w.core.queue && c !in w.cycles[i].due {
      var j :| 0 <= j < |w.cycles| && c in w.cycles[j].due;
      assert c in w'.cycles[j].due;
    }
  }

  lemma TakeInHand(p: Setup, w: World, now: Time, c: Candidate)
    requires InHand(w, c)
    ensures InHand(Step(p, w, StartCycle(now)), c)
  {
    DueMembers(w.core.queue, now);
    var w' := Step(p, w, StartCycle(now));
    if c in w.core.queue {
      assert c in w'.cycles[|w.cycles|].due || c in w'.core.queue;
    } else {
      var j :| 0 <= j < |w.cycles| && c in w.cycles[j].due;
      assert c in w'.cycles[j].due;
    }
  }

  /** A cycle's step on another candidate. */
  lemma OtherInHand(w: World, w': World, i: nat, c: Candidate)
    requires InHand(w, c) && HeadIs(w, i) && w.cycles[i].due[0] != c && w'.core.queue == w.core.queue
    requires |w'.cycles| == |w.cycles| && forall j :: 0 <= j < |w.cycles| && j != i ==> w'.cycles[j] == w.cycles[j]
    requires w'.cycles[i].due == w.cycles[i].due || w'.cycles[i].due == w.cycles[i].due[1..]
    ensures InHand(w', c)
  {
    if c !in w.core.queue {
      var j :| 0 <= j < |w.cycles| && c in w.cycles[j].due;
      assert w.cycles[i].due == [w.cycles[i].due[0]] + w.cycles[i].due[1..];
      assert c in w'.cycles[j].due;
    }
  }

  lemma CycleInHand(p: Setup, w: World, a: Act, c: Candidate)
    requires Good(p, w) && Enabled(w, a) && InHand(w, c) && PutsBackFit(p, w, a) && OfCycle(a)
    ensures InHand(Step(p, w, a), c) || LooksAt(w, a, c)
  {
    if a.StartCycle? {
      TakeInHand(p, w, a.now, c);
    } else if a.PutBackRest? {
      PutBackInHand(p, w, a.i, c);
    } else if w.cycles[a.i].due[0] != c {
      if !a.DoConfirm? {
        LookFrame(p, w, a);
      }
      OtherInHand(w, Step(p, w, a), a.i, c);
    }
  }

  /** A step that puts back nothing that does not fit keeps every candidate in hand, unless it is a
      cycle deciding it. */
  lemma StepInHand(p: Setup, w: World, a: Act, c: Candidate)
    requires Good(p, w) && Enabled(w, a) && InHand(w, c) && PutsBackFit(p, w, a)
    ensures InHand(Step(p, w, a), c) || LooksAt(w, a, c)
  {
    if OfCycle(a) {
      CycleInHand(p, w, a, c);
    } else {
      SweepsKeepTimes(p, w, a);
      QueueGrows(p, w, a);
      if c !in w.core.queue {
        var j :| 0 <= j < |w.cycles| && c in w.cycles[j].due;
        assert c in Step(p, w, a).cycles[j].due;
      }
    }
  }

  /** Somewhere along the run a cycle that looks at the candidate lets go of it. */
  ghost predicate DecidedAlong(p: Setup, w: World, acts: seq<Act>, c: Candidate)
    requires AllEnabled(p, w, acts)
    decreases |acts|
  {
    acts != [] &&
      ((LooksAt(w, acts[0], c) && !InHand(Step(p, w, acts[0]), c)) ||
       DecidedAlong(p, Step(p, w, acts[0]), acts[1..], c))
  }

  /** Over every run whose put-backs fit, a candidate waits or is held, with the timing it was raised
      with, until a cycle decides it. */
  lemma {:induction false} TimingLastsUntilDecided(p: Setup, w: World, acts: seq<Act>, c: Candidate)
    requires Good(p, w) && AllEnabled(p, w, acts) && AlwaysFits(p, w, acts) && InHand(w, c)
    ensures InHand(Run(p, w, acts), c) || DecidedAlong(p, w, acts, c)
    decreases |acts|
  {
    if acts != [] {
      StepGood(p, w, acts[0]);
      StepInHand(p, w, acts[0], c);
      if InHand(Step(p, w, acts[0]), c) {
        TimingLastsUntilDecided(p, Step(p, w, acts[0]), acts[1..], c);
      }
    }
  }

  // ---------------------------------------------------------------- the run that loses one

  /** A sweep raises the key, a cycle takes it, and a sweep raises it again. */
  lemma RaisedTwice(r: Route, w0: World, k: Key, e: Record, read: Read, win: nat) returns (w: World)
    requires AtFirst(r, w0) && Drift(r.p, k, e, read)
    ensures Goes(r, w, win) && OnlyEnqueued(w, 2)
    ensures w.core.queue == [Raise(r.p, k, e, read, win, win)] && w.core.queued == {k}
    ensures w.cycles == [Cycle(win, [Raise(r.p, k, e, read, 0, win)], Untouched)]
  {
    RaiseKey(r.p, k, e, read, win, win);
    w := FirstTaken(r, w0, k, e, read, win);
    w := SweepFinds(r, w, win, k, e, read, win, win);
  }

  /** The put-back skips a candidate whose key is queued. */
  lemma SkippedBack(r: Route, w0: World, t: Time, c: Candidate) returns (w: World)
    requires Goes(r, w0, t) && w0.cycles == [Cycle(t, [c], Untouched)] && c.Key() in w0.core.queued
    ensures Goes(r, w, t) && w.core.queue == w0.core.queue && InFlight(w.cycles) == 0
    ensures w.core.stats == w0.core.stats.(displaced := w0.core.stats.displaced + 1)
  {
    Onward(r, w0, t, PutBackRest(0));
    w := Step(r.p, w0, PutBackRest(0));
    assert [c][1..] == [];
    assert RequeueAll(w0.core, r.p.max, [c]) == RequeueOne(w0.core, r.p.max, c);
    assert w.cycles == [Cycle(t, [], Untouched)] && w.cycles[1..] == [];
  }

  lemma CutShortLoses(r: Route, w0: World, k: Key, e: Record, read: Read, win: nat) returns (w: World)
    requires AtFirst(r, w0) && win >= 1 && Drift(r.p, k, e, read)
    ensures Goes(r, w, win) && !Kept(w) && w.core.stats.Decided() + InFlight(w.cycles) == 0
    ensures w.core.stats.enqueued == 2 && w.core.stats.displaced == 1 && w.core.stats.droppedBack == 0
    ensures |w.core.queue| == 1 && w.core.queue[0].Key() == k
    ensures Raise(r.p, k, e, read, 0, win).DueAt() == win && w.core.queue[0].DueAt() == 2 * win
  {
    RaiseKey(r.p, k, e, read, 0, win);
    RaiseKey(r.p, k, e, read, win, win);
    w := RaisedTwice(r, w0, k, e, read, win);
    w := SkippedBack(r, w, win, Raise(r.p, k, e, read, 0, win));
  }

  /** A cycle that is cut short loses a candidate without counting it, for every key that drifts and
      every positive window: a sweep queued the key again after the cycle took it, so the put-back skips
      it. The key is then due a window later than it was. */
  lemma PutBackDisplaces(r: Route, k: Key, e: Record, read: Read, win: nat) returns (w: World)
    requires FromStart(r) && r.p.max >= 1 && win >= 1 && Drift(r.p, k, e, read)
    ensures Goes(r, w, win) && !Kept(w) && w.core.stats.Decided() + InFlight(w.cycles) == 0
    ensures w.core.stats.enqueued == 2 && w.core.stats.displaced == 1 && w.core.stats.droppedBack == 0
    ensures |w.core.queue| == 1 && w.core.queue[0].Key() == k
    ensures Raise(r.p, k, e, read, 0, win).DueAt() == win && w.core.queue[0].DueAt() == 2 * win
  {
    StartIsFirst(r);
    w := CutShortLoses(r, r.start, k, e, read, win);
  }
}
