/** Detection under interleaving: a candidate survives whatever else runs until a cycle is due for it,
    and that cycle, if it is let finish and keeps seeing the key differ, confirms it. */
module SweepDetection {
  import opened Events
  import opened OracleShard
  import opened Differ
  import opened Sweepers
  import opened Detection
  import opened SweepRuns
  import opened SweepPaths

  /** No cycle that starts along the run is due for c. */
  ghost predicate NotYetDue(acts: seq<Act>, c: Candidate) {
    forall a :: a in acts && a.StartCycle? ==> a.now < c.DueAt()
  }

  /** Sweeps, cycles not yet due, put-backs and withdrawals leave a waiting candidate waiting. */
  lemma {:induction false} CandidateWaits(p: Setup, w: World, acts: seq<Act>, c: Candidate)
    requires Good(p, w) && AllEnabled(p, w, acts) && c in w.core.queue && NotYetDue(acts, c)
    ensures c in Run(p, w, acts).core.queue
    decreases |acts|
  {
    if acts != [] {
      var a := acts[0];
      StepGood(p, w, a);
      if a.StartCycle? {
        DueMembers(w.core.queue, a.now);
      } else {
        QueueGrows(p, w, a);
      }
      CandidateWaits(p, Step(p, w, a), acts[1..], c);
    }
  }

  /** The first cycle that is due for it takes it. */
  lemma CandidateIsTaken(p: Setup, w: World, now: Time, c: Candidate)
    requires c in w.core.queue && c.DueAt() <= now
    ensures c in Step(p, w, StartCycle(now)).cycles[|w.cycles|].due
  {
    DueMembers(w.core.queue, now);
  }

  predicate Heads(w: World, i: nat, c: Candidate) { HeadIs(w, i) && w.cycles[i].due[0] == c }

  /** The step, if it is cycle i looking at c, finds it still differing at its version; and cycle i is
      not cut short while it holds c. */
  predicate Convicts(p: Setup, w: World, a: Act, i: nat, c: Candidate)
    requires Enabled(w, a)
  {
    match a
    case CheckVersion(j, v) => j == i && Heads(w, i, c) ==> v == Some(c.version)
    case RereadKey(j, read) => j == i && Heads(w, i, c) ==> !read.Failed?
    case Judge(j, e) =>
      j == i && Heads(w, i, c) ==>
        && e.Some? && e.value.version == c.version && !e.value.flag.Suspect?
        && CompareRead(c.Key(), e.value, w.cycles[i].head.read, p.opts, w.cycles[i].now).Some?
    case PutBackRest(j) => j == i ==> c !in w.cycles[i].due
    case _ => true
  }

  ghost predicate AlwaysConvicts(p: Setup, w: World, acts: seq<Act>, i: nat, c: Candidate)
    requires AllEnabled(p, w, acts)
    decreases |acts|
  {
    acts == [] || (Convicts(p, w, acts[0], i, c) && AlwaysConvicts(p, Step(p, w, acts[0]), acts[1..], i, c))
  }

  /** Some step of the run is cycle i confirming c, and leaves an episode that says so: of c's version
      and window, confirmed when the cycle began, and seen first when c was, unless it was open before. */
  ghost predicate Confirms(p: Setup, w: World, acts: seq<Act>, i: nat, c: Candidate, now: Time)
    requires AllEnabled(p, w, acts)
    decreases |acts|
  {
    acts != [] &&
      ((acts[0] == DoConfirm(i) && Heads(w, i, c) && Leaves(w, Step(p, w, acts[0]), c, now)) ||
       Confirms(p, Step(p, w, acts[0]), acts[1..], i, c, now))
  }

  /** A step of another cycle, or of none, leaves cycle i alone. */
  lemma OtherCycles(p: Setup, w: World, a: Act, i: nat)
    requires Enabled(w, a) && i < |w.cycles|
    requires !(a.CheckVersion? || a.RereadKey? || a.Judge? || a.DoConfirm? || a.PutBackRest?) || a.i != i
    ensures i < |Step(p, w, a).cycles| && Step(p, w, a).cycles[i] == w.cycles[i]
  {
  }

  /** A step of cycle i keeps c in hand unless it confirms it. */
  lemma OwnCycle(p: Setup, w: World, a: Act, i: nat, c: Candidate)
    requires Enabled(w, a) && i < |w.cycles| && c in w.cycles[i].due && Convicts(p, w, a, i, c)
    requires (a.CheckVersion? || a.RereadKey? || a.Judge? || a.DoConfirm? || a.PutBackRest?) && a.i == i
    requires !(a.DoConfirm? && Heads(w, i, c))
    ensures i < |Step(p, w, a).cycles| && c in Step(p, w, a).cycles[i].due
    ensures Step(p, w, a).cycles[i].now == w.cycles[i].now
  {
    var due := w.cycles[i].due;
    assert due == [due[0]] + due[1..];
  }

  lemma KeepsHold(p: Setup, w: World, a: Act, i: nat, c: Candidate)
    requires Enabled(w, a) && i < |w.cycles| && c in w.cycles[i].due && Convicts(p, w, a, i, c)
    requires !(a == DoConfirm(i) && Heads(w, i, c))
    ensures i < |Step(p, w, a).cycles| && c in Step(p, w, a).cycles[i].due
    ensures Step(p, w, a).cycles[i].now == w.cycles[i].now
  {
    if (a.CheckVersion? || a.RereadKey? || a.Judge? || a.DoConfirm? || a.PutBackRest?) && a.i == i {
      OwnCycle(p, w, a, i, c);
    } else {
      OtherCycles(p, w, a, i);
    }
  }

  lemma {:induction false} CycleConvicts(p: Setup, w: World, acts: seq<Act>, i: nat, c: Candidate, now: Time)
    requires Good(p, w) && AllEnabled(p, w, acts) && i < |w.cycles| && w.cycles[i].now == now
    requires c in w.cycles[i].due && AlwaysConvicts(p, w, acts, i, c)
    requires i < |Run(p, w, acts).cycles| && c !in Run(p, w, acts).cycles[i].due
    ensures Confirms(p, w, acts, i, c, now)
    decreases |acts|
  {
    if acts != [] {
      var a := acts[0];
      if a == DoConfirm(i) && Heads(w, i, c) {
        ConfirmLeaves(p, w, i);
      } else {
        KeepsHold(p, w, a, i, c);
        StepGood(p, w, a);
        CycleConvicts(p, Step(p, w, a), acts[1..], i, c, now);
      }
    }
  }

  /** Detection over every interleaving: a candidate raised by a sweep survives any sweeps, cycles not
      yet due, put-backs and withdrawals; the first cycle due for it takes it; and once that cycle is
      done with it, having seen it differ at its version whenever it looked, it has been confirmed. */
  lemma RaisedDriftIsConfirmed(p: Setup, w: World, wait: seq<Act>, now: Time, rest: seq<Act>, c: Candidate)
    requires Reachable(p, w) && c in w.core.queue && AllEnabled(p, w, wait) && NotYetDue(wait, c) && c.DueAt() <= now
    requires var w1 := Step(p, Run(p, w, wait), StartCycle(now));
      && AllEnabled(p, w1, rest) && AlwaysConvicts(p, w1, rest, |w1.cycles| - 1, c)
      && |w1.cycles| <= |Run(p, w1, rest).cycles| && c !in Run(p, w1, rest).cycles[|w1.cycles| - 1].due
    ensures var w1 := Step(p, Run(p, w, wait), StartCycle(now)); Confirms(p, w1, rest, |w1.cycles| - 1, c, now)
  {
    ReachableIsGood(p, w);
    CandidateWaits(p, w, wait, c);
    RunGood(p, w, wait);
    var w0 := Run(p, w, wait);
    CandidateIsTaken(p, w0, now, c);
    StepGood(p, w0, StartCycle(now));
    CycleConvicts(p, Step(p, w0, StartCycle(now)), rest, |w0.cycles|, c, now);
  }

  /** And such a cycle there is: from every reachable state in which the candidate waits, while its key
      keeps drifting at its version, a cycle that starts once it is due can run until it has confirmed
      it, whatever else waits, is in flight or is open. */
  lemma RaisedDriftCanBeConfirmed(p: Setup, w0: World, now: Time, c: Candidate, e: Record, read: Read)
    returns (w: World)
    requires Reachable(p, w0) && c in w0.core.queue && c.DueAt() <= now
    requires Drift(p, c.Key(), e, read) && e.version == c.version
    ensures Goes(Route(p, w0, now, None), w, now) && Leaves(w0, w, c, now)
  {
    var r, i := Route(p, w0, now, None), |w0.cycles|;
    ReachableIsGood(p, w0);
    CandidateIsTaken(p, w0, now, c);
    Begins(r);
    Onward(r, w0, now, StartCycle(now));
    var w1 := PassTo(r, Step(p, w0, StartCycle(now)), now, i, c);
    GoesGood(r, w1, now);
    w := Convict(r, w1, now, i, e, read);
  }
}
