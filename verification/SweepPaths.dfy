/** Building runs of the interleaved sweeper, with a clock that never goes back.

    The sweeper's lookups and reads are parameters of its steps, so a run is built by choosing them.
    What is here is the stock of pieces: a sweep of one key, a cycle that takes what is due, gets past
    a candidate, or confirms one. */
module SweepPaths {
  import opened Events
  import opened OracleShard
  import opened Differ
  import opened Sweepers
  import opened Detection
  import opened SweepRuns

  // ---------------------------------------------------------------- clocked continuations

  /** Where a run starts and what the clock reads there. If `held` names a cycle, the run starts no
      other cycle once that one has nothing left to decide. */
  datatype Route = Route(p: Setup, start: World, clock: Time, held: Option<nat>)

  /** The latest clock reading after the step. */
  function Reading(a: Act, t: Time): Time {
    match a
    case StartSweep(at, _) => at
    case StartCycle(now) => now
    case _ => t
  }

  function LastReading(acts: seq<Act>, t: Time): Time {
    if acts == [] then t else LastReading(acts[1..], Reading(acts[0], t))
  }

  predicate Allowed(r: Route, w: World, t: Time, a: Act) {
    t <= Reading(a, t) && (a.StartCycle? && r.held.Some? ==> HeadIs(w, r.held.value))
  }

  predicate AllAllowed(r: Route, w: World, t: Time, acts: seq<Act>)
    requires AllEnabled(r.p, w, acts)
    decreases |acts|
  {
    acts == [] ||
      (Allowed(r, w, t, acts[0]) && AllAllowed(r, Step(r.p, w, acts[0]), Reading(acts[0], t), acts[1..]))
  }

  predicate Along(r: Route, acts: seq<Act>, w: World, t: Time) {
    LeadsTo(r.p, r.start, acts, w) && AllAllowed(r, r.start, r.clock, acts) && LastReading(acts, r.clock) == t
  }

  /** The route leads to w, with the clock at t. */
  ghost predicate Goes(r: Route, w: World, t: Time) { exists acts :: Along(r, acts, w, t) }

  lemma Begins(r: Route)
    ensures Goes(r, r.start, r.clock)
  {
    assert Along(r, [], r.start, r.clock);
  }

  lemma {:induction false} AllowedAppend(r: Route, w: World, t: Time, acts: seq<Act>, a: Act)
    requires AllEnabled(r.p, w, acts) && AllAllowed(r, w, t, acts)
    requires Enabled(Run(r.p, w, acts), a) && Allowed(r, Run(r.p, w, acts), LastReading(acts, t), a)
    ensures AllEnabled(r.p, w, acts + [a]) && Run(r.p, w, acts + [a]) == Step(r.p, Run(r.p, w, acts), a)
    ensures AllAllowed(r, w, t, acts + [a]) && LastReading(acts + [a], t) == Reading(a, LastReading(acts, t))
    decreases |acts|
  {
    if acts == [] {
      assert acts + [a] == [a];
      assert [a][1..] == [];
    } else {
      assert (acts + [a])[1..] == acts[1..] + [a];
      AllowedAppend(r, Step(r.p, w, acts[0]), Reading(acts[0], t), acts[1..], a);
    }
  }

  /** One more step. */
  lemma Onward(r: Route, w: World, t: Time, a: Act)
    requires Goes(r, w, t) && Enabled(w, a) && Allowed(r, w, t, a)
    ensures Goes(r, Step(r.p, w, a), Reading(a, t))
  {
    var acts :| Along(r, acts, w, t);
    AllowedAppend(r, r.start, r.clock, acts, a);
    assert Along(r, acts + [a], Step(r.p, w, a), Reading(a, t));
  }

  lemma GoesGood(r: Route, w: World, t: Time)
    requires Good(r.p, r.start) && Goes(r, w, t)
    ensures Good(r.p, w)
  {
    var acts :| Along(r, acts, w, t);
    RunGood(r.p, r.start, acts);
  }

  lemma {:induction false} ReachableRun(p: Setup, w: World, acts: seq<Act>)
    requires Reachable(p, w) && AllEnabled(p, w, acts)
    ensures Reachable(p, Run(p, w, acts))
    decreases |acts|
  {
    if acts != [] {
      ReachableNext(p, w, acts[0]);
      ReachableRun(p, Step(p, w, acts[0]), acts[1..]);
    }
  }

  lemma GoesReachable(r: Route, w: World, t: Time)
    requires Reachable(r.p, r.start) && Goes(r, w, t)
    ensures Reachable(r.p, w)
  {
    var acts :| Along(r, acts, w, t);
    ReachableRun(r.p, r.start, acts);
  }

  /** A route from a sweeper that has done nothing yet, with the clock at zero. */
  predicate FromStart(r: Route) {
    && r.start.sweep.None? && r.start.cycles == [] && r.start.lastSweep <= 0 && r.clock == 0 && r.held.None?
    && r.start.core.queue == [] && r.start.core.queued == {} && r.start.core.confirmed == map[]
    && r.start.core.requeued == {} && r.start.core.stats == ZeroStats()
  }

  lemma FromStartReachable(r: Route)
    requires FromStart(r)
    ensures Initial(r.start) && Reachable(r.p, r.start) && Good(r.p, r.start)
  {
    assert LeadsTo(r.p, r.start, [], r.start);
    InitialIsGood(r.p, r.start);
  }

  // ---------------------------------------------------------------- drift

  predicate Differs(p: Setup, k: Key, e: Record, read: Read, now: Time) {
    !read.Failed? && CompareRead(k, e, read, p.opts, now).Some?
  }

  /** A trusted entry and a read that disagrees with it whenever it is compared. */
  ghost predicate Drift(p: Setup, k: Key, e: Record, read: Read) {
    e.flag.Complete? && forall now :: Differs(p, k, e, read, now)
  }

  /** What a comparison of the two at this time finds. */
  ghost function Seen(p: Setup, k: Key, e: Record, read: Read, now: Time): Finding
    requires Drift(p, k, e, read)
  {
    assert Differs(p, k, e, read, now);
    CompareRead(k, e, read, p.opts, now).value
  }

  /** The candidate a sweep raises from the two. */
  ghost function Raise(p: Setup, k: Key, e: Record, read: Read, at: Time, win: int): Candidate
    requires Drift(p, k, e, read)
  {
    Candidate(Seen(p, k, e, read, at).(firstSeenAt := at), e.version, at, win)
  }

  lemma SeenOk(p: Setup, k: Key, e: Record, read: Read, now: Time)
    requires Drift(p, k, e, read)
    ensures Differs(p, k, e, read, now) && CompareRead(k, e, read, p.opts, now) == Some(Seen(p, k, e, read, now))
    ensures var f := Seen(p, k, e, read, now); f.key == k && f.oracleVersion == e.version && f.trust.Complete?
  {
    assert Differs(p, k, e, read, now);
    FindingOk(k, e, read, p.opts, now);
  }

  // ---------------------------------------------------------------- a sweep of one key

  /** A sweep under way that has read one key and not yet compared it. */
  function Reading1(w: World, k: Key, version: nat, read: Read, at: Time, win: int): World {
    w.(core := w.core.(requeued := {}), lastSweep := at,
       sweep := Some(Pass(at, win, map[k := WasRead(version, read)])))
  }

  lemma SweepReads(r: Route, w0: World, t: Time, k: Key, e: Record, read: Read, at: Time, win: int)
    requires Goes(r, w0, t) && w0.sweep.None? && t <= at && w0.lastSweep <= at && e.flag.Complete?
    ensures Goes(r, Reading1(w0, k, e.version, read, at, win), at)
  {
    var p := r.p;
    Onward(r, w0, t, StartSweep(at, win));
    var w := Step(p, w0, StartSweep(at, win));
    Onward(r, w, at, ListKey(k));
    w := Step(p, w, ListKey(k));
    Onward(r, w, at, Batch(k, Some(e)));
    w := Step(p, w, Batch(k, Some(e)));
    Onward(r, w, at, ReadKey(k, read));
    w := Step(p, w, ReadKey(k, read));
    assert w.sweep.value.items == map[k := WasRead(e.version, read)];
  }

  /** Another candidate waits; nothing else about queue, cycles and episodes has moved. */
  ghost predicate Queues(w0: World, w: World, c: Candidate) {
    && w.core.queue == w0.core.queue + [c] && w.core.queued == w0.core.queued + {c.Key()}
    && w.core.confirmed == w0.core.confirmed && w.core.stats.enqueued == w0.core.stats.enqueued + 1
    && w.core.stats.Decided() == w0.core.stats.Decided()
    && w.core.stats.displaced == w0.core.stats.displaced && w.core.stats.droppedBack == w0.core.stats.droppedBack
    && w.cycles == w0.cycles && w.lastSweep == w0.lastSweep && w.openedBy == w0.openedBy && w.lastBy == w0.lastBy
  }

  /** The sweep finds the key drifting, queues it and ends. */
  lemma SweepQueues(r: Route, w0: World, t: Time, k: Key, e: Record, read: Read, at: Time, win: int)
    returns (w: World)
    requires Goes(r, w0, t) && w0.sweep == Some(Pass(at, win, map[k := WasRead(e.version, read)]))
    requires Drift(r.p, k, e, read)
    requires k !in w0.core.confirmed && k !in w0.core.queued && |w0.core.queue| < r.p.max
    ensures Goes(r, w, t) && w.sweep.None? && Queues(w0, w, Raise(r.p, k, e, read, at, win))
  {
    var p := r.p;
    SeenOk(p, k, e, read, at);
    Onward(r, w0, t, CompareKeys(k, Some(e)));
    w := Step(p, w0, CompareKeys(k, Some(e)));
    Onward(r, w, t, DoEnqueue(k));
    w := Step(p, w, DoEnqueue(k));
    Onward(r, w, t, EndSweep);
    w := Step(p, w, EndSweep);
  }

  /** A whole sweep of one key that drifts. */
  lemma SweepFinds(r: Route, w0: World, t: Time, k: Key, e: Record, read: Read, at: Time, win: int)
    returns (w: World)
    requires Goes(r, w0, t) && w0.sweep.None? && t <= at && w0.lastSweep <= at && Drift(r.p, k, e, read)
    requires k !in w0.core.confirmed && k !in w0.core.queued && |w0.core.queue| < r.p.max
    ensures Goes(r, w, at) && w.sweep.None?
    ensures Queues(w0.(lastSweep := at), w, Raise(r.p, k, e, read, at, win))
  {
    SweepReads(r, w0, t, k, e, read, at, win);
    w := SweepQueues(r, Reading1(w0, k, e.version, read, at, win), at, k, e, read, at, win);
  }

  /** A sweep that sees the key agree closes its episode. */
  lemma SweepCloses(r: Route, w0: World, t: Time, k: Key, e: Record, at: Time, win: int)
    returns (w: World)
    requires Goes(r, w0, t) && w0.sweep.None? && t <= at && w0.lastSweep <= at && e.flag.Complete?
    ensures Goes(r, w, at) && w.sweep.None? && w.lastSweep == at && k !in w.core.confirmed && w.cycles == w0.cycles
    ensures w.core.queue == w0.core.queue && w.core.queued == w0.core.queued
  {
    var read := Got(e.value);
    SweepReads(r, w0, t, k, e, read, at, win);
    w := Reading1(w0, k, e.version, read, at, win);
    CompareMeaning(k, e, e.value, r.p.opts, at);
    Onward(r, w, at, CompareKeys(k, Some(e)));
    w := Step(r.p, w, CompareKeys(k, Some(e)));
    Onward(r, w, at, EndSweep);
    w := Step(r.p, w, EndSweep);
  }

  // ---------------------------------------------------------------- a cycle takes what is due

  lemma {:induction false} AllDue(q: seq<Candidate>, now: Time)
    requires forall c :: c in q ==> c.DueAt() <= now
    ensures Due(q, now) == q && NotDue(q, now) == []
  {
    if q != [] {
      AllDue(q[1..], now);
    }
  }

  /** A cycle has taken the whole queue. */
  function Taken(w: World, now: Time): World {
    w.(core := w.core.(queue := [], queued := {}), cycles := w.cycles + [Cycle(now, w.core.queue, Untouched)])
  }

  lemma CycleTakes(r: Route, w0: World, t: Time, now: Time)
    requires Goes(r, w0, t) && Sane(w0.core, r.p.max) && Allowed(r, w0, t, StartCycle(now))
    requires forall c :: c in w0.core.queue ==> c.DueAt() <= now
    ensures Goes(r, Taken(w0, now), now)
  {
    AllDue(w0.core.queue, now);
    assert w0.core.queued - KeysIn(w0.core.queue) == {};
    Onward(r, w0, t, StartCycle(now));
    assert Step(r.p, w0, StartCycle(now)) == Taken(w0, now);
  }

  /** The candidate is the only one waiting, and a cycle takes it. */
  lemma TakesOnly(r: Route, w0: World, t: Time, c: Candidate, now: Time) returns (w: World)
    requires Goes(r, w0, t) && Good(r.p, r.start) && w0.core.queue == [c] && c.DueAt() <= now
    requires Allowed(r, w0, t, StartCycle(now))
    ensures Goes(r, w, now) && w == Taken(w0, now) && w.cycles == w0.cycles + [Cycle(now, [c], Untouched)]
  {
    GoesGood(r, w0, t);
    CycleTakes(r, w0, t, now);
    w := Taken(w0, now);
  }

  // ---------------------------------------------------------------- the first candidate

  lemma RaiseKey(p: Setup, k: Key, e: Record, read: Read, at: Time, win: int)
    requires Drift(p, k, e, read)
    ensures var c := Raise(p, k, e, read, at, win);
      c.Key() == k && c.version == e.version && c.DueAt() == at + win && c.seenAt == at && c.window == win
  {
    SeenOk(p, k, e, read, at);
  }

  /** So many candidates enqueued, none decided and none lost. */
  predicate OnlyEnqueued(w: World, n: nat) {
    && w.core.stats.enqueued == n && w.core.stats.Decided() == 0
    && w.core.stats.displaced == 0 && w.core.stats.droppedBack == 0
  }

  /** The route is at a sweeper that has done nothing yet, and the clock reads zero. */
  ghost predicate AtFirst(r: Route, w: World) {
    && Goes(r, w, 0) && Good(r.p, r.start) && r.held.None? && r.p.max >= 1 && w.sweep.None? && w.lastSweep <= 0
    && w.core.queue == [] && w.core.queued == {} && w.core.confirmed == map[] && w.cycles == []
    && OnlyEnqueued(w, 0)
  }

  lemma StartIsFirst(r: Route)
    requires FromStart(r) && r.p.max >= 1
    ensures AtFirst(r, r.start)
  {
    FromStartReachable(r);
    Begins(r);
  }

  /** A sweep at zero has queued the key and a cycle has taken it. */
  lemma FirstTaken(r: Route, w0: World, k: Key, e: Record, read: Read, win: nat) returns (w: World)
    requires AtFirst(r, w0) && Drift(r.p, k, e, read)
    ensures Goes(r, w, win) && w.sweep.None? && w.lastSweep == 0
    ensures w.core.queue == [] && w.core.queued == {} && w.core.confirmed == map[]
    ensures w.cycles == [Cycle(win, [Raise(r.p, k, e, read, 0, win)], Untouched)] && OnlyEnqueued(w, 1)
  {
    RaiseKey(r.p, k, e, read, 0, win);
    w := SweepFinds(r, w0, 0, k, e, read, 0, win);
    w := TakesOnly(r, w, 0, Raise(r.p, k, e, read, 0, win), win);
  }

  // ---------------------------------------------------------------- a cycle decides

  /** Nothing about the key's episode has moved. */
  predicate SameEpisode(w0: World, w: World, k: Key) {
    && (k in w.core.confirmed <==> k in w0.core.confirmed)
    && (k in w.core.confirmed ==> w.core.confirmed[k] == w0.core.confirmed[k])
    && (k in w.openedBy <==> k in w0.openedBy) && (k in w.openedBy ==> w.openedBy[k] == w0.openedBy[k])
  }

  /** Cycle i is past its first candidate; no queue, sweep or other cycle has moved. */
  ghost predicate MovedOn(w0: World, w: World, i: nat) {
    && HeadIs(w0, i) && w.cycles == w0.cycles[i := w0.cycles[i].(due := w0.cycles[i].due[1..], head := Untouched)]
    && w.core.queue == w0.core.queue && w.core.queued == w0.core.queued
    && w.sweep == w0.sweep && w.lastSweep == w0.lastSweep
  }

  /** A cycle can get past its first candidate, however far it is with it, and touch no other key. */
  lemma PassOne(r: Route, w0: World, t: Time, i: nat) returns (w: World)
    requires Goes(r, w0, t) && Good(r.p, w0) && HeadIs(w0, i)
    ensures Goes(r, w, t) && MovedOn(w0, w, i)
    ensures forall k :: k != w0.cycles[i].due[0].Key() ==> SameEpisode(w0, w, k)
  {
    var h, c := w0.cycles[i].head, w0.cycles[i].due[0];
    assert CycleOk(w0.cycles[i]);
    var a :=
      if h.Untouched? then CheckVersion(i, None)
      else if h.Versioned? then RereadKey(i, Failed)
      else if h.Reread? then Judge(i, None)
      else DoConfirm(i);
    Onward(r, w0, t, a);
    w := Step(r.p, w0, a);
  }

  /** Cycle i has come to c; no queue, sweep, other cycle or episode of c's key has moved. */
  ghost predicate ComeTo(w0: World, w: World, i: nat, c: Candidate) {
    && i < |w0.cycles| == |w.cycles| && w.cycles[i].due != [] && w.cycles[i].due[0] == c
    && w.cycles[i].now == w0.cycles[i].now && (w.cycles[i].head.Untouched? || w.cycles[i] == w0.cycles[i])
    && (forall j :: 0 <= j < |w0.cycles| && j != i ==> w.cycles[j] == w0.cycles[j])
    && w.core.queue == w0.core.queue && w.core.queued == w0.core.queued
    && w.sweep == w0.sweep && w.lastSweep == w0.lastSweep && SameEpisode(w0, w, c.Key())
  }

  lemma ComeFurther(w0: World, w1: World, w: World, i: nat, c: Candidate)
    requires MovedOn(w0, w1, i) && SameEpisode(w0, w1, c.Key()) && ComeTo(w1, w, i, c)
    ensures ComeTo(w0, w, i, c)
  {
    assert w1.cycles[i].head.Untouched?;
  }

  /** And so it can get to any candidate it holds. */
  lemma {:induction false} PassTo(r: Route, w0: World, t: Time, i: nat, c: Candidate) returns (w: World)
    requires Goes(r, w0, t) && Good(r.p, r.start) && i < |w0.cycles| && c in w0.cycles[i].due
    ensures Goes(r, w, t) && ComeTo(w0, w, i, c)
    decreases |w0.cycles[i].due|
  {
    var due := w0.cycles[i].due;
    if due[0] == c {
      w := w0;
    } else {
      assert due == [due[0]] + due[1..];
      GoesGood(r, w0, t);
      OthersAhead(w0.cycles[i], c);
      var w1 := PassOne(r, w0, t, i);
      w := PassTo(r, w1, t, i, c);
      ComeFurther(w0, w1, w, i, c);
    }
  }

  lemma OthersAhead(cy: Cycle, c: Candidate)
    requires CycleOk(cy) && c in cy.due && cy.due[0] != c
    ensures c in cy.due[1..] && c.Key() != cy.due[0].Key()
  {
    assert cy.due == [cy.due[0]] + cy.due[1..];
    DistinctTail(cy.due);
  }

  /** The episode a confirmation of c at this reading leaves: a new one, or the old one renewed. */
  predicate Leaves(w0: World, w: World, c: Candidate, now: Time) {
    var k := c.Key();
    && k in w.core.confirmed && k in w.lastBy && w.lastBy[k] == Confirmation(c, now)
    && w.core.confirmed[k].confirmedAt == now && w.core.confirmed[k].window == c.window
    && w.core.confirmed[k].finding.oracleVersion == c.version && w.core.confirmed[k].finding.confirmed
    && w.core.confirmed[k].firstSeenAt ==
       (if k in w0.core.confirmed then w0.core.confirmed[k].firstSeenAt else c.seenAt)
    && (k !in w0.core.confirmed ==> k in w.openedBy && w.openedBy[k] == Confirmation(c, now))
    && (k in w0.core.confirmed && k in w0.openedBy ==> k in w.openedBy && w.openedBy[k] == w0.openedBy[k])
  }

  lemma ConfirmLeaves(p: Setup, w: World, i: nat)
    requires Good(p, w) && Enabled(w, DoConfirm(i))
    ensures Leaves(w, Step(p, w, DoConfirm(i)), w.cycles[i].due[0], w.cycles[i].now)
    ensures MovedOn(w, Step(p, w, DoConfirm(i)), i)
  {
    assert CycleOk(w.cycles[i]);
  }

  /** The entry convicts the candidate that cycle i looks at, however far it is with it. */
  ghost predicate Convicting(p: Setup, w: World, i: nat, e: Record, read: Read) {
    && HeadIs(w, i) && Drift(p, w.cycles[i].due[0].Key(), e, read) && e.version == w.cycles[i].due[0].version
    && (w.cycles[i].head.Reread? ==>
          Differs(p, w.cycles[i].due[0].Key(), e, w.cycles[i].head.read, w.cycles[i].now))
  }

  /** From any stage the cycle can come to judge its first candidate guilty. */
  lemma ToGuilty(r: Route, w0: World, t: Time, i: nat, e: Record, read: Read) returns (w: World)
    requires Goes(r, w0, t) && Good(r.p, w0) && Convicting(r.p, w0, i, e, read)
    ensures Goes(r, w, t) && HeadIs(w, i) && w.cycles[i].head.ToConfirm?
    ensures w == w0.(cycles := w0.cycles[i := w0.cycles[i].(head := w.cycles[i].head)])
  {
    var k, v := w0.cycles[i].due[0].Key(), e.version;
    SeenOk(r.p, k, e, read, w0.cycles[i].now);
    w := w0;
    assert CycleOk(w0.cycles[i]);
    if w.cycles[i].head.Untouched? {
      Onward(r, w, t, CheckVersion(i, Some(v)));
      w := Step(r.p, w, CheckVersion(i, Some(v)));
    }
    if w.cycles[i].head.Versioned? {
      Onward(r, w, t, RereadKey(i, read));
      w := Step(r.p, w, RereadKey(i, read));
    }
    if w.cycles[i].head.Reread? {
      Onward(r, w, t, Judge(i, Some(e)));
      w := Step(r.p, w, Judge(i, Some(e)));
    }
  }

  lemma Convict(r: Route, w0: World, t: Time, i: nat, e: Record, read: Read) returns (w: World)
    requires Goes(r, w0, t) && Good(r.p, w0) && Good(r.p, r.start) && Convicting(r.p, w0, i, e, read)
    ensures Goes(r, w, t) && MovedOn(w0, w, i) && Leaves(w0, w, w0.cycles[i].due[0], w0.cycles[i].now)
  {
    var w1 := ToGuilty(r, w0, t, i, e, read);
    GoesGood(r, w1, t);
    ConfirmLeaves(r.p, w1, i);
    Onward(r, w1, t, DoConfirm(i));
    w := Step(r.p, w1, DoConfirm(i));
  }
}
