/** Sweeps and confirm cycles interleaved step by step.

    One sweep runs at a time, because a mutex guards it. Confirm cycles have no guard: the run loop
    starts them on a timer and `driftwatch diff` starts one of its own, so any number of them run at
    once. Critical sections, oracle lookups and target reads interleave in any order. What a lookup
    or a read returns is a parameter of the step, so the theorems hold for every oracle and every
    target. */
module SweepRuns {
  import opened Events
  import opened OracleShard
  import opened Differ
  import opened Sweepers
  import opened Detection

  /** How far a sweep has got with one key. */
  datatype Item =
    | Listed
    | Batched(version: nat)
    | WasRead(version: nat, read: Read)
    | ToEnqueue(version: nat, finding: Finding)
    | ToRefresh(finding: Finding)

  datatype Pass = Pass(at: Time, w: int, items: map<Key, Item>)

  /** How far a confirm cycle has got with its first undecided candidate. */
  datatype Head = Untouched | Versioned | Reread(read: Read) | ToConfirm(finding: Finding)

  datatype Cycle = Cycle(now: Time, due: seq<Candidate>, head: Head)

  /** A candidate that was confirmed, and when its cycle took it. */
  datatype Confirmation = Confirmation(candidate: Candidate, takenAt: Time)

  /** Cycles are numbered in the order they start; one that has nothing left to decide is over.
      `openedBy` and `lastBy` remember which confirmation opened the episode of a key and which was the
      last; the code does not keep them. */
  datatype World = World(
    core: Core, sweep: Option<Pass>, cycles: seq<Cycle>, lastSweep: Time,
    openedBy: map<Key, Confirmation>, lastBy: map<Key, Confirmation>)

  datatype Act =
    // the sweep
    | StartSweep(at: Time, w: int)
    | ListKey(k: Key)
    | Batch(k: Key, entry: Option<Record>)
    | ReadKey(k: Key, read: Read)
    | FenceFails(k: Key)
    | CompareKeys(k: Key, entry: Option<Record>)
    | DoEnqueue(k: Key)
    | DoRefresh(k: Key)
    | EndSweep
    // withdrawing stale episodes
    | Withdraw(versions: Key -> Option<nat>)
    // the confirm cycles
    | StartCycle(now: Time)
    | CheckVersion(i: nat, version: Option<nat>)
    | RereadKey(i: nat, read: Read)
    | Judge(i: nat, entry: Option<Record>)
    | DoConfirm(i: nat)
    | PutBackRest(i: nat)

  datatype Setup = Setup(max: nat, opts: Options)

  function WithItem(w: World, k: Key, i: Item): World
    requires w.sweep.Some?
  {
    w.(sweep := Some(w.sweep.value.(items := w.sweep.value.items[k := i])))
  }

  function DropItem(w: World, k: Key): World
    requires w.sweep.Some?
  {
    w.(sweep := Some(w.sweep.value.(items := w.sweep.value.items - {k})))
  }

  predicate ItemIs(w: World, k: Key) { w.sweep.Some? && k in w.sweep.value.items }

  predicate HeadIs(w: World, i: nat) { i < |w.cycles| && w.cycles[i].due != [] }

  /** When a step can happen. Clock readings of successive sweeps do not go back; those of cycles
      may, since a tick can be handled late. */
  predicate Enabled(w: World, a: Act) {
    match a
    case StartSweep(at, _) => w.sweep.None? && w.lastSweep <= at
    case ListKey(k) => w.sweep.Some? && k !in w.sweep.value.items
    case Batch(k, _) => ItemIs(w, k) && w.sweep.value.items[k].Listed?
    case ReadKey(k, _) => ItemIs(w, k) && w.sweep.value.items[k].Batched?
    case FenceFails(k) => ItemIs(w, k) && w.sweep.value.items[k].WasRead?
    case CompareKeys(k, _) => ItemIs(w, k) && w.sweep.value.items[k].WasRead?
    case DoEnqueue(k) => ItemIs(w, k) && w.sweep.value.items[k].ToEnqueue?
    case DoRefresh(k) => ItemIs(w, k) && w.sweep.value.items[k].ToRefresh?
    case EndSweep => w.sweep.Some?
    case Withdraw(_) => true
    case StartCycle(_) => true
    case CheckVersion(i, _) => HeadIs(w, i) && w.cycles[i].head.Untouched?
    case RereadKey(i, _) => HeadIs(w, i) && w.cycles[i].head.Versioned?
    case Judge(i, _) => HeadIs(w, i) && w.cycles[i].head.Reread? && !w.cycles[i].head.read.Failed?
    case DoConfirm(i) => HeadIs(w, i) && w.cycles[i].head.ToConfirm?
    case PutBackRest(i) => HeadIs(w, i) && w.cycles[i].head.Untouched?
  }

  function FenceFailed(w: World, k: Key): World
    requires w.sweep.Some?
  {
    var c := w.core;
    DropItem(w.(core := MarkRequeued(c.(stats := c.stats.(fenceFailures := c.stats.fenceFailures + 1)), k)), k)
  }

  /** After the fence: agreement resolves, suspicion is counted, the rest is routed by whether an
      episode is open. The routing and its effect are separate critical sections. */
  function Compared(p: Setup, w: World, k: Key, e: Record): World
    requires ItemIs(w, k) && w.sweep.value.items[k].WasRead? && !w.sweep.value.items[k].read.Failed?
  {
    var s, item := w.sweep.value, w.sweep.value.items[k];
    var c := w.core.(stats := w.core.stats.(compared := w.core.stats.compared + 1));
    var f := CompareRead(k, e, item.read, p.opts, s.at);
    if f.None? then DropItem(w.(core := Resolve(c, k, s.at)), k)
    else if f.value.trust.Suspect? then
      DropItem(w.(core := c.(stats := c.stats.(suspectSwept := c.stats.suspectSwept + 1))), k)
    else if k in c.confirmed then
      WithItem(w.(core := c), k, ToRefresh(f.value.(confirmed := true, firstSeenAt := c.confirmed[k].firstSeenAt)))
    else WithItem(w.(core := c), k, ToEnqueue(e.version, f.value.(firstSeenAt := s.at)))
  }

  /** Cycle i decides its first candidate with this core and moves on. */
  function NextCandidate(w: World, i: nat, core: Core): World
    requires HeadIs(w, i)
  {
    w.(core := core, cycles := w.cycles[i := w.cycles[i].(due := w.cycles[i].due[1..], head := Untouched)])
  }

  function WithHead(w: World, i: nat, h: Head): World
    requires i < |w.cycles|
  {
    w.(cycles := w.cycles[i := w.cycles[i].(head := h)])
  }

  /** Cycle i confirms its first candidate: an episode opens, or is renewed and keeps its start. */
  function Confirmed(w: World, i: nat): World
    requires HeadIs(w, i) && w.cycles[i].head.ToConfirm?
  {
    var cy, cand := w.cycles[i], w.cycles[i].due[0];
    var k, now := cand.Key(), Confirmation(cand, cy.now);
    NextCandidate(w, i, Confirm(w.core, EpisodeOf(cand, cy.head.finding, cy.now))).(
      openedBy := if k in w.core.confirmed then w.openedBy else w.openedBy[k := now], lastBy := w.lastBy[k := now])
  }

  function Step(p: Setup, w: World, a: Act): World
    requires Enabled(w, a)
  {
    var c := w.core;
    match a
    case StartSweep(at, win) => w.(sweep := Some(Pass(at, win, map[])), lastSweep := at, core := c.(requeued := {}))
    case ListKey(k) => WithItem(w, k, Listed)
    case Batch(k, e) =>
      if e.None? || e.value.flag.Adopted? then DropItem(w, k) else WithItem(w, k, Batched(e.value.version))
    case ReadKey(k, read) => WithItem(w, k, WasRead(w.sweep.value.items[k].version, read))
    case FenceFails(k) => FenceFailed(w, k)
    case CompareKeys(k, e) =>
      if e.None? || e.value.version != w.sweep.value.items[k].version then FenceFailed(w, k)
      else if w.sweep.value.items[k].read.Failed? then
        w.(sweep := None, core := c.(stats := c.stats.(compared := c.stats.compared + 1)))
      else Compared(p, w, k, e.value)
    case DoEnqueue(k) =>
      var item := w.sweep.value.items[k];
      DropItem(w.(core := Enqueue(c, p.max, item.finding, item.version, w.sweep.value.at, w.sweep.value.w)), k)
    case DoRefresh(k) => DropItem(w.(core := Refresh(c, k, w.sweep.value.items[k].finding)), k)
    case EndSweep => w.(sweep := None)
    case Withdraw(version) => w.(core := Prune(c, version))
    case StartCycle(now) =>
      w.(core := TakeDue(c, now), cycles := w.cycles + [Cycle(now, Due(c.queue, now), Untouched)])
    case CheckVersion(i, v) =>
      var cand := w.cycles[i].due[0];
      if v.None? then NextCandidate(w, i, Forgot(c))
      else if v.value != cand.version then NextCandidate(w, i, MarkRequeued(Advanced(c), cand.Key()))
      else WithHead(w, i, Versioned)
    case RereadKey(i, read) =>
      if read.Failed? then NextCandidate(w, i, MarkRequeued(Unread(c), w.cycles[i].due[0].Key()))
      else WithHead(w, i, Reread(read))
    case Judge(i, e) =>
      var cand, read := w.cycles[i].due[0], w.cycles[i].head.read;
      if e.None? || e.value.version != cand.version then NextCandidate(w, i, MarkRequeued(Advanced(c), cand.Key()))
      else if e.value.flag.Suspect? then NextCandidate(w, i, Doubted(c))
      else
        var f := CompareRead(cand.Key(), e.value, read, p.opts, w.cycles[i].now);
        if f.None? then NextCandidate(w, i, CaughtUp(c)) else WithHead(w, i, ToConfirm(f.value))
    case DoConfirm(i) => Confirmed(w, i)
    case PutBackRest(i) =>
      w.(core := RequeueAll(c, p.max, w.cycles[i].due), cycles := w.cycles[i := w.cycles[i].(due := [])])
  }

  // The ways to decide a candidate without confirming it.
  function Forgot(c: Core): Core { c.(stats := c.stats.(forgotten := c.stats.forgotten + 1)) }
  function Advanced(c: Core): Core { c.(stats := c.stats.(advanced := c.stats.advanced + 1)) }
  function Unread(c: Core): Core { c.(stats := c.stats.(readFailed := c.stats.readFailed + 1)) }
  function Doubted(c: Core): Core { c.(stats := c.stats.(suspectBack := c.stats.suspectBack + 1)) }
  function CaughtUp(c: Core): Core { c.(stats := c.stats.(caughtUp := c.stats.caughtUp + 1)) }

  predicate AllEnabled(p: Setup, w: World, acts: seq<Act>)
    decreases |acts|
  {
    acts == [] || (Enabled(w, acts[0]) && AllEnabled(p, Step(p, w, acts[0]), acts[1..]))
  }

  function Run(p: Setup, w: World, acts: seq<Act>): World
    requires AllEnabled(p, w, acts)
    decreases |acts|
  {
    if acts == [] then w else Run(p, Step(p, w, acts[0]), acts[1..])
  }

  /** A sweeper that has done nothing yet. */
  predicate Initial(w: World) { w.core == EmptyCore() && w.sweep.None? && w.cycles == [] }

  // ---------------------------------------------------------------- the ledger

  /** Candidates taken and not yet decided, over all cycles. */
  function InFlight(cycles: seq<Cycle>): nat {
    if cycles == [] then 0 else |cycles[0].due| + InFlight(cycles[1..])
  }

  lemma {:induction false} InFlightChanges(cycles: seq<Cycle>, i: nat, c: Cycle)
    requires i < |cycles|
    ensures InFlight(cycles[i := c]) + |cycles[i].due| == InFlight(cycles) + |c.due|
  {
    if i == 0 {
      assert cycles[i := c][1..] == cycles[1..];
    } else {
      assert cycles[i := c][1..] == cycles[1..][i - 1 := c];
      InFlightChanges(cycles[1..], i - 1, c);
    }
  }

  lemma {:induction false} InFlightGrows(cycles: seq<Cycle>, c: Cycle)
    ensures InFlight(cycles + [c]) == InFlight(cycles) + |c.due|
  {
    if cycles == [] {
      assert (cycles + [c])[1..] == [];
    } else {
      assert (cycles + [c])[1..] == cycles[1..] + [c];
      InFlightGrows(cycles[1..], c);
    }
  }

  /** Every candidate ever enqueued is queued, in flight, decided in one of six ways, or one that
      a put-back found displaced or without room. */
  predicate Balanced(core: Core, cycles: seq<Cycle>) {
    core.stats.enqueued == |core.queue| + InFlight(cycles) + core.stats.Decided() + core.stats.Lost()
  }

  lemma {:induction false} RequeueAllLedger(s: Core, max: nat, cs: seq<Candidate>)
    requires Sane(s, max)
    ensures var s' := RequeueAll(s, max, cs);
      && Sane(s', max) && s'.confirmed == s.confirmed
      && s'.stats.enqueued == s.stats.enqueued && s'.stats.Decided() == s.stats.Decided()
      && s'.stats.confirmations == s.stats.confirmations
      && |s'.queue| + s'.stats.Lost() == |s.queue| + s.stats.Lost() + |cs|
      && s.queue <= s'.queue && forall c :: c in s'.queue ==> c in s.queue || c in cs
    decreases |cs|
  {
    if cs != [] {
      KeysInAppend(s.queue, cs[0]);
      var s1 := RequeueOne(s, max, cs[0]);
      RequeueAllLedger(s1, max, cs[1..]);
    }
  }

  // ---------------------------------------------------------------- what every state keeps

  /** A disagreement described by its own finding. */
  predicate Witnessed(f: Finding) { f.category.TypeMismatch? || !f.oracleValue.Equal(f.targetValue) }

  /** A finding waiting to be re-read: seen to disagree, by a trusted entry, at its version. */
  predicate CandidateOk(c: Candidate) {
    && c.finding.oracleVersion == c.version && !c.finding.trust.Suspect? && Witnessed(c.finding)
    && c.finding.firstSeenAt == c.seenAt
  }

  ghost predicate QueueOk(q: seq<Candidate>) { forall c :: c in q ==> CandidateOk(c) }

  predicate Rests(ep: Episode) { !ep.finding.trust.Suspect? && Witnessed(ep.finding) && ep.finding.confirmed }

  /** An episode says when its first candidate was seen and when its last one was taken. */
  predicate Recalls(ep: Episode, first: Confirmation, last: Confirmation) {
    && first.candidate.Key() == ep.key && last.candidate.Key() == ep.key
    && ep.firstSeenAt == first.candidate.seenAt
    && ep.confirmedAt == last.takenAt && ep.window == last.candidate.window
    && first.candidate.DueAt() <= first.takenAt && last.candidate.DueAt() <= last.takenAt
  }

  ghost predicate EpisodesOk(confirmed: map<Key, Episode>, openedBy: map<Key, Confirmation>,
      lastBy: map<Key, Confirmation>) {
    forall k :: k in confirmed ==>
      Rests(confirmed[k]) && k in openedBy && k in lastBy && Recalls(confirmed[k], openedBy[k], lastBy[k])
  }

  predicate ItemOk(k: Key, i: Item, at: Time) {
    match i
    case ToEnqueue(v, f) =>
      f.key == k && f.oracleVersion == v && !f.trust.Suspect? && Witnessed(f) && f.firstSeenAt == at
    case ToRefresh(f) => f.key == k && !f.trust.Suspect? && Witnessed(f) && f.confirmed
    case _ => true
  }

  ghost predicate SweepItemsOk(sweep: Option<Pass>) {
    sweep.Some? ==> forall k :: k in sweep.value.items ==> ItemOk(k, sweep.value.items[k], sweep.value.at)
  }

  /** The finding about to be confirmed disagreed again at the version it was raised against. */
  predicate HeadOk(c: Candidate, h: Head) {
    match h
    case ToConfirm(f) => f.key == c.Key() && f.oracleVersion == c.version && !f.trust.Suspect? && Witnessed(f)
    case Reread(read) => !read.Failed?
    case _ => true
  }

  ghost predicate CycleOk(cy: Cycle) {
    && DistinctKeys(cy.due) && QueueOk(cy.due) && (forall c :: c in cy.due ==> c.DueAt() <= cy.now)
    && (if cy.due == [] then cy.head.Untouched? else HeadOk(cy.due[0], cy.head))
  }

  ghost predicate CyclesOk(cycles: seq<Cycle>) {
    forall i {:trigger CycleOk(cycles[i])} :: 0 <= i < |cycles| ==> CycleOk(cycles[i])
  }

  ghost predicate Good(p: Setup, w: World) {
    && Sane(w.core, p.max) && Balanced(w.core, w.cycles) && QueueOk(w.core.queue)
    && EpisodesOk(w.core.confirmed, w.openedBy, w.lastBy) && SweepItemsOk(w.sweep) && CyclesOk(w.cycles)
  }

  // ---------------------------------------------------------------- every step keeps it

  lemma FindingOk(k: Key, e: Record, read: Read, opts: Options, now: Time)
    requires !read.Failed?
    ensures var f := CompareRead(k, e, read, opts, now); f.Some? ==>
      f.value.key == k && f.value.oracleVersion == e.version && f.value.trust == e.flag && Witnessed(f.value)
  {
  }

  lemma EnqueueKeeps(s: Core, max: nat, f: Finding, version: nat, at: Time, win: int)
    requires Sane(s, max) && QueueOk(s.queue) && CandidateOk(Candidate(f, version, at, win))
    ensures var s' := Enqueue(s, max, f, version, at, win);
      && Sane(s', max) && QueueOk(s'.queue) && s'.confirmed == s.confirmed && s.queue <= s'.queue
      && s'.stats.enqueued - |s'.queue| == s.stats.enqueued - |s.queue|
      && s'.stats.Decided() == s.stats.Decided() && s'.stats.Lost() == s.stats.Lost()
  {
    KeysInAppend(s.queue, Candidate(f, version, at, win));
  }

  lemma EnqueueGood(p: Setup, w: World, k: Key)
    requires Good(p, w) && Enabled(w, DoEnqueue(k))
    ensures Good(p, Step(p, w, DoEnqueue(k)))
  {
    var item := w.sweep.value.items[k];
    assert ItemOk(k, item, w.sweep.value.at);
    EnqueueKeeps(w.core, p.max, item.finding, item.version, w.sweep.value.at, w.sweep.value.w);
  }

  lemma RefreshGood(p: Setup, w: World, k: Key)
    requires Good(p, w) && Enabled(w, DoRefresh(k))
    ensures Good(p, Step(p, w, DoRefresh(k)))
  {
    assert ItemOk(k, w.sweep.value.items[k], w.sweep.value.at);
  }

  /** A sweep step that queues nothing and opens no episode keeps everything. */
  lemma QuietGood(p: Setup, w: World, k: Key, core: Core)
    requires Good(p, w) && ItemIs(w, k)
    requires core.queue == w.core.queue && core.queued == w.core.queued
    requires core.confirmed == w.core.confirmed || core.confirmed == w.core.confirmed - {k}
    requires core.stats.enqueued == w.core.stats.enqueued && core.stats.Lost() == w.core.stats.Lost()
    requires core.stats.Decided() == w.core.stats.Decided()
    ensures Good(p, DropItem(w.(core := core), k))
    ensures forall i: Item :: ItemOk(k, i, w.sweep.value.at) ==> Good(p, WithItem(w.(core := core), k, i))
  {
  }

  lemma CompareGood(p: Setup, w: World, k: Key, e: Option<Record>)
    requires Good(p, w) && Enabled(w, CompareKeys(k, e))
    ensures Good(p, Step(p, w, CompareKeys(k, e)))
  {
    var item := w.sweep.value.items[k];
    if e.None? || e.value.version != item.version {
      var c := w.core;
      QuietGood(p, w, k, MarkRequeued(c.(stats := c.stats.(fenceFailures := c.stats.fenceFailures + 1)), k));
    } else if !item.read.Failed? {
      ComparedGood(p, w, k, e.value);
    }
  }

  lemma ComparedGood(p: Setup, w: World, k: Key, e: Record)
    requires Good(p, w) && ItemIs(w, k) && w.sweep.value.items[k].WasRead? && !w.sweep.value.items[k].read.Failed?
    ensures Good(p, Compared(p, w, k, e))
  {
    var read := w.sweep.value.items[k].read;
    var c' := w.core.(stats := w.core.stats.(compared := w.core.stats.compared + 1));
    FindingOk(k, e, read, p.opts, w.sweep.value.at);
    var f := CompareRead(k, e, read, p.opts, w.sweep.value.at);
    if f.None? {
      QuietGood(p, w, k, Resolve(c', k, w.sweep.value.at));
    } else if f.value.trust.Suspect? {
      QuietGood(p, w, k, c'.(stats := c'.stats.(suspectSwept := c'.stats.suspectSwept + 1)));
    } else {
      QuietGood(p, w, k, c');
    }
  }

  lemma StartCycleGood(p: Setup, w: World, now: Time)
    requires Good(p, w)
    ensures Good(p, Step(p, w, StartCycle(now)))
  {
    TakeDueSane(w.core, p.max, now);
    DueMembers(w.core.queue, now);
    DueOrder(w.core.queue, now);
    var taken := Cycle(now, Due(w.core.queue, now), Untouched);
    InFlightGrows(w.cycles, taken);
    var cycles := w.cycles + [taken];
    forall i | 0 <= i < |cycles|
      ensures CycleOk(cycles[i])
    {
      assert i < |w.cycles| ==> CycleOk(w.cycles[i]);
    }
  }

  lemma OneCycleChanges(cycles: seq<Cycle>, i: nat, cy: Cycle)
    requires CyclesOk(cycles) && i < |cycles| && CycleOk(cy)
    ensures CyclesOk(cycles[i := cy])
  {
    var cycles' := cycles[i := cy];
    forall j | 0 <= j < |cycles'|
      ensures CycleOk(cycles'[j])
    {
      assert CycleOk(cycles[j]);
    }
  }

  lemma DistinctTail(q: seq<Candidate>)
    requires DistinctKeys(q) && q != []
    ensures DistinctKeys(q[1..])
    ensures forall c :: c in q[1..] ==> c in q && c.Key() != q[0].Key()
  {
    forall c | c in q[1..]
      ensures c in q && c.Key() != q[0].Key()
    {
      var i :| 0 <= i < |q[1..]| && q[1..][i] == c;
      assert q[i + 1] == c;
    }
  }

  /** A cycle past its first candidate is in order, and one fewer is in flight. */
  lemma NextCycle(cycles: seq<Cycle>, i: nat)
    requires CyclesOk(cycles) && i < |cycles| && cycles[i].due != []
    ensures var cycles' := cycles[i := cycles[i].(due := cycles[i].due[1..], head := Untouched)];
      CyclesOk(cycles') && InFlight(cycles') == InFlight(cycles) - 1
  {
    var cy := cycles[i].(due := cycles[i].due[1..], head := Untouched);
    assert CycleOk(cycles[i]);
    DistinctTail(cycles[i].due);
    InFlightChanges(cycles, i, cy);
    OneCycleChanges(cycles, i, cy);
  }

  /** Deciding the first candidate keeps everything if only the statistics of a decision moved. */
  lemma NextGood(p: Setup, w: World, i: nat, core: Core)
    requires Good(p, w) && HeadIs(w, i)
    requires core.queue == w.core.queue && core.queued == w.core.queued && core.confirmed == w.core.confirmed
    requires core.stats.enqueued == w.core.stats.enqueued && core.stats.Lost() == w.core.stats.Lost()
    requires core.stats.Decided() == w.core.stats.Decided() + 1
    ensures Good(p, NextCandidate(w, i, core))
  {
    NextCycle(w.cycles, i);
  }

  lemma HeadGood(p: Setup, w: World, i: nat, h: Head)
    requires Good(p, w) && HeadIs(w, i) && HeadOk(w.cycles[i].due[0], h)
    ensures Good(p, WithHead(w, i, h))
  {
    var cy := w.cycles[i].(head := h);
    assert CycleOk(w.cycles[i]);
    InFlightChanges(w.cycles, i, cy);
    OneCycleChanges(w.cycles, i, cy);
  }

  lemma ConfirmGood(p: Setup, w: World, i: nat)
    requires Good(p, w) && Enabled(w, DoConfirm(i))
    ensures Good(p, Step(p, w, DoConfirm(i)))
  {
    NextCycle(w.cycles, i);
    assert CycleOk(w.cycles[i]);
    assert w.cycles[i].due[0] in w.cycles[i].due;
  }

  lemma CheckVersionGood(p: Setup, w: World, i: nat, v: Option<nat>)
    requires Good(p, w) && Enabled(w, CheckVersion(i, v))
    ensures Good(p, Step(p, w, CheckVersion(i, v)))
  {
    var cand := w.cycles[i].due[0];
    if v.None? {
      NextGood(p, w, i, Forgot(w.core));
    } else if v.value != cand.version {
      NextGood(p, w, i, MarkRequeued(Advanced(w.core), cand.Key()));
    } else {
      HeadGood(p, w, i, Versioned);
    }
  }

  lemma RereadGood(p: Setup, w: World, i: nat, read: Read)
    requires Good(p, w) && Enabled(w, RereadKey(i, read))
    ensures Good(p, Step(p, w, RereadKey(i, read)))
  {
    if read.Failed? {
      NextGood(p, w, i, MarkRequeued(Unread(w.core), w.cycles[i].due[0].Key()));
    } else {
      HeadGood(p, w, i, Reread(read));
    }
  }

  lemma JudgeGood(p: Setup, w: World, i: nat, e: Option<Record>)
    requires Good(p, w) && Enabled(w, Judge(i, e))
    ensures Good(p, Step(p, w, Judge(i, e)))
  {
    var cand, read := w.cycles[i].due[0], w.cycles[i].head.read;
    if e.None? || e.value.version != cand.version {
      NextGood(p, w, i, MarkRequeued(Advanced(w.core), cand.Key()));
    } else if e.value.flag.Suspect? {
      NextGood(p, w, i, Doubted(w.core));
    } else {
      var f := CompareRead(cand.Key(), e.value, read, p.opts, w.cycles[i].now);
      if f.None? {
        NextGood(p, w, i, CaughtUp(w.core));
      } else {
        FindingOk(cand.Key(), e.value, read, p.opts, w.cycles[i].now);
        HeadGood(p, w, i, ToConfirm(f.value));
      }
    }
  }

  lemma PutBackGood(p: Setup, w: World, i: nat)
    requires Good(p, w) && Enabled(w, PutBackRest(i))
    ensures Good(p, Step(p, w, PutBackRest(i)))
  {
    var cy := w.cycles[i].(due := []);
    assert CycleOk(w.cycles[i]);
    RequeueAllLedger(w.core, p.max, w.cycles[i].due);
    InFlightChanges(w.cycles, i, cy);
    OneCycleChanges(w.cycles, i, cy);
  }

  lemma StepGood(p: Setup, w: World, a: Act)
    requires Good(p, w) && Enabled(w, a)
    ensures Good(p, Step(p, w, a))
  {
    match a
    case DoEnqueue(k) => EnqueueGood(p, w, k);
    case DoRefresh(k) => RefreshGood(p, w, k);
    case CompareKeys(k, e) => CompareGood(p, w, k, e);
    case StartCycle(now) => StartCycleGood(p, w, now);
    case CheckVersion(i, v) => CheckVersionGood(p, w, i, v);
    case RereadKey(i, read) => RereadGood(p, w, i, read);
    case Judge(i, e) => JudgeGood(p, w, i, e);
    case FenceFails(k) =>
      var c := w.core;
      QuietGood(p, w, k, MarkRequeued(c.(stats := c.stats.(fenceFailures := c.stats.fenceFailures + 1)), k));
    case DoConfirm(i) => ConfirmGood(p, w, i);
    case PutBackRest(i) => PutBackGood(p, w, i);
    case Withdraw(version) => WithdrawGood(p, w, version);
    case _ => BeginGood(p, w, a);
  }

  lemma WithdrawGood(p: Setup, w: World, version: Key -> Option<nat>)
    requires Good(p, w)
    ensures Good(p, w.(core := Prune(w.core, version)))
  {
  }

  /** What a sweep does before it compares touches only its own items. */
  lemma BeginGood(p: Setup, w: World, a: Act)
    requires Good(p, w) && Enabled(w, a) && (a.StartSweep? || a.ListKey? || a.Batch? || a.ReadKey? || a.EndSweep?)
    ensures Good(p, Step(p, w, a))
  {
  }

  lemma {:induction false} RunGood(p: Setup, w: World, acts: seq<Act>)
    requires Good(p, w) && AllEnabled(p, w, acts)
    ensures Good(p, Run(p, w, acts))
    decreases |acts|
  {
    if acts != [] {
      StepGood(p, w, acts[0]);
      RunGood(p, Step(p, w, acts[0]), acts[1..]);
    }
  }

  // ---------------------------------------------------------------- the theorems

  /** The states some run leads to. */
  ghost predicate Reachable(p: Setup, w: World) {
    exists w0, acts :: Initial(w0) && LeadsTo(p, w0, acts, w)
  }

  predicate LeadsTo(p: Setup, w0: World, acts: seq<Act>, w: World) {
    AllEnabled(p, w0, acts) && w == Run(p, w0, acts)
  }

  lemma LeadsToGood(p: Setup, w0: World, acts: seq<Act>, w: World)
    requires Good(p, w0) && LeadsTo(p, w0, acts, w)
    ensures Good(p, w)
  {
    RunGood(p, w0, acts);
  }

  lemma InitialIsGood(p: Setup, w: World)
    requires Initial(w)
    ensures Good(p, w)
  {
    NoKeys();
    IdleGood(p, w);
  }

  lemma IdleGood(p: Setup, w: World)
    requires w.sweep.None? && w.cycles == [] && w.core.queue == [] && w.core.confirmed == map[]
    requires Sane(w.core, p.max) && Balanced(w.core, w.cycles)
    ensures Good(p, w)
  {
  }

  lemma NoKeys()
    ensures KeysIn([]) == {}
  {
  }

  lemma ReachableIsGood(p: Setup, w: World)
    requires Reachable(p, w)
    ensures Good(p, w)
  {
    var w0, acts :| Initial(w0) && LeadsTo(p, w0, acts, w);
    InitialIsGood(p, w0);
    LeadsToGood(p, w0, acts, w);
  }

  /** The books, with any number of cycles at once: in every reachable state the queue and its key set
      agree, keys are unique, the bound holds, and every candidate enqueued is queued, in flight,
      decided, or lost by a put-back. SweepLoss says exactly when none is lost. */
  lemma CandidatesAreConserved(p: Setup, w: World)
    requires Reachable(p, w)
    ensures w.core.queued == KeysIn(w.core.queue) && DistinctKeys(w.core.queue) && |w.core.queue| <= p.max
    ensures w.core.stats.enqueued == |w.core.queue| + InFlight(w.cycles) + w.core.stats.Decided() + w.core.stats.Lost()
  {
    ReachableIsGood(p, w);
  }

  /** The two-read rule, with any number of cycles at once: whatever reaches confirm disagreed when a
      sweep read it and disagreed again when it was re-read at least a window later, both times
      against the one oracle version, and was not suspect either time. */
  lemma TwoReadsBeforeConfirm(p: Setup, w: World, i: nat)
    requires Reachable(p, w) && Enabled(w, DoConfirm(i))
    ensures var c, f := w.cycles[i].due[0], w.cycles[i].head.finding;
      && c.finding.key == f.key
      && c.finding.oracleVersion == c.version == f.oracleVersion
      && Witnessed(c.finding) && Witnessed(f)
      && !c.finding.trust.Suspect? && !f.trust.Suspect?
      && w.cycles[i].now - c.seenAt >= c.window
  {
    ReachableIsGood(p, w);
    assert CycleOk(w.cycles[i]) && w.cycles[i].due[0] in w.cycles[i].due;
  }

  /** Every episode in every reachable state rests on a disagreement that is not suspect. It starts
      when the candidate that opened it was seen and was last confirmed when the cycle that renewed it
      took its candidate, and each of the two had waited out its own window. */
  lemma EpisodesAreEarned(p: Setup, w: World, k: Key)
    requires Reachable(p, w) && k in w.core.confirmed
    ensures var ep := w.core.confirmed[k];
      && ep.key == k && !ep.finding.trust.Suspect? && Witnessed(ep.finding) && ep.finding.confirmed
      && k in w.openedBy && k in w.lastBy && Recalls(ep, w.openedBy[k], w.lastBy[k])
  {
    ReachableIsGood(p, w);
  }

  /** Only taking what is due ever removes from the queue. */
  lemma QueueGrows(p: Setup, w: World, a: Act)
    requires Good(p, w) && Enabled(w, a) && !a.StartCycle?
    ensures w.core.queue <= Step(p, w, a).core.queue
  {
    if a.PutBackRest? {
      RequeueAllLedger(w.core, p.max, w.cycles[a.i].due);
    }
  }

  /** A waiting candidate is never replaced: as long as its key stays queued its due time is the
      one it was raised with. */
  lemma DueTimeNeverMoves(p: Setup, w: World, a: Act, c: Candidate, c': Candidate)
    requires Reachable(p, w) && Enabled(w, a)
    requires c in w.core.queue && c' in Step(p, w, a).core.queue && c.Key() == c'.Key()
    ensures c == c'
  {
    ReachableIsGood(p, w);
    StepGood(p, w, a);
    if a.StartCycle? {
      DueMembers(w.core.queue, a.now);
      SameKeySame(w.core.queue, c, c');
    } else {
      QueueGrows(p, w, a);
      assert c in Step(p, w, a).core.queue;
      SameKeySame(Step(p, w, a).core.queue, c, c');
    }
  }

  lemma SameKeySame(q: seq<Candidate>, c: Candidate, c': Candidate)
    requires DistinctKeys(q) && c in q && c' in q && c.Key() == c'.Key()
    ensures c == c'
  {
    var i :| 0 <= i < |q| && q[i] == c;
    var j :| 0 <= j < |q| && q[j] == c';
  }

  /** A cycle that nothing interleaves with loses nothing: putting back what was taken gives the
      same candidates. SweepLoss says what happens when a sweep comes in between. */
  lemma PutBackLosesNothing(s: Core, max: nat, now: Time)
    requires Sane(s, max)
    ensures var s' := RequeueAll(TakeDue(s, now), max, Due(s.queue, now));
      multiset(s'.queue) == multiset(s.queue) && s'.queued == s.queued && s'.stats == s.stats
  {
    TakeDueSane(s, max, now);
    DueMembers(s.queue, now);
    DueOrder(s.queue, now);
    RoomForAll(TakeDue(s, now), max, Due(s.queue, now));
    var s' := RequeueAll(TakeDue(s, now), max, Due(s.queue, now));
    RequeueAllLedger(TakeDue(s, now), max, Due(s.queue, now));
    assert KeysIn(s.queue) == KeysIn(NotDue(s.queue, now)) + KeysIn(Due(s.queue, now));
  }

  lemma {:induction false} RoomForAll(s: Core, max: nat, cs: seq<Candidate>)
    requires Sane(s, max) && DistinctKeys(cs) && KeysIn(cs) !! s.queued && |s.queue| + |cs| <= max
    ensures var s' := RequeueAll(s, max, cs);
      s'.queue == s.queue + cs && s'.queued == s.queued + KeysIn(cs) && s'.stats == s.stats
    decreases |cs|
  {
    if cs == [] {
      assert KeysIn(cs) == {};
    } else {
      DistinctTail(cs);
      assert cs[0] in cs && cs[0].Key() in KeysIn(cs);
      KeysInAppend(s.queue, cs[0]);
      assert KeysIn(cs) == {cs[0].Key()} + KeysIn(cs[1..]);
      RoomForAll(RequeueOne(s, max, cs[0]), max, cs[1..]);
      assert s.queue + [cs[0]] + cs[1..] == s.queue + cs;
    }
  }

  // ---------------------------------------------------------------- longer runs

  lemma {:induction false} RunAppend(p: Setup, w0: World, acts: seq<Act>, a: Act)
    requires AllEnabled(p, w0, acts) && Enabled(Run(p, w0, acts), a)
    ensures AllEnabled(p, w0, acts + [a]) && Run(p, w0, acts + [a]) == Step(p, Run(p, w0, acts), a)
    decreases |acts|
  {
    if acts == [] {
      assert acts + [a] == [a];
      assert [a][1..] == [];
    } else {
      assert (acts + [a])[1..] == acts[1..] + [a];
      RunAppend(p, Step(p, w0, acts[0]), acts[1..], a);
    }
  }

  /** One more step of a run is a run. */
  lemma ReachableNext(p: Setup, w: World, a: Act)
    requires Reachable(p, w) && Enabled(w, a)
    ensures Reachable(p, Step(p, w, a))
  {
    var w0, acts :| Initial(w0) && LeadsTo(p, w0, acts, w);
    RunAppend(p, w0, acts, a);
    assert LeadsTo(p, w0, acts + [a], Step(p, w, a));
  }
}
